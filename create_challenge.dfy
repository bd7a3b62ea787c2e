/**
 * The challenge creation form (`CreateChallenge`): the submit handler's two
 * checks and the rules by which the two date pickers disable days.
 */
module CreateChallenge {
  import opened Ui

  /** The text fields and the capacity input (`parseInt` of the input, None for NaN). */
  datatype ChallengeForm = ChallengeForm(
    title: string, book: string, author: string, description: string,
    maxParticipants: Option<int>, rules: string, penalty: string)

  const MissingInfo := "필수 정보를 모두 입력해주세요"
  const DateOrderError := "종료일은 시작일보다 늦어야 합니다"

  /** Title, book and author are non-empty and both dates are picked. */
  predicate HasRequired(f: ChallengeForm, startDate: Option<int>, endDate: Option<int>)
  {
    f.title != "" && f.book != "" && f.author != "" && startDate.Some? && endDate.Some?
  }

  /**
   * `handleSubmit`: a missing required field fails first, then an end date
   * not strictly after the start; otherwise the page moves to the new
   * challenge under its invite code (drawn at random, passed in here).
   */
  function Submit(f: ChallengeForm, startDate: Option<int>, endDate: Option<int>, inviteCode: string): (r: Outcome)
    ensures r == Error(MissingInfo) <==> !HasRequired(f, startDate, endDate)
    ensures r == Error(DateOrderError) <==> HasRequired(f, startDate, endDate) && startDate.value >= endDate.value
    ensures r.Navigate? <==> HasRequired(f, startDate, endDate) && startDate.value < endDate.value
    ensures r.Navigate? ==> r.path == ChallengePath(inviteCode)
  {
    if !HasRequired(f, startDate, endDate) then Error(MissingInfo)
    else if startDate.value >= endDate.value then Error(DateOrderError)
    else Navigate(ChallengePath(inviteCode))
  }

  /** Description, capacity, rules and penalty never affect the outcome. */
  lemma SubmitIgnoresOptionalFields(f: ChallengeForm, g: ChallengeForm, s: Option<int>, e: Option<int>, code: string)
    requires f.title == g.title && f.book == g.book && f.author == g.author
    ensures Submit(f, s, e, code) == Submit(g, s, e, code)
  {
  }

  /** The start picker disables every day before the current instant. */
  function StartDayDisabled(day: int, now: int): (r: bool)
    ensures !r <==> now <= day
  {
    day < now
  }

  /** The end picker also disables every day up to and including a picked start. */
  function EndDayDisabled(day: int, now: int, startDate: Option<int>): (r: bool)
    ensures !r <==> now <= day && (startDate.Some? ==> startDate.value < day)
    ensures StartDayDisabled(day, now) ==> r
  {
    day < now || (startDate.Some? && day <= startDate.value)
  }

  /** An end day the picker allows after a start was picked always passes the order check. */
  lemma PickedEndPassesOrderCheck(f: ChallengeForm, s: int, e: int, now: int, code: string)
    requires f.title != "" && f.book != "" && f.author != ""
    requires !EndDayDisabled(e, now, Some(s))
    ensures Submit(f, Some(s), Some(e), code) == Navigate(ChallengePath(code))
  {
  }

  /**
   * The pickers do not make the order check redundant: picking the end day
   * first and then a later start day passes both pickers and fails the check.
   */
  lemma EndPickedFirstCanFail(f: ChallengeForm, now: int, code: string)
    requires f.title != "" && f.book != "" && f.author != ""
    ensures var e, s := now + 1, now + 2;
      && !EndDayDisabled(e, now, None)
      && !StartDayDisabled(s, now)
      && Submit(f, Some(s), Some(e), code) == Error(DateOrderError)
  {
  }
}
