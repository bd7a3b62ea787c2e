/** The home page (`Home`): joining by invite code, and the three challenge tabs. */
module Home {
  import opened Ui
  import Text
  import Seqs
  import Dates
  import Card = ChallengeCard

  const InviteCodeRequired := "초대코드를 입력해주세요"

  /**
   * `handleJoinWithCode`: a code that is blank after trimming is refused;
   * any other code is used as typed, surrounding spaces included.
   */
  function JoinWithCode(code: string): (r: Outcome)
    ensures r.Error? <==> Text.IsBlank(code)
    ensures r.Error? ==> r.message == InviteCodeRequired
    ensures r.Navigate? ==> r.path == ChallengePath(code)
  {
    if Text.Trim(code) == [] then Error(InviteCodeRequired) else Navigate(ChallengePath(code))
  }

  /** Surrounding spaces only pass the blank test; the path keeps them. */
  lemma PaddedCodeKeptAsTyped(code: string)
    requires code != [] && !Text.IsWhitespace(code[0])
    ensures JoinWithCode(" " + code + " ") == Navigate(ChallengePath(" " + code + " "))
  {
    assert (" " + code + " ")[1] == code[0];
  }

  /** The "ending" tab's test: between one and seven days left. */
  predicate EndsWithinWeek(c: Card.CardProps, now: int)
  {
    var d := Dates.DaysLeft(c.endDate, now);
    d <= 7 && d > 0
  }

  /**
   * The "마감임박" tab: the challenges whose end is still ahead but at most
   * seven days away, in their original order.
   */
  function EndingSoon(cs: seq<Card.CardProps>, now: int): (r: seq<Card.CardProps>)
    ensures Seqs.SubseqOf(r, cs)
    ensures forall c :: c in r <==> c in cs && now < c.endDate <= now + 7 * Dates.DayMs
    ensures forall c :: multiset(r)[c] == if now < c.endDate <= now + 7 * Dates.DayMs then multiset(cs)[c] else 0
  {
    forall c: Card.CardProps
      ensures EndsWithinWeek(c, now) <==> now < c.endDate <= now + 7 * Dates.DayMs
    {
      Dates.DaysLeftPositive(c.endDate, now);
      Dates.DaysLeftAtMost(c.endDate, now, 7);
    }
    Seqs.FilterCounts(c => EndsWithinWeek(c, now), cs);
    Seqs.Filter(c => EndsWithinWeek(c, now), cs)
  }

  datatype Tab = Popular | Recent | Ending

  /** What each tab lists: "popular" and "recent" the whole list as it is, "ending" the filtered one. */
  function TabContents(tab: Tab, cs: seq<Card.CardProps>, now: int): (r: seq<Card.CardProps>)
    ensures Seqs.SubseqOf(r, cs)
    ensures tab != Ending ==> r == cs
  {
    if tab == Ending then EndingSoon(cs, now) else Seqs.SubseqOfSelf(cs); cs
  }
}
