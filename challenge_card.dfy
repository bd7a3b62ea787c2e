/**
 * The challenge card (`ChallengeCard`): which status badge it shows, whether
 * the progress bar and the join button appear, and whether that button is
 * enabled, all derived from the props and the current instant.
 */
module ChallengeCard {
  import opened Ui
  import Dates

  /** The card's props; `progress` and `isJoined` are optional. */
  datatype CardProps = CardProps(
    id: string, title: string, book: string, author: string,
    startDate: int, endDate: int,
    participants: int, maxParticipants: int,
    progress: Option<int>, isJoined: Option<bool>)

  /** `progress = 0` as a parameter default. */
  function ProgressOf(p: CardProps): int
  {
    match p.progress
    case Some(v) => v
    case None => 0
  }

  /** `isJoined = false` as a parameter default. */
  function JoinedOf(p: CardProps): bool
  {
    match p.isJoined
    case Some(b) => b
    case None => false
  }

  /** `daysLeft > 0 && now >= start`: the challenge has started and its end is still ahead. */
  function IsActive(p: CardProps, now: int): (r: bool)
    ensures r <==> p.startDate <= now < p.endDate
  {
    Dates.DaysLeftPositive(p.endDate, now);
    Dates.DaysLeft(p.endDate, now) > 0 && now >= p.startDate
  }

  /** `now < start`: the challenge has not started. */
  function IsUpcoming(p: CardProps, now: int): (r: bool)
    ensures r ==> !IsActive(p, now)
  {
    now < p.startDate
  }

  const ActiveLabel := "진행중"
  const UpcomingLabel := "시작 예정"
  const DoneLabel := "완료"

  /** The status badge: exactly one of the three labels, by where now falls against the dates. */
  function StatusLabel(p: CardProps, now: int): (badge: string)
    ensures badge == ActiveLabel <==> p.startDate <= now < p.endDate
    ensures badge == UpcomingLabel <==> now < p.startDate
    ensures badge == DoneLabel <==> p.startDate <= now && p.endDate <= now
  {
    if IsActive(p, now) then ActiveLabel else if IsUpcoming(p, now) then UpcomingLabel else DoneLabel
  }

  /** The join button: not rendered, or rendered and possibly disabled. */
  datatype JoinButton = Hidden | Shown(disabled: bool)

  /**
   * The join button appears for a card the user has not joined that still
   * has room; it is disabled once the challenge is neither active nor
   * upcoming, that is once both dates have passed.
   */
  function JoinButtonState(p: CardProps, now: int): (b: JoinButton)
    ensures b.Shown? <==> !JoinedOf(p) && p.participants < p.maxParticipants
    ensures b.Shown? ==> (b.disabled <==> p.startDate <= now && p.endDate <= now)
    ensures b.Shown? ==> (b.disabled <==> StatusLabel(p, now) == DoneLabel)
  {
    if !JoinedOf(p) && p.participants < p.maxParticipants then
      Shown(!IsActive(p, now) && !IsUpcoming(p, now))
    else
      Hidden
  }

  /**
   * The joined-only part of the card (the "참여중" badge and the progress
   * bar): present exactly when `isJoined` was passed as true, and showing
   * the progress passed, or 0.
   */
  function ProgressBar(p: CardProps): (r: Option<int>)
    ensures r.Some? <==> p.isJoined == Some(true)
    ensures r.Some? && p.progress.None? ==> r.value == 0
    ensures r.Some? && p.progress.Some? ==> r.value == p.progress.value
  {
    if JoinedOf(p) then Some(ProgressOf(p)) else None
  }

  /**
   * A card given neither `progress` nor `isJoined` (as the catalog renders
   * them) shows no progress bar, and its join button depends on capacity alone.
   */
  lemma DefaultProps(p: CardProps, now: int)
    requires p.progress.None? && p.isJoined.None?
    ensures ProgressBar(p).None?
    ensures JoinButtonState(p, now).Shown? <==> p.participants < p.maxParticipants
  {
  }
}
