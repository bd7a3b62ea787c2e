/**
 * The challenge detail page (`ChallengeDetail`): the colour band of each
 * participant's progress bar, the average progress card, and the join
 * state that switches the header button.
 */
module ChallengeDetail {
  import opened Ui
  import JsMath

  const HighBand := "bg-success"
  const GoodBand := "bg-reading-progress"
  const MidBand := "bg-accent"
  const LowBand := "bg-destructive"

  /** `getProgressColor`: four bands split at 80, 60 and 40, each progress in exactly one. */
  function ProgressColor(progress: int): (cls: string)
    ensures cls == HighBand <==> 80 <= progress
    ensures cls == GoodBand <==> 60 <= progress < 80
    ensures cls == MidBand <==> 40 <= progress < 60
    ensures cls == LowBand <==> progress < 40
  {
    if progress >= 80 then HighBand
    else if progress >= 60 then GoodBand
    else if progress >= 40 then MidBand
    else LowBand
  }

  /** The rank of a band, lowest first. */
  function BandRank(cls: string): int
  {
    if cls == HighBand then 3 else if cls == GoodBand then 2 else if cls == MidBand then 1 else 0
  }

  /** More progress never gives a lower band. */
  lemma ProgressColorMonotone(p: int, q: int)
    requires p <= q
    ensures BandRank(ProgressColor(p)) <= BandRank(ProgressColor(q))
  {
  }

  /** A row of the participant list. */
  datatype Participant = Participant(id: int, name: string, progress: int, currentPage: int, totalPages: int)

  /** `reduce((acc, p) => acc + p.progress, 0)`, folded from the left. */
  function ProgressSum(ps: seq<Participant>): int
  {
    if ps == [] then 0 else ProgressSum(ps[..|ps| - 1]) + ps[|ps| - 1].progress
  }

  /**
   * The "평균 진행률" card: the sum of the progress values over the number
   * of participants, rounded to the nearest integer; NaN (None) for an
   * empty list, where the division is by zero.
   */
  function AverageProgress(ps: seq<Participant>): (avg: Option<int>)
    ensures avg.None? <==> ps == []
    ensures avg.Some? ==>
      2 * avg.value * |ps| - |ps| <= 2 * ProgressSum(ps) < 2 * avg.value * |ps| + |ps|
  {
    if ps == [] then None else Some(JsMath.RoundDiv(ProgressSum(ps), |ps|))
  }

  /** The sum of values between lo and hi lies between n * lo and n * hi. */
  lemma {:induction false} ProgressSumBounds(ps: seq<Participant>, lo: int, hi: int)
    requires forall p :: p in ps ==> lo <= p.progress <= hi
    ensures |ps| * lo <= ProgressSum(ps) <= |ps| * hi
  {
    if ps != [] {
      var n := |ps|;
      var pre := ps[..n - 1];
      assert forall p :: p in pre ==> p in ps;
      ProgressSumBounds(pre, lo, hi);
      assert ps[n - 1] in ps;
      assert ProgressSum(ps) == ProgressSum(pre) + ps[n - 1].progress;
      MulStep(n, lo);
      MulStep(n, hi);
    }
  }

  /** One more summand of x adds x to the product. */
  lemma MulStep(n: int, x: int)
    ensures n * x == (n - 1) * x + x
  {
  }

  /** The average lies within the range of the participants' progress values. */
  lemma AverageWithinRange(ps: seq<Participant>, lo: int, hi: int)
    requires ps != []
    requires forall p :: p in ps ==> lo <= p.progress <= hi
    ensures lo <= AverageProgress(ps).value <= hi
  {
    var n := |ps|;
    var avg := AverageProgress(ps).value;
    ProgressSumBounds(ps, lo, hi);
    assert (2 * lo - 1) * n < (2 * avg + 1) * n;
    JsMath.CancelPositiveFactor(2 * lo - 1, 2 * avg + 1, n);
    assert (2 * avg - 1) * n < (2 * hi + 1) * n;
    JsMath.CancelPositiveFactor(2 * avg - 1, 2 * hi + 1, n);
  }

  /** The eight participants of the sample challenge. */
  const SampleParticipants := [
    Participant(1, "김덕빈", 65, 130, 200),
    Participant(2, "이민수", 70, 140, 200),
    Participant(3, "박소영", 45, 90, 200),
    Participant(4, "정현우", 80, 160, 200),
    Participant(5, "최유진", 55, 110, 200),
    Participant(6, "강민호", 60, 120, 200),
    Participant(7, "윤서현", 75, 150, 200),
    Participant(8, "임태양", 50, 100, 200)
  ]

  /** The sample's progress sums to 500 over 8 people: 62.5, shown as 63. */
  lemma SampleAverage()
    ensures AverageProgress(SampleParticipants) == Some(63)
  {
    var ps := SampleParticipants;
    assert ProgressSum(ps[..1]) == 65;
    assert ps[..2][..1] == ps[..1];
    assert ProgressSum(ps[..2]) == 135;
    assert ps[..3][..2] == ps[..2];
    assert ProgressSum(ps[..3]) == 180;
    assert ps[..4][..3] == ps[..3];
    assert ProgressSum(ps[..4]) == 260;
    assert ps[..5][..4] == ps[..4];
    assert ProgressSum(ps[..5]) == 315;
    assert ps[..6][..5] == ps[..5];
    assert ProgressSum(ps[..6]) == 375;
    assert ps[..7][..6] == ps[..6];
    assert ProgressSum(ps[..7]) == 450;
    assert ps[..7] == ps[..|ps| - 1];
    assert ProgressSum(ps) == 500;
  }

  /** The header's main button: join, or write a record once joined. */
  datatype PrimaryButton = JoinButton | RecordButton(path: string)

  /** The page's join state. */
  class DetailView {
    var isJoined: bool

    /** The page starts as joined (`useState(true)`). */
    constructor ()
      ensures isJoined
    {
      isJoined := true;
    }

    /**
     * `handleJoinChallenge`: joined afterwards whatever the state before,
     * so a second call changes nothing.
     */
    method JoinChallenge()
      modifies this
      ensures isJoined
    {
      isJoined := true;
    }

    /** The join button while not joined; once joined, the button to the record form. */
    function PrimaryAction(id: string): (b: PrimaryButton)
      reads this
      ensures b == JoinButton <==> !isJoined
      ensures b.RecordButton? ==> b.path == ChallengePath(id) + "/record"
    {
      if !isJoined then JoinButton else RecordButton(ChallengePath(id) + "/record")
    }
  }
}
