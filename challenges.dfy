/**
 * The challenge catalog page (`Challenges`): status derivation, the four
 * conjunctive filters over the catalog list, the genre and difficulty
 * option lists, and the filter state with its clear and reset handlers.
 */
module Challenges {
  import Text
  import Seqs
  import Dates
  import opened Ui
  import Card = ChallengeCard

  /** A catalog entry. Dates are instants in milliseconds. */
  datatype Challenge = Challenge(
    id: string, title: string, book: string, author: string,
    startDate: int, endDate: int,
    participants: int, maxParticipants: int,
    genre: string, difficulty: string)

  datatype Status = Upcoming | Active | Completed

  /**
   * `getStatus`: upcoming before the start, completed after the end, active
   * otherwise (both boundary instants included). Exactly one status holds
   * for every instant, whatever the order of the two dates.
   */
  function GetStatus(now: int, start: int, end: int): (s: Status)
    ensures s == Upcoming <==> now < start
    ensures s == Completed <==> start <= now && end < now
    ensures s == Active <==> start <= now <= end
  {
    if now < start then Upcoming else if now > end then Completed else Active
  }

  /** The four filter fields: a search term and three select values. */
  datatype Filters = Filters(searchTerm: string, genre: string, difficulty: string, status: string)

  /** The initial filters, and what "reset all" restores. */
  const NoFilters := Filters("", "all", "all", "all")

  /** The search term occurs, ignoring case, in the title, the book or the author. */
  predicate MatchesSearch(c: Challenge, term: string)
  {
    var t := Text.ToLower(term);
    || Text.Contains(Text.ToLower(c.title), t)
    || Text.Contains(Text.ToLower(c.book), t)
    || Text.Contains(Text.ToLower(c.author), t)
  }

  predicate MatchesGenre(c: Challenge, genre: string)
  {
    genre == "all" || c.genre == genre
  }

  predicate MatchesDifficulty(c: Challenge, difficulty: string)
  {
    difficulty == "all" || c.difficulty == difficulty
  }

  predicate MatchesStatus(c: Challenge, status: string, now: int)
  {
    var s := GetStatus(now, c.startDate, c.endDate);
    || status == "all"
    || (status == "recruiting" && s == Upcoming && c.participants < c.maxParticipants)
    || (status == "active" && s == Active)
    || (status == "completed" && s == Completed)
  }

  /** The predicate of `filteredChallenges`: all four filters at once. */
  predicate Matches(c: Challenge, f: Filters, now: int)
  {
    && MatchesSearch(c, f.searchTerm)
    && MatchesGenre(c, f.genre)
    && MatchesDifficulty(c, f.difficulty)
    && MatchesStatus(c, f.status, now)
  }

  /**
   * `filteredChallenges`: the challenges that pass every filter, in catalog
   * order, none dropped and none repeated beyond the catalog's own count.
   */
  function FilterChallenges(cs: seq<Challenge>, f: Filters, now: int): (r: seq<Challenge>)
    ensures Seqs.SubseqOf(r, cs)
    ensures forall c :: c in r <==> c in cs && Matches(c, f, now)
    ensures forall c :: multiset(r)[c] == if Matches(c, f, now) then multiset(cs)[c] else 0
  {
    Seqs.FilterCounts(c => Matches(c, f, now), cs);
    Seqs.Filter(c => Matches(c, f, now), cs)
  }

  /** An empty search term matches every challenge. */
  lemma EmptySearchMatchesAll(c: Challenge)
    ensures MatchesSearch(c, "")
  {
    Text.ContainsEmpty(Text.ToLower(c.title));
  }

  /** The search ignores the case of the term. */
  lemma SearchIgnoresTermCase(c: Challenge, term: string)
    ensures MatchesSearch(c, term) == MatchesSearch(c, Text.ToLower(term))
  {
    Text.ToLowerIdempotent(term);
  }

  /**
   * The status select: "recruiting" keeps upcoming challenges with room,
   * "active" and "completed" keep that derived status, and any value other
   * than these and "all" keeps nothing. "all" in a select keeps everything.
   */
  lemma SelectSemantics(c: Challenge, f: Filters, now: int)
    ensures f.status == "recruiting" ==>
      (MatchesStatus(c, f.status, now) <==> now < c.startDate && c.participants < c.maxParticipants)
    ensures f.status == "active" ==>
      (MatchesStatus(c, f.status, now) <==> c.startDate <= now <= c.endDate)
    ensures f.status == "completed" ==>
      (MatchesStatus(c, f.status, now) <==> c.startDate <= now && c.endDate < now)
    ensures f.status !in {"all", "recruiting", "active", "completed"} ==> !MatchesStatus(c, f.status, now)
    ensures f.genre == "all" ==> MatchesGenre(c, f.genre)
    ensures f.genre != "all" ==> (MatchesGenre(c, f.genre) <==> c.genre == f.genre)
    ensures f.difficulty == "all" ==> MatchesDifficulty(c, f.difficulty)
    ensures f.difficulty != "all" ==> (MatchesDifficulty(c, f.difficulty) <==> c.difficulty == f.difficulty)
  {
  }

  /** With the initial (or reset) filters the whole catalog is shown, unchanged. */
  lemma ResetShowsAll(cs: seq<Challenge>, now: int)
    ensures FilterChallenges(cs, NoFilters, now) == cs
  {
    forall c | c in cs
      ensures Matches(c, NoFilters, now)
    {
      EmptySearchMatchesAll(c);
    }
    Seqs.FilterKeepsAll(c => Matches(c, NoFilters, now), cs);
  }

  /** The genre column of the catalog, in order. */
  function GenreColumn(cs: seq<Challenge>): seq<string>
  {
    seq(|cs|, i requires 0 <= i < |cs| => cs[i].genre)
  }

  /** The difficulty column of the catalog, in order. */
  function DifficultyColumn(cs: seq<Challenge>): seq<string>
  {
    seq(|cs|, i requires 0 <= i < |cs| => cs[i].difficulty)
  }

  /**
   * `genres`: every genre of the catalog once, in the order of first
   * appearance; the genre select offers these after "all".
   */
  function Genres(cs: seq<Challenge>): (r: seq<string>)
    ensures forall g :: g in r <==> g in GenreColumn(cs)
    ensures forall i :: 0 <= i < |cs| ==> cs[i].genre in r
    ensures forall g :: g in r ==> exists i :: 0 <= i < |cs| && cs[i].genre == g
    ensures forall i, j :: 0 <= i < j < |r| ==> r[i] != r[j]
    ensures forall i, j :: 0 <= i < j < |r| ==>
      Seqs.FirstIndex(GenreColumn(cs), r[i]) < Seqs.FirstIndex(GenreColumn(cs), r[j])
  {
    var col := GenreColumn(cs);
    assert forall i :: 0 <= i < |cs| ==> col[i] == cs[i].genre;
    Seqs.Distinct(col)
  }

  /** `difficulties`: every difficulty of the catalog once, in the order of first appearance. */
  function Difficulties(cs: seq<Challenge>): (r: seq<string>)
    ensures forall d :: d in r <==> d in DifficultyColumn(cs)
    ensures forall i :: 0 <= i < |cs| ==> cs[i].difficulty in r
    ensures forall d :: d in r ==> exists i :: 0 <= i < |cs| && cs[i].difficulty == d
    ensures forall i, j :: 0 <= i < j < |r| ==> r[i] != r[j]
    ensures forall i, j :: 0 <= i < j < |r| ==>
      Seqs.FirstIndex(DifficultyColumn(cs), r[i]) < Seqs.FirstIndex(DifficultyColumn(cs), r[j])
  {
    var col := DifficultyColumn(cs);
    assert forall i :: 0 <= i < |cs| ==> col[i] == cs[i].difficulty;
    Seqs.Distinct(col)
  }

  /** The catalog renders each entry as a card given no `progress` and no `isJoined`. */
  function AsCard(c: Challenge): Card.CardProps
  {
    Card.CardProps(c.id, c.title, c.book, c.author, c.startDate, c.endDate,
                   c.participants, c.maxParticipants, None, None)
  }

  /**
   * The card's badge and the catalog's status agree at every instant other
   * than the end instant itself: there the status filter still calls the
   * challenge active while its card already reads "완료".
   */
  lemma CardBadgeAgreesWithStatus(c: Challenge, now: int)
    ensures now != c.endDate ==>
      (Card.StatusLabel(AsCard(c), now) == Card.ActiveLabel <==> GetStatus(now, c.startDate, c.endDate) == Active)
    ensures Card.StatusLabel(AsCard(c), now) == Card.UpcomingLabel <==> GetStatus(now, c.startDate, c.endDate) == Upcoming
    ensures c.startDate <= now == c.endDate ==>
      GetStatus(now, c.startDate, c.endDate) == Active && Card.StatusLabel(AsCard(c), now) == Card.DoneLabel
  {
  }

  /** The catalog page's filter fields, each replaced wholesale by its setter. */
  class CatalogFilters {
    var searchTerm: string
    var genreFilter: string
    var difficultyFilter: string
    var statusFilter: string

    /** The four fields as one value. */
    function Current(): Filters
      reads this
    {
      Filters(searchTerm, genreFilter, difficultyFilter, statusFilter)
    }

    /** The page opens with an empty search and every select on "all". */
    constructor ()
      ensures Current() == NoFilters
    {
      searchTerm, genreFilter, difficultyFilter, statusFilter := "", "all", "all", "all";
    }

    method SetSearchTerm(term: string)
      modifies this
      ensures Current() == old(Current()).(searchTerm := term)
    {
      searchTerm := term;
    }

    method SetGenreFilter(genre: string)
      modifies this
      ensures Current() == old(Current()).(genre := genre)
    {
      genreFilter := genre;
    }

    method SetDifficultyFilter(difficulty: string)
      modifies this
      ensures Current() == old(Current()).(difficulty := difficulty)
    {
      difficultyFilter := difficulty;
    }

    method SetStatusFilter(status: string)
      modifies this
      ensures Current() == old(Current()).(status := status)
    {
      statusFilter := status;
    }

    /** The × on the search badge: clears the term, nothing else. */
    method ClearSearch()
      modifies this
      ensures Current() == old(Current()).(searchTerm := "")
    {
      searchTerm := "";
    }

    /** The × on the genre badge: genre back to "all", nothing else. */
    method ClearGenre()
      modifies this
      ensures Current() == old(Current()).(genre := "all")
    {
      genreFilter := "all";
    }

    /** The × on the difficulty badge: difficulty back to "all", nothing else. */
    method ClearDifficulty()
      modifies this
      ensures Current() == old(Current()).(difficulty := "all")
    {
      difficultyFilter := "all";
    }

    /** The × on the status badge: status back to "all", nothing else. */
    method ClearStatus()
      modifies this
      ensures Current() == old(Current()).(status := "all")
    {
      statusFilter := "all";
    }

    /** "필터 초기화": all four filters back to their initial values, so every challenge shows. */
    method ResetAll(cs: seq<Challenge>, now: int)
      modifies this
      ensures Current() == NoFilters
      ensures FilterChallenges(cs, Current(), now) == cs
    {
      searchTerm := "";
      genreFilter := "all";
      difficultyFilter := "all";
      statusFilter := "all";
      ResetShowsAll(cs, now);
    }
  }
}
