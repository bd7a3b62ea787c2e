/**
 * The reading-record form (`ChallengeRecord`): the submit handler's three
 * fail-fast checks, the estimated-progress readout, and the labels of the
 * four record types. The comment thread below the form is in CommentThread.
 */
module ChallengeRecord {
  import opened Ui
  import Text
  import JsMath

  /** `mockChallenge.totalPages`, the page count of the book being read. */
  const TotalPages := 200

  /** The form's fields; the page inputs hold raw strings. */
  datatype RecordForm = RecordForm(startPage: string, endPage: string, content: string, kind: string, isPublic: bool)

  const FillAllFields := "모든 필드를 입력해주세요"
  const PageOrderError := "시작 페이지는 끝 페이지보다 작아야 합니다"
  /** The range error names TotalPages, 200. */
  const PageRangeError := "페이지 번호는 200페이지를 초과할 수 없습니다"

  /** `a > b` on two `parseInt` results: false whenever either side is NaN. */
  predicate Exceeds(a: Option<int>, b: Option<int>)
  {
    a.Some? && b.Some? && a.value > b.value
  }

  /** All three inputs are non-empty strings (white space counts as content). */
  predicate Filled(form: RecordForm)
  {
    form.startPage != "" && form.endPage != "" && form.content != ""
  }

  /**
   * `handleSubmit`: an empty field fails first; then a start page beyond the
   * end page; then an end page beyond the book. Anything else navigates back
   * to the challenge. A page that does not parse makes both comparisons
   * false and so passes.
   */
  function Submit(form: RecordForm, id: string): (r: Outcome)
    ensures r == Error(FillAllFields) <==> !Filled(form)
    ensures r == Error(PageOrderError) <==>
      Filled(form) && Exceeds(Text.ParseInt(form.startPage), Text.ParseInt(form.endPage))
    ensures r == Error(PageRangeError) <==>
      && Filled(form)
      && !Exceeds(Text.ParseInt(form.startPage), Text.ParseInt(form.endPage))
      && Exceeds(Text.ParseInt(form.endPage), Some(TotalPages))
    ensures r.Navigate? <==>
      && Filled(form)
      && !Exceeds(Text.ParseInt(form.startPage), Text.ParseInt(form.endPage))
      && !Exceeds(Text.ParseInt(form.endPage), Some(TotalPages))
    ensures r.Navigate? ==> r.path == ChallengePath(id)
  {
    if !Filled(form) then
      Error(FillAllFields)
    else
      var startPage := Text.ParseInt(form.startPage);
      var endPage := Text.ParseInt(form.endPage);
      if Exceeds(startPage, endPage) then Error(PageOrderError)
      else if Exceeds(endPage, Some(TotalPages)) then Error(PageRangeError)
      else Navigate(ChallengePath(id))
  }

  /**
   * For pages that parse to s and e, the record is saved exactly when
   * s <= e <= 200: equal pages pass, the last page of the book passes, and
   * nothing bounds the start page from below.
   */
  lemma AcceptedPageRanges(form: RecordForm, id: string, s: int, e: int)
    requires Filled(form)
    requires Text.ParseInt(form.startPage) == Some(s) && Text.ParseInt(form.endPage) == Some(e)
    ensures Submit(form, id).Navigate? <==> s <= e <= TotalPages
    ensures s > e ==> Submit(form, id) == Error(PageOrderError)
    ensures s <= e && e > TotalPages ==> Submit(form, id) == Error(PageRangeError)
  {
  }

  /**
   * Pages that do not parse are saved: with no digits in either page field
   * and any non-empty content, even white space only, the form navigates.
   */
  lemma UnparsablePagesAccepted(form: RecordForm, id: string)
    requires Filled(form)
    requires Text.ParseInt(form.startPage).None? && Text.ParseInt(form.endPage).None?
    ensures Submit(form, id) == Navigate(ChallengePath(id))
  {
  }

  /** Concrete forms: letters for pages, and a blank text, still save. */
  lemma LettersAndBlankContentAccepted(id: string)
    ensures Submit(RecordForm("abc", "xyz", "   ", "thought", true), id) == Navigate(ChallengePath(id))
  {
    Text.ParseIntNoDigits("abc");
    Text.ParseIntNoDigits("xyz");
  }

  /** A page typed as the decimal rendering of n is read by `parseInt` as n. */
  lemma PageParses(page: string, n: nat)
    requires page == Text.NatToString(n)
    ensures Text.ParseInt(page) == Some(n)
  {
    Text.ParseIntOfRendered(n, []);
    assert page + [] == page;
  }

  /** A start page beyond the end page is refused with the ordering error. */
  lemma SampleStartAfterEnd(id: string)
    ensures Submit(RecordForm("130", "120", "x", "thought", true), id) == Error(PageOrderError)
  {
    assert Text.NatToString(130) == "130" && Text.NatToString(120) == "120";
    PageParses("130", 130);
    PageParses("120", 120);
  }

  /** An end page beyond the 200-page book is refused with the range error. */
  lemma SampleEndBeyondBook(id: string)
    ensures Submit(RecordForm("10", "250", "x", "thought", true), id) == Error(PageRangeError)
  {
    assert Text.NatToString(10) == "10" && Text.NatToString(250) == "250";
    PageParses("10", 10);
    PageParses("250", 250);
  }

  /** Pages 10 to 50 of the 200-page book are saved. */
  lemma SampleValidRange(id: string)
    ensures Submit(RecordForm("10", "50", "ok", "thought", true), id) == Navigate(ChallengePath(id))
  {
    assert Text.NatToString(10) == "10" && Text.NatToString(50) == "50";
    PageParses("10", 10);
    PageParses("50", 50);
  }

  /** The "예상 진행률" box: the page it counts and the rounded percentage of the book. */
  datatype Readout = Readout(pages: int, percent: int)

  /**
   * The readout is hidden while the end page is empty; otherwise it shows
   * the parsed end page (0 when it does not parse) and the percentage of
   * the book that page reaches, rounded to the nearest integer.
   */
  function ProgressReadout(endPage: string): (r: Option<Readout>)
    ensures r.None? <==> endPage == ""
    ensures r.Some? && Text.ParseInt(endPage).None? ==> r.value.pages == 0
    ensures r.Some? && Text.ParseInt(endPage).Some? ==> r.value.pages == Text.ParseInt(endPage).value
    ensures r.Some? ==>
      2 * r.value.percent * TotalPages - TotalPages <= 2 * 100 * r.value.pages < 2 * r.value.percent * TotalPages + TotalPages
  {
    if endPage == "" then
      None
    else
      var pages := match Text.ParseInt(endPage) case Some(v) => v case None => 0;
      Some(Readout(pages, JsMath.RoundDiv(pages * 100, TotalPages)))
  }

  /** A page within the book reads as a percentage between 0 and 100, and the last page as 100. */
  lemma ReadoutWithinBook(endPage: string)
    requires endPage != ""
    requires var p := Text.ParseInt(endPage); p.None? || 0 <= p.value <= TotalPages
    ensures 0 <= ProgressReadout(endPage).value.percent <= 100
    ensures Text.ParseInt(endPage) == Some(TotalPages) ==> ProgressReadout(endPage).value.percent == 100
  {
  }

  const QuoteLabel := "인상 깊은 문장"
  const ThoughtLabel := "나의 생각"
  const QuestionLabel := "궁금한 점"
  const SummaryLabel := "내용 정리"

  /** `getRecordTypeLabel`: one of four labels; an unknown type reads as "thought". */
  function RecordTypeLabel(kind: string): (text: string)
    ensures text in {QuoteLabel, ThoughtLabel, QuestionLabel, SummaryLabel}
    ensures kind !in {"quote", "question", "summary"} ==> text == ThoughtLabel
  {
    match kind
    case "quote" => QuoteLabel
    case "thought" => ThoughtLabel
    case "question" => QuestionLabel
    case "summary" => SummaryLabel
    case _ => ThoughtLabel
  }

  const QuoteHint := "책에서 인상 깊었던 문장이나 구절을 공유해보세요"
  const ThoughtHint := "읽으면서 든 생각이나 감상을 자유롭게 적어보세요"
  const QuestionHint := "읽으면서 궁금했던 점이나 토론하고 싶은 내용을 적어보세요"
  const SummaryHint := "읽은 내용을 간단히 정리해보세요"

  /** `getRecordTypeDescription`: the hint under the select; an unknown type gets the "thought" hint. */
  function RecordTypeDescription(kind: string): (text: string)
    ensures text in {QuoteHint, ThoughtHint, QuestionHint, SummaryHint}
    ensures kind !in {"quote", "question", "summary"} ==> text == ThoughtHint
  {
    match kind
    case "quote" => QuoteHint
    case "thought" => ThoughtHint
    case "question" => QuestionHint
    case "summary" => SummaryHint
    case _ => ThoughtHint
  }

  /** The four selectable types get four different labels and four different hints. */
  lemma RecordTypesDistinguishable(a: string, b: string)
    requires a in {"quote", "thought", "question", "summary"} && b in {"quote", "thought", "question", "summary"}
    requires a != b
    ensures RecordTypeLabel(a) != RecordTypeLabel(b)
    ensures RecordTypeDescription(a) != RecordTypeDescription(b)
  {
  }
}
