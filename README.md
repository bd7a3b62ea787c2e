# bookworm-unite-spark: a verified model of the page logic

bookworm-unite-spark is a React front end for group reading challenges, working over
in-memory mock data. Most of it is markup. This project models the small pieces of
logic behind that markup, and proves what they promise:

- the comment thread under the reading-record form: its state, its five handlers and
  `formatTime`;
- the reading-record form: its submit checks, the estimated-progress readout and the
  record-type labels;
- the challenge catalog: status derivation, the four filters, the genre and difficulty
  option lists, and the filter state with its clear and reset handlers;
- the challenge card: its status badge, its join button and its progress bar;
- the detail page: progress colour bands, the average progress, the day count and the
  join toggle;
- the validators of the creation form, the login and signup forms and the invite-code box;
- the home page's three tabs, including the "ending soon" filter.

Instants are integer milliseconds. `Date.now()`, `new Date()`, the ids they produce and
the random invite code are parameters. A toast followed by a navigation becomes an
`Outcome`: `Error(message)` carries a destructive toast's title and `Navigate(path)` the
route. The JavaScript built-ins the pages rely on are written out in `Text`, `Seqs` and
`JsMath`:

- `trim` strips the ECMAScript white-space set;
- `includes` is substring search;
- `parseInt` skips leading white space, takes one sign, honours a `0x` prefix and reads
  the longest run of digits;
- NaN is `None`, and every comparison with it is false;
- `Math.round` and `Math.ceil` act on exact quotients.

Stateful components are classes whose methods state the whole new state:
`CommentThread.Thread`, `Challenges.CatalogFilters` and `ChallengeDetail.DetailView`.
Each list rebuild is a function, and the lemmas state what that function keeps and
what it changes.

Modules: `Ui` (shared values), `Text`, `Seqs`, `JsMath`, `Dates` (day counts), and one
module per page or component: `CommentThread`, `ChallengeRecord`, `Challenges`,
`ChallengeCard`, `ChallengeDetail`, `CreateChallenge`, `Login`, `Home`.

A few behaviours of the code are worth stating outright:

- `handleAddReply` uses the comment id it is given. It does not consult `replyTo`, the
  comment whose reply box is open.
- Page numbers that do not parse pass both page checks of the record form: `parseInt`
  gives NaN and every comparison with NaN is false. Only the progress readout turns NaN
  into 0, with `|| 0`.
- The average progress of an empty participant list is NaN, a division by zero. The
  model gives `None` for it.

## Model

| member | source | states |
|---|---|---|
| Text.Trim | src/pages/Home.tsx:53 | the trimmed string is empty exactly when the input is all white space, and otherwise starts and ends with a non-white-space character |
| Text.ContainsEmpty | src/pages/Challenges.tsx:113-115 | the empty search term occurs in every string |
| Text.ToLowerIdempotent | src/pages/Challenges.tsx:113-115 | lower-casing twice is lower-casing once |
| Text.ToLower | src/pages/Challenges.tsx:113-115 | `toLowerCase` keeps the length, turns each ASCII capital into its own small letter, and changes no other character |
| Text.Contains | src/pages/Challenges.tsx:113-115 | `includes` holds exactly when the term occurs at some index |
| Text.ParseInt | src/pages/ChallengeRecord.tsx:55-56 | `parseInt` without a radix; specified by ParseIntNoDigits (NaN without digits), ParseIntOfDecimal (a leading digit run gives its value) and ParseIntOfRendered (a rendered count reads back) |
| Text.ParseIntOfDecimal | src/pages/ChallengeRecord.tsx:55-56 | a string starting with a run of decimal digits, not read as a `0x` prefix, parses to the value of that run |
| Text.NatToString | src/pages/ChallengeRecord.tsx:410-411 | a count inside a template literal is a non-empty digit string with no leading zero |
| Text.DigitsValueOfNatToString | src/pages/ChallengeRecord.tsx:410-411 | reading the rendered digits gives the number back |
| Text.ParseIntNoDigits | src/pages/ChallengeRecord.tsx:55-56 | `parseInt` of a string that starts with neither white space, a sign nor a digit is NaN |
| Text.ParseIntOfRendered | src/pages/ChallengeRecord.tsx:410-411 | `parseInt` of a rendered count followed by a unit gives the count |
| Seqs.Filter | src/pages/Challenges.tsx:112 | `filter` keeps exactly the passing elements, in order, and never lengthens the list |
| Seqs.FilterCounts | src/pages/Challenges.tsx:112 | `filter` keeps each passing value as many times as it occurs and drops every other value |
| Seqs.FilterKeepsAll | src/pages/Challenges.tsx:285-290 | filtering with a predicate that every element passes returns the list unchanged |
| Seqs.FilterAppend | src/pages/ChallengeRecord.tsx:395 | filtering a list with one element appended is filtering the prefix, then that element if it passes |
| Seqs.Distinct | src/pages/Challenges.tsx:129-130 | `[...new Set(xs)]` holds every value of xs once, in first-occurrence order |
| JsMath.RoundDiv | src/pages/ChallengeDetail.tsx:174 | `Math.round(n / d)` is within half a unit of n / d, with halves rounded up |
| JsMath.RoundDivUnique | src/pages/ChallengeDetail.tsx:174 | no other integer is within half a unit of n / d |
| JsMath.CeilDiv | src/components/ChallengeCard.tsx:36 | `Math.ceil(n / d)` is the least integer not below n / d |
| Dates.DaysLeft | src/pages/ChallengeDetail.tsx:81 | the day count is the number of started days until the end |
| Dates.DaysLeftPositive | src/components/ChallengeCard.tsx:37 | at least one day is left exactly while the end is in the future |
| Dates.DaysLeftAtMost | src/pages/Home.tsx:137-138 | at most k days are left exactly when the end is at most k days away |
| ChallengeCard.IsActive | src/components/ChallengeCard.tsx:37 | active exactly when started and the end is still ahead |
| ChallengeCard.IsUpcoming | src/components/ChallengeCard.tsx:38 | an upcoming card is never active |
| ChallengeCard.StatusLabel | src/components/ChallengeCard.tsx:44-45 | exactly one of "진행중", "시작 예정" and "완료", by where now falls against the two dates |
| ChallengeCard.JoinButtonState | src/components/ChallengeCard.tsx:94-103 | the button shows exactly when not joined and there is room, and it is disabled exactly when the card reads "완료" |
| ChallengeCard.ProgressBar | src/components/ChallengeCard.tsx:72-80 | the bar shows only when `isJoined` is true, with the given progress or 0 |
| ChallengeCard.DefaultProps | src/components/ChallengeCard.tsx:31-32 | without `progress` and `isJoined` there is no bar, and the join button depends on capacity alone |
| Challenges.GetStatus | src/pages/Challenges.tsx:102-110 | exactly one status for every instant; both boundary instants count as active |
| Challenges.Matches | src/pages/Challenges.tsx:113-126 | the predicate of the filter, the conjunction of the four tests; specified by SelectSemantics, EmptySearchMatchesAll and SearchIgnoresTermCase |
| Challenges.FilterChallenges | src/pages/Challenges.tsx:112-127 | the result is an order-preserving subsequence that holds exactly the challenges passing all four filters |
| Challenges.EmptySearchMatchesAll | src/pages/Challenges.tsx:113-115 | an empty search term matches every challenge |
| Challenges.SearchIgnoresTermCase | src/pages/Challenges.tsx:113-115 | the search does not depend on the case of the term |
| Challenges.SelectSemantics | src/pages/Challenges.tsx:117-124 | what each select value keeps; "all" keeps everything and an unknown status keeps nothing |
| Challenges.ResetShowsAll | src/pages/Challenges.tsx:285-290 | with the initial filters the whole catalog shows, unchanged |
| Challenges.Genres | src/pages/Challenges.tsx:129 | every genre of the catalog, once each, in first-occurrence order |
| Challenges.Difficulties | src/pages/Challenges.tsx:130 | every difficulty of the catalog, once each, in first-occurrence order |
| Challenges.CardBadgeAgreesWithStatus | src/pages/Challenges.tsx:107-109 | the card badge and the catalog status agree except at the end instant, where the status is active and the badge reads "완료" |
| Challenges.CatalogFilters.constructor | src/pages/Challenges.tsx:88-91 | the page opens with an empty search and every select on "all" |
| Challenges.CatalogFilters.SetSearchTerm | src/pages/Challenges.tsx:149 | typing replaces the search term and nothing else |
| Challenges.CatalogFilters.SetStatusFilter | src/pages/Challenges.tsx:153 | the status select replaces its own field only |
| Challenges.CatalogFilters.SetGenreFilter | src/pages/Challenges.tsx:165 | the genre select replaces its own field only |
| Challenges.CatalogFilters.SetDifficultyFilter | src/pages/Challenges.tsx:177 | the difficulty select replaces its own field only |
| Challenges.CatalogFilters.ClearSearch | src/pages/Challenges.tsx:202 | the search badge's × clears the term and nothing else |
| Challenges.CatalogFilters.ClearGenre | src/pages/Challenges.tsx:213 | the genre badge's × sets the genre to "all" and nothing else |
| Challenges.CatalogFilters.ClearDifficulty | src/pages/Challenges.tsx:224 | the difficulty badge's × sets the difficulty to "all" and nothing else |
| Challenges.CatalogFilters.ClearStatus | src/pages/Challenges.tsx:235 | the status badge's × sets the status to "all" and nothing else |
| Challenges.CatalogFilters.ResetAll | src/pages/Challenges.tsx:285-290 | reset restores the initial filters, after which the result is the full list |
| CommentThread.WithReply | src/pages/ChallengeRecord.tsx:366-381 | the `map` that appends a reply; specified by AddReplyOnlyAddressed and AddReplyCount |
| CommentThread.WithoutComment | src/pages/ChallengeRecord.tsx:395 | the `filter` that drops a comment; specified by DeleteCommentExact, DeleteMissingComment and AddThenDeleteComment |
| CommentThread.WithoutReply | src/pages/ChallengeRecord.tsx:399-403 | the `map` and `filter` that drop a reply; specified by DeleteReplyOnlyAddressed and AddThenDeleteReply |
| CommentThread.AddReplyOnlyAddressed | src/pages/ChallengeRecord.tsx:365-382 | adding a reply keeps the length and order of the list; only comments with the addressed id change, and only by gaining the reply at the end |
| CommentThread.AddReplyCount | src/pages/ChallengeRecord.tsx:365-382 | the thread gains one reply per comment carrying the addressed id |
| CommentThread.DeleteCommentExact | src/pages/ChallengeRecord.tsx:394-396 | deletion removes exactly the comments with that id, keeps every other comment in order and with its multiplicity, and makes no author check |
| CommentThread.DeleteMissingComment | src/pages/ChallengeRecord.tsx:394-396 | deleting an id that no comment carries changes nothing |
| CommentThread.AddThenDeleteComment | src/pages/ChallengeRecord.tsx:394-396 | deleting a comment just added under a fresh id restores the list |
| CommentThread.DeleteReplyOnlyAddressed | src/pages/ChallengeRecord.tsx:397-404 | deleting a reply changes only the replies of the addressed comments, and removes exactly the replies with that id, keeping every other reply as many times as it occurred, in order |
| CommentThread.RepliesWithoutCounts | src/pages/ChallengeRecord.tsx:401 | the reply `filter` keeps each reply with another id as many times as it occurs and drops every reply with that id |
| CommentThread.AddThenDeleteReply | src/pages/ChallengeRecord.tsx:397-404 | deleting a reply just added under a fresh id restores the thread |
| CommentThread.RelativeTime | src/pages/ChallengeRecord.tsx:407-413 | the four time ranges; minutes run from 1 to 59 and hours from 1 to 23, each the whole units elapsed |
| CommentThread.RelativeTimeSamples | src/pages/ChallengeRecord.tsx:409-411 | 45 seconds ago is "just now"; 90 minutes ago is one hour ago |
| CommentThread.FormatTime | src/pages/ChallengeRecord.tsx:407-413 | the text reads back as the minute or hour count followed by its unit, or is the locale date |
| CommentThread.Thread.constructor | src/pages/ChallengeRecord.tsx:320-345 | the thread opens with its comments, empty inputs and no reply box |
| CommentThread.Thread.SetNewComment | src/pages/ChallengeRecord.tsx:511 | typing changes the comment input only |
| CommentThread.Thread.OpenReply | src/pages/ChallengeRecord.tsx:499 | "답글" opens the reply box under that comment and changes nothing else |
| CommentThread.Thread.CancelReply | src/pages/ChallengeRecord.tsx:489 | cancel closes the reply box and keeps the typed reply |
| CommentThread.Thread.SetReplyContent | src/pages/ChallengeRecord.tsx:479 | typing changes the reply input only |
| CommentThread.Thread.AddComment | src/pages/ChallengeRecord.tsx:348-361 | blank input changes nothing; otherwise one comment by "나" with the untrimmed text and no replies is appended, and the input is cleared |
| CommentThread.Thread.AddReply | src/pages/ChallengeRecord.tsx:363-385 | a blank reply changes nothing, not even the open box; otherwise the reply is added under the addressed comments, the box is closed and the input is cleared |
| CommentThread.Thread.DeleteComment | src/pages/ChallengeRecord.tsx:394-396 | only the comment list changes, by the deletion filter |
| CommentThread.Thread.DeleteReply | src/pages/ChallengeRecord.tsx:397-404 | only the comment list changes, by the reply deletion |
| CommentThread.Thread.Report | src/pages/ChallengeRecord.tsx:387-392 | reporting produces the notification that names the user and changes nothing |
| ChallengeRecord.Submit | src/pages/ChallengeRecord.tsx:44-81 | the three checks in order, each error exactly when the earlier checks pass and its own fails (NaN comparisons false); otherwise back to the challenge |
| ChallengeRecord.AcceptedPageRanges | src/pages/ChallengeRecord.tsx:58-72 | for parsed pages s and e, the record is saved exactly when s <= e <= 200 |
| ChallengeRecord.UnparsablePagesAccepted | src/pages/ChallengeRecord.tsx:55-72 | in the handler, pages that do not parse pass both page checks |
| ChallengeRecord.LettersAndBlankContentAccepted | src/pages/ChallengeRecord.tsx:47-80 | the handler saves a form with letters as pages and white space as content |
| ChallengeRecord.SampleStartAfterEnd | src/pages/ChallengeRecord.tsx:58-64 | the handler answers pages 130 to 120 with the ordering error |
| ChallengeRecord.SampleEndBeyondBook | src/pages/ChallengeRecord.tsx:66-72 | the handler answers pages 10 to 250 with the range error |
| ChallengeRecord.SampleValidRange | src/pages/ChallengeRecord.tsx:74-80 | the handler saves pages 10 to 50 |
| ChallengeRecord.ProgressReadout | src/pages/ChallengeRecord.tsx:259-270 | hidden exactly while the end page is empty; otherwise the parsed page (or 0) and its rounded percentage of 200 pages |
| ChallengeRecord.ReadoutWithinBook | src/pages/ChallengeRecord.tsx:263-270 | a page within the book reads between 0 and 100 per cent, and page 200 reads 100 |
| ChallengeRecord.RecordTypeLabel | src/pages/ChallengeRecord.tsx:83-96 | one of the four labels; an unknown type reads as "나의 생각" |
| ChallengeRecord.RecordTypeDescription | src/pages/ChallengeRecord.tsx:98-111 | one of the four hints; an unknown type gets the "thought" hint |
| ChallengeRecord.RecordTypesDistinguishable | src/pages/ChallengeRecord.tsx:83-111 | the four types have four different labels and four different hints |
| ChallengeDetail.ProgressColor | src/pages/ChallengeDetail.tsx:74-79 | the four bands split at 80, 60 and 40, each value in exactly one |
| ChallengeDetail.ProgressColorMonotone | src/pages/ChallengeDetail.tsx:74-79 | more progress never gives a lower band |
| ChallengeDetail.AverageProgress | src/pages/ChallengeDetail.tsx:174 | NaN exactly for an empty list; otherwise the integer nearest the mean |
| ChallengeDetail.ProgressSum | src/pages/ChallengeDetail.tsx:174 | the `reduce` that sums progress; specified by ProgressSumBounds and SampleAverage |
| ChallengeDetail.ProgressSumBounds | src/pages/ChallengeDetail.tsx:174 | the sum of n values in [lo, hi] lies in [n * lo, n * hi] |
| ChallengeDetail.AverageWithinRange | src/pages/ChallengeDetail.tsx:174 | the average lies between the lowest and highest progress |
| ChallengeDetail.SampleAverage | src/pages/ChallengeDetail.tsx:26-35 | the eight sample participants average 62.5, shown as 63 |
| ChallengeDetail.DetailView.constructor | src/pages/ChallengeDetail.tsx:67 | the page starts as joined |
| ChallengeDetail.DetailView.JoinChallenge | src/pages/ChallengeDetail.tsx:69-72 | afterwards the user has joined, whatever the state before, so a second call changes nothing |
| ChallengeDetail.DetailView.PrimaryAction | src/pages/ChallengeDetail.tsx:124-132 | the join button shows exactly when not joined; otherwise the button leads to the record form |
| CreateChallenge.Submit | src/pages/CreateChallenge.tsx:32-60 | a missing field fails first, then an end not after the start; otherwise the new challenge's page opens |
| CreateChallenge.SubmitIgnoresOptionalFields | src/pages/CreateChallenge.tsx:35-49 | description, capacity, rules and penalty never change the outcome |
| CreateChallenge.StartDayDisabled | src/pages/CreateChallenge.tsx:138 | a start day is selectable exactly when it is not before now |
| CreateChallenge.EndDayDisabled | src/pages/CreateChallenge.tsx:166 | an end day is selectable exactly when it is not before now and is after a picked start |
| CreateChallenge.PickedEndPassesOrderCheck | src/pages/CreateChallenge.tsx:166 | an end day allowed after picking the start always passes the order check |
| CreateChallenge.EndPickedFirstCanFail | src/pages/CreateChallenge.tsx:43-49 | if the end is picked first, a later start passes both pickers and fails the order check |
| Login.HandleLogin | src/pages/Login.tsx:22-40 | login fails exactly when the email or the password is empty; otherwise the dashboard opens |
| Login.HandleSignup | src/pages/Login.tsx:42-68 | "fill all fields" exactly when name, email or password is empty; then a mismatch exactly when the confirmation differs; otherwise the dashboard opens |
| Login.BlankCredentialsLogIn | src/pages/Login.tsx:25 | the handler trims nothing, so it logs in white-space credentials |
| Login.EmptyConfirmationIsMismatch | src/pages/Login.tsx:53-59 | an empty confirmation is reported as a mismatch |
| Home.JoinWithCode | src/pages/Home.tsx:52-63 | refused exactly when the code is blank; otherwise the challenge page of the code as typed opens |
| Home.PaddedCodeKeptAsTyped | src/pages/Home.tsx:62 | surrounding spaces stay in the path |
| Home.EndingSoon | src/pages/Home.tsx:136-139 | in order and with their multiplicities, exactly the challenges whose end is ahead and at most seven days away |
| Home.TabContents | src/pages/Home.tsx:108-148 | "popular" and "recent" show the whole list unchanged; every tab shows a subsequence |

## Left out

- The browser's own handling of the form inputs. The handlers are modelled as called
  with arbitrary field strings. Input sanitising and native constraint validation are not
  modelled: the `type="email"` fields (src/pages/Login.tsx:93), the `type="number"` page
  fields with `min` and `max` (src/pages/ChallengeRecord.tsx:152-154) and the capacity field
  (src/pages/CreateChallenge.tsx:179-181) can keep a submit from reaching its handler, or
  hand it a trimmed or emptied value.
- Separate clock reads within one render. One render is taken to read the clock once, as
  `now`. The card reads `new Date()` on each of three lines (src/components/ChallengeCard.tsx:36-38),
  and the catalog and the home tab read it once per list element. A tick between the
  card's reads at the start instant is not modelled.
- Markup, CSS classes and layout. Only the decision values are modelled: labels, class names and flags.
- Success toasts. Only their effect, the navigation, is modelled.
- Date parsing, `toLocaleDateString` and the date-fns format of the chosen dates. Instants are
  integers, and the locale date of `formatTime` is a parameter.
- The ids made by `Date.now()`. They are parameters, and nothing makes them unique. The
  round-trip lemmas assume a fresh id.
- The invite code made by `Math.random` in the creation form. It is a parameter.
- The clipboard copy of the invite code. It is foreign I/O.
- The catalog's and the home page's `handleJoinChallenge`. They only show a toast.
- The dashboard page and the header. They show constants and navigation buttons only.
- The mock data. The lemmas use it only as sample inputs.
- The record form's placeholder text and public/private hint. They are fixed strings chosen by the form fields.
- The detail page's fixed "진행중" badge and its "D-" prefix. `Dates.DaysLeft` models the number.
- JsMath.RoundDiv: rounds exact quotients. Floating-point error near a half is not modelled.
- ChallengeRecord.ProgressReadout: the percentage is rounded from the exact quotient. The page
  computes `(p / 200) * 100` in doubles, which falls just under the half for end pages 29, 57,
  113 and 115; the page then shows 14, 28, 56 and 57%, where the model gives 15, 29, 57 and 58%.
- Text.ParseInt: reads exact integers. Precision loss on digit strings longer than a double holds is not modelled.
- Text.ToLower: lower-cases ASCII letters only. Other Unicode case mappings are not modelled; the Korean text has no case.
- ChallengeDetail.AverageProgress: participant progress values are integers, as in the mock data. Fractional values are not modelled.
- The creation form's capacity field is `parseInt` of the input. It is never validated, so the model keeps it without constraints.
