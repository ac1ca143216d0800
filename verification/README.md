# Sundance ticket bot — a Dafny model of its bookkeeping

The backend scrapes the Sundance festival site with a browser. It keeps what it sees in a small JSON key-value store. It serves queries over that store, and it can reserve and buy tickets for one screening. This project models the logic around the browser; the browser itself is not modelled. What a page shows becomes an input: a scanned listing of rows, the count a quantity widget displays, the text of an error message. The model covers:

- **Search combinator** (`Search`): `filterBySearchStrings`. Needles starting with `~` are fuzzy: trimmed, lower-cased and matched as substrings. Every other needle is exact: trimmed and matched by equality. An optional `or` test is applied to the raw needles. `FilterBySearchStrings` is a method whose loop fills the needle sets; it is proved equal to the specification function `Filter`.
- **Operation lock** (`OpLock`): `startOp`/`endOp` as a class `SharedState`. It holds the counter `inOp` and a FIFO queue of waiting callers, each represented by a ticket. Pure step functions and a `Run` over event sequences carry the FIFO and discipline lemmas.
- **Typed store** (`Store`): class `Db` over a map from keys to stored values. It has fixed keys (`program`, `screenings`, `currentScreeningId`, `scannedScreenings`) and per-id keys (`basicInfo-<id>`, `moreInfo-<id>`).
- **Catalogue reconciliation** (`Reconcile`):
  - `refreshProgram`: its scan loop, its vanished-screening loop and the newly-available notice.
  - The relocation of one screening at the start of `refreshScreeningInfo`.
- **Reservation** (`Reservation`): the detail-record updates of `refreshScreeningInfo`. That is the sold-out flag, the "tickets remaining" parse, the quantity stepper, the 20-attempt retry, the price ceiling and the purchased-count update. `DetailsAfter` is the specification of the whole flow, and the method `RefreshDetails` is proved against it.
- **Queries** (`Queries`):
  - `getScreenings`: nine filter stages and an in-place sort by start time.
  - `pruneFilmInfo`'s verbosity ladder.
  - The `getFilms` and `getCategories` pipelines of the controller.
- **Direct messages** (`Twitter`): the chunking loop of `sendMyselfTweet` against the 280-character limit. Sending is an append to an outbox.
- **Small helpers** (`Screening`): `removeParenthesis`, screening ids, city and type classification, and the three URL id parsers.
- **Legacy scan script** (`Legacy`): `backend/src/index.ts`. That is its CSV row decoding, the resume index, the skip filters, the scan loop that moves its index after each selection, and the final sort.
- **Controller** (`Controller`):
  - The lock bracketing of the handlers.
  - The purchase integrity check, and the purchase handler composed from the pieces above.
  - `setRunningMain`.
  - The needle lists the screenings handler builds.

Timestamps are opaque integers. String helpers that JavaScript provides (`trim`, `toLowerCase`, `lastIndexOf`, `indexOf`, `startsWith`, `endsWith`, `includes`) are defined in `JsText`.

Where the code and its description disagree, the model follows the code:

- The screening-type update merges into the stored details record rather than replacing it.
- CSV rows read back by the legacy script lose their screening type, because the column is written as `type` but read as `screeningType`.
- The second id check in `refreshScreeningInfo` (shared.ts:906-919) cannot fail once the first succeeded or `indexOf` found the id, so it is not modelled.

## Model

| member | source | states |
|---|---|---|
| Search.FilterBySearchStrings | backend/src/shared/shared.ts:131-174 | the loop over the needles and the haystack returns exactly `Filter(needles, haystack, getValues, or)` |
| Search.Filter | backend/src/shared/shared.ts:131-174 | the result is an order-preserving subsequence of the haystack, and a record is kept iff `Keeps` holds for it; with no effective needle that is every record |
| Search.CollectNeedleSets | backend/src/shared/shared.ts:141-157 | the pass over the needles builds exactly the exact and the fuzzy needle sets |
| Search.KeepMatching | backend/src/shared/shared.ts:161-173 | the pass over the haystack keeps exactly the records that match, in haystack order |
| Search.FilterOfEffective | backend/src/shared/shared.ts:158-173 | with an effective needle the combinator filters by `Matches` |
| Search.FilterIsWhere | backend/src/shared/shared.ts:158-173 | once the needle sets are built, the combinator is an ordinary filter by one per-record test (`Keeps`) |
| Search.BlankNeedlesKeepHaystack | backend/src/shared/shared.ts:142-160 | if every needle is empty after trimming (a lone `~` included), the haystack comes back unchanged, even with an `or` test |
| Search.NoNeedlesNoChange | backend/src/shared/shared.ts:158-160 | an empty needle list returns the haystack |
| Search.FilterKeepsExactlyMatches | backend/src/shared/shared.ts:161-173 | with an effective needle, the result is an order-preserving subsequence; a record is kept iff a value equals an exact needle, a lower-cased value contains a fuzzy needle, or `or` accepts a raw needle |
| Search.ExactNeedleMembership | backend/src/shared/shared.ts:151-155 | a value is in the exact set iff some non-fuzzy needle trims to it |
| Search.MatchesGrow | backend/src/shared/shared.ts:161-173 | a record matched by some needles is matched by those needles plus more |
| Search.MoreNeedlesKeepMore | backend/src/shared/shared.ts:158-173 | once a needle is effective, adding needles never drops a kept record; the old result is a subsequence of the new one |
| Search.ExactNeedlesGrow | backend/src/shared/shared.ts:145-157 | appending needles only grows both needle sets |
| Search.ExactNeedlesSnoc | backend/src/shared/shared.ts:151-155 | one more needle adds its trimmed text to the exact set exactly when it is non-fuzzy and not blank |
| Search.FuzzyNeedlesSnoc | backend/src/shared/shared.ts:146-150 | one more needle adds its trimmed, lower-cased tail to the fuzzy set exactly when it is fuzzy and the tail is not blank |
| Search.FuzzyMarkerFirst | backend/src/shared/shared.ts:144-146 | a needle is fuzzy iff it starts with `~` |
| Search.ExactNeedlesOfOne | backend/src/shared/shared.ts:151-155 | a single needle gives the exact set holding its trimmed text exactly when it is non-fuzzy and not blank, and the empty set otherwise |
| Search.FuzzyNeedlesOfOne | backend/src/shared/shared.ts:146-150 | a single needle gives the fuzzy set holding its trimmed, lower-cased tail exactly when it is fuzzy and the tail is not blank, and the empty set otherwise |
| Search.PlainNeedleMatchesWholeValues | backend/src/shared/shared.ts:162-166 | a lone exact needle without surrounding blanks matches a value iff the value equals it, so a longer value that starts with it does not match |
| Search.FuzzyNeedleMatchesInside | backend/src/shared/shared.ts:167-168 | a lone fuzzy needle matches a value iff the lower-cased value contains the needle's text |
| Search.FuzzyNeedleIgnoresCase | backend/src/shared/shared.ts:167-168 | a lone fuzzy needle matches a value iff it matches the lower-cased value |
| JsText.Trim | backend/src/shared/shared.ts:152 | the result of `trim()` occurs in the input, neither of its ends is whitespace, and it is empty iff the input is all whitespace |
| JsText.TrimRemovesOnlyWhitespace | backend/src/shared/shared.ts:152 | `trim()` is the input with a whitespace-only head and a whitespace-only tail removed, character for character |
| JsText.TrimUntouched | backend/src/shared/shared.ts:152 | a string with no whitespace at either end is its own trim |
| JsText.ToLower | backend/src/shared/shared.ts:167 | `toLowerCase()` keeps the length, turns each letter A to Z into its lower-case letter and keeps every other character; no upper-case letter is left, and a text without one is unchanged |
| JsText.ToLowerIdempotent | backend/src/shared/shared.ts:167 | lower-casing twice is lower-casing once |
| JsText.LastIndexOf | backend/src/shared/shared.ts:1352 | `lastIndexOf` gives the last occurrence, or -1 when there is none |
| JsText.IndexOf | backend/src/shared/shared.ts:894 | `indexOf` gives the first index holding the value, or -1 |
| OpLock.SharedState.constructor | backend/src/shared/shared.ts:13-19 | the lock starts idle, `runningMain` true, `screeningIndex` -1 |
| OpLock.SharedState.StartOp | backend/src/shared/shared.ts:32-43 | `startOp` always increments `inOp`; it queues the caller exactly when `inOp` was positive |
| OpLock.SharedState.EndOp | backend/src/shared/shared.ts:45-51 | `endOp` decrements `inOp` and resumes the front of the queue, if any |
| OpLock.StartCountsAndQueuesOnlyWhenBusy | backend/src/shared/shared.ts:32-43 | the start step counts the caller and appends its ticket iff the lock was held |
| OpLock.EndUncountsAndReleasesFront | backend/src/shared/shared.ts:45-51 | the end step uncounts one caller and releases exactly the front ticket |
| OpLock.DisciplineMeansMutualExclusion | backend/src/shared/shared.ts:32-51 | when the lock is idle with an empty queue, or `inOp` is the queue length plus one, at most one caller runs, and exactly one while the lock is counted |
| OpLock.StartKeepsDiscipline | backend/src/shared/shared.ts:32-43 | a start keeps the lock disciplined and held |
| OpLock.EndKeepsDiscipline | backend/src/shared/shared.ts:45-51 | an end on a held lock keeps it disciplined, and makes it idle iff one caller was counted |
| OpLock.EndWhenIdleUnderflows | backend/src/shared/shared.ts:45-46 | an `endOp` with no matching `startOp` drives the counter to -1: there is no guard |
| OpLock.RunIsFifo | backend/src/shared/shared.ts:32-51 | over any run, the released tickets followed by those still waiting are the initially waiting ones followed by those queued, in order |
| OpLock.RunKeepsDiscipline | backend/src/shared/shared.ts:32-51 | any run whose ends are matched keeps the lock disciplined |
| Store.KeysInjective | backend/src/shared/db.ts:82-84 | `basicInfo-<id>` and `moreInfo-<id>` are injective in the id |
| Store.KeysDisjoint | backend/src/shared/db.ts:42-107 | per-id keys of the two kinds never collide, nor with any fixed key |
| Store.EmptyStoreDefaults | backend/src/shared/db.ts:44-124 | with nothing stored, every getter gives its default (`[]`, empty set, undefined) |
| Store.BasicInfoWrite | backend/src/shared/db.ts:86-103 | set-then-get returns the whole record; other ids, all more-info records and the fixed keys are untouched |
| Store.MoreInfoWrite | backend/src/shared/db.ts:109-124 | set-then-get returns the whole record; other ids, all basic-info records and the fixed keys are untouched |
| Store.ArrayFrom | backend/src/shared/db.ts:59 | `Array.from(set)` lists each member exactly once |
| Store.Db.constructor | backend/src/shared/db.ts:40 | the store starts empty |
| Store.Db.SetProgram | backend/src/shared/db.ts:44-50 | the program reads back as written, and only its key changes |
| Store.Db.SetScreenings | backend/src/shared/db.ts:54-60 | the set is stored as an array and reads back with the same members; only its key changes |
| Store.Db.SetCurrentScreeningId | backend/src/shared/db.ts:64-70 | the current id reads back as written, undefined included |
| Store.Db.SetScannedScreenings | backend/src/shared/db.ts:74-80 | the scanned list reads back as written |
| Store.Db.SetScreeningBasicInfo | backend/src/shared/db.ts:86-91 | only the id's basic-info key changes, and it holds the whole new record |
| Store.Db.SetScreeningMoreInfo | backend/src/shared/db.ts:109-114 | only the id's more-info key changes, and it holds the whole new record |
| Screening.RemoveParenthesis | backend/src/index.ts:25-31 | exactly one outer pair is stripped iff the text starts with `(` and ends with `)`; otherwise the text is returned |
| Screening.RemoveParenthesisInverse | backend/src/shared/shared.ts:123-129 | stripping the parentheses added around any text gives the text back |
| Screening.RemoveParenthesisOnce | backend/src/shared/shared.ts:123-129 | for any text in two pairs of parentheses, only the outer pair is stripped |
| Screening.RemoveParenthesisYields | backend/src/shared/shared.ts:123-129 | a word not opening with `(` is the result exactly for the word itself and the word in parentheses |
| Screening.ScreeningId | backend/src/shared/shared.ts:246 | the id is the title, ` - `, the date text, ` - `, the time text, ` - ` and the location, each at its position, and nothing else |
| Screening.ScreeningIdNotInjective | backend/src/shared/shared.ts:246 | two different rows can share an id when a cell contains ` - ` |
| Screening.CitiesExclusive | backend/src/shared/shared.ts:243-244 | no location is classified as both Park City and Salt Lake City |
| Screening.ClassifyScreeningType | backend/src/shared/shared.ts:283-286 | the type is the unparenthesised label, or empty; premiere iff it is exactly `Premiere`, second screening iff exactly `Second Screening` |
| Screening.PremiereLabel | backend/src/index.ts:100-103 | a type text classifies as a premiere iff it is `(Premiere)` or `Premiere`, and as a second screening iff it is `(Second Screening)` or `Second Screening` |
| Screening.GetEventIdFromUrl | backend/src/shared/shared.ts:79-101 | an error iff no film or shorts link occurs anywhere; otherwise a non-empty id of letters and digits |
| Screening.GetFilmIdFromUrl | backend/src/shared/shared.ts:103-109 | an error iff no film link occurs; otherwise a non-empty alphanumeric id |
| Screening.GetShortsIdFromUrl | backend/src/shared/shared.ts:111-117 | an error iff no shorts link occurs; otherwise a non-empty alphanumeric id |
| Screening.FilmUrlRoundTrip | backend/src/shared/shared.ts:70-109 | the id is read back from the film URL built from it, by both parsers |
| Screening.ShortsUrlRoundTrip | backend/src/shared/shared.ts:71-117 | the id is read back from the shorts URL built from it, by both parsers |
| Reconcile.Ids | backend/src/shared/shared.ts:828 | one id per row, in listing order; an id is in the program iff some row carries it |
| Reconcile.ScanListing | backend/src/shared/shared.ts:804-823 | the scan loop stores every row's record and reports the rows that were missing or unavailable when scanned |
| Reconcile.NewlyAvailableExactly | backend/src/shared/shared.ts:816-819 | row `k` is reported iff its stored record, after the earlier rows were written, was missing or unavailable |
| Reconcile.NewlyAvailableLast | backend/src/shared/shared.ts:816-819 | the last row of a scan is reported iff its id is new to the scan and its stored record was missing or unavailable |
| Reconcile.NewlyAvailableTitleMembership | backend/src/shared/shared.ts:823 | a title is announced iff some newly available row has it |
| Reconcile.DedupeKeepsFirstOccurrenceOrder | backend/src/shared/shared.ts:823 | announced titles appear once each, in order of first report |
| Reconcile.LastRecordAvailable | backend/src/shared/shared.ts:810-820 | a rescanned record is stored without `isUnavailable` |
| Reconcile.MarkVanishedScreenings | backend/src/shared/shared.ts:834-844 | the loop marks exactly the vanished records unavailable and changes nothing else |
| Reconcile.MarkVanishedBasicInfo | backend/src/shared/shared.ts:835-842 | a seen id outside the program whose stored record is available gets `isUnavailable`, all other fields kept; records that do not exist are not written |
| Reconcile.MarkVanished | backend/src/shared/shared.ts:834-844 | the marking writes no new key and changes no key but the basic-info records of vanished screenings |
| Reconcile.MarkVanishedFrame | backend/src/shared/shared.ts:834-844 | keys other than basic-info records are kept as they are |
| Reconcile.RefreshProgram | backend/src/shared/shared.ts:799-852 | the stored program is the scanned ids in order, the seen set grows by the program, vanished records are marked, and `sendMyselfTweet` is called with the newly-available header and titles iff some title is newly available (what that call sends: the twitter.ts:62 finding) |
| Reconcile.RefreshedBasicInfo | backend/src/shared/shared.ts:816-842 | each record after a refresh is the last scanned row's record, or the vanished mark, or unchanged |
| Reconcile.RefreshedFrame | backend/src/shared/shared.ts:799-852 | a refresh leaves the more-info records, the scanned list and the current id alone |
| Reconcile.RelocatedIndex | backend/src/shared/shared.ts:872-903 | -1 iff the id is not in the listing; otherwise an index of the listing that holds the id |
| Reconcile.RelocationWithCurrentProgram | backend/src/shared/shared.ts:891-894 | after a full refresh, the lookup is `indexOf` in the listing |
| Reconcile.LocatedKeepsMoreInfo | backend/src/shared/shared.ts:865-903 | locating a screening leaves every more-info record as it was |
| Reconcile.LocateScreening | backend/src/shared/shared.ts:865-903 | the cached index is reused only when in range with a matching id; otherwise the program is refreshed once, the newly-available notice of that refresh is returned, and the id looked up again |
| Reservation.SoldOutFromTicketType | backend/src/shared/shared.ts:1024 | sold out iff the ticket type ends with `(SOLD OUT)`; never stored as false |
| Reservation.AvailabilityNotice | backend/src/shared/shared.ts:1030-1034 | `sendMyselfTweet` is called with a header iff the sold-out status flips (as written such a call sends nothing: the twitter.ts:62 finding) |
| Reservation.WithKindKeepsTicketFields | backend/src/shared/shared.ts:957-965 | the type update merges into the stored record and keeps its ticket fields; a fresh record has none |
| Reservation.TicketsRemaining | backend/src/shared/shared.ts:1090-1094 | none iff ` tickets remaining: ` followed by a digit occurs nowhere |
| Reservation.TicketsRemainingReadsCount | backend/src/shared/shared.ts:1090-1094 | a message with the marker and a printed count reports that count |
| Reservation.QuantitySelector.Load | backend/src/shared/shared.ts:978-984 | the loaded cart page shows the given count |
| Reservation.QuantitySelector.Increase | backend/src/shared/shared.ts:993 | a click on increase adds one |
| Reservation.StepQuantity | backend/src/shared/shared.ts:987-1001 | the stepper ends with the requested count iff it did not start above it; otherwise it throws `Ticket count higher than requested!` and changes nothing |
| Reservation.FirstSuccess | backend/src/shared/shared.ts:975-1014 | the first attempt, among the first 20, that gets through; none iff all 20 fail |
| Reservation.OpenCheckout | backend/src/shared/shared.ts:975-1014 | checkout opens iff some attempt among 20 gets through, after exactly that many attempts, with the requested count shown |
| Reservation.OvershootCostsOneAttempt | backend/src/shared/shared.ts:998-1013 | an overshooting count consumes one attempt only |
| Reservation.PersistentOvershootNeverOpens | backend/src/shared/shared.ts:998-1014 | if every attempt shows too many tickets, checkout never opens |
| Reservation.PriceCeiling | backend/src/shared/shared.ts:1062-1064 | a total is refused iff it is above `count * (25 + 2)`; an unreadable total is not refused |
| Reservation.RefreshDetails | backend/src/shared/shared.ts:957-1124 | the flow's result, notices and the one record it writes are those of `DetailsAfter` |
| Reservation.Checkout | backend/src/shared/shared.ts:1017-1124 | once checkout is open, the result, notices and record written are those of `CheckoutAfter` |
| Reservation.DetailsAfter | backend/src/shared/shared.ts:957-1124 | the type is always stored; the flow fails with checkout not opened iff the title is not TBA and checkout did not open; once open, the ticket type is stored; at most two notices, none before checkout; a failure never counts a purchase |
| Reservation.BuyAfter | backend/src/shared/shared.ts:1044-1124 | a total above the ceiling is refused, a click without effect times out, and the purchase succeeds iff the total passes and the button is gone; only then does `ticketsPurchased` grow by the count; at most one notice is added |
| Reservation.Buy | backend/src/shared/shared.ts:1044-1124 | the price check, the click and the page after it yield the result, notices and record of `BuyAfter` |
| Reservation.PurchasedCountGrowsExactly | backend/src/shared/shared.ts:1043-1124 | `ticketsPurchased` grows by exactly the count iff checkout opened, the price passed and no "not enough tickets" message appeared; otherwise it is unchanged |
| Reservation.PurchaseRespectsCeiling | backend/src/shared/shared.ts:1060-1066 | a purchase only goes through at or below the ceiling, or when the total could not be read |
| Reservation.NotEnoughRecordsRemaining | backend/src/shared/shared.ts:1087-1110 | a message with count N stores sold out iff N is 0 and `ticketsRemaining` N, undefined at 0 |
| Reservation.TbaOnlyClassified | backend/src/shared/shared.ts:957-968 | for a TBA title the pages make no difference, no notice is sent and the ticket fields stay as stored |
| Reservation.SoldOutFollowsTicketType | backend/src/shared/shared.ts:1022-1041 | without a purchase, the record's sold-out flag follows the ticket type, and `sendMyselfTweet` is called iff the flag flips (as written that call sends nothing: the twitter.ts:62 finding) |
| Queries.PruneLadder | backend/src/shared/shared.ts:1219-1262 | each step up the verbosity ladder only adds detail, never hides or changes any |
| Queries.PruneLadderEnds | backend/src/shared/shared.ts:1228-1243 | `verbose` keeps everything, `essential` keeps only the identity, and the title goes iff `noTitle` |
| Queries.PruneBasicLevel | backend/src/shared/shared.ts:1244-1247 | the default `basic` level shows category and update time only |
| Queries.PruneFilmInfo | backend/src/shared/shared.ts:1219-1262 | id, `isShorts` and url always stay; the title goes iff `noTitle`; `essential` drops both detail records; `verbose` keeps the details whole; panelist from `short`, tags from `tags`, credits from `credits` |
| Queries.ScreeningOrderIn | backend/src/shared/shared.ts:1333 | `Array.from(db.screenings)` lists exactly the stored screenings |
| Queries.CandidateIds | backend/src/shared/shared.ts:1333 | with `available === true` the query starts from the program, otherwise from the stored screenings, each once |
| Queries.Candidates | backend/src/shared/shared.ts:1334-1340 | one record per candidate id, in order; film info is attached only when asked for or a category, tag or film-id filter is given |
| Queries.Selected | backend/src/shared/shared.ts:1333-1431 | an order-preserving subsequence of the candidates, keeping exactly those that pass all nine stages |
| Queries.RunStagesStep | backend/src/shared/shared.ts:1341-1431 | one more stage keeps the run equal to a filter by all the tests so far |
| Queries.ScreeningStageIsWhere | backend/src/shared/shared.ts:1341-1431 | every stage is a plain filter by its own test |
| Queries.RunStagesIsWhere | backend/src/shared/shared.ts:1341-1431 | the first k stages together are one filter by all their tests |
| Queries.StageThen | backend/src/shared/shared.ts:1341-1431 | one more stage after the earlier ones filters by all of their tests together |
| Queries.SelectedExactly | backend/src/shared/shared.ts:1333-1431 | the result is an order-preserving subsequence of the candidates; a screening is kept iff it passes `soldOut` (`!!isSoldOut == soldOut`), `available` (`!!isUnavailable != available`) and every search stage |
| Queries.LocationSplit | backend/src/shared/shared.ts:1351-1389 | venue and city are the parts before and after the last `, `; without the separator both are absent and only `parkCity`/`slc` can match a city |
| Queries.InsertIntoSorted | backend/src/shared/shared.ts:1434-1436 | one insertion step extends the sorted prefix by one and permutes the array |
| Queries.InsertingSwap | backend/src/shared/shared.ts:1434-1436 | one swap moves the inserted element down while the rest stays ordered, and permutes the elements |
| Queries.SortByStartTime | backend/src/shared/shared.ts:1432-1437 | the in-place sort leaves start times non-decreasing (missing counts as 0) and permutes the array |
| Queries.SearchStage | backend/src/shared/shared.ts:1341-1347 | a stage that runs only when needles are given still returns the combinator's result: with no needles that is the input |
| Queries.GetScreenings | backend/src/shared/shared.ts:1308-1440 | unsorted, the result is exactly the selected screenings; sorted, it is a permutation of them in start-time order |
| Queries.RunScreeningStages | backend/src/shared/shared.ts:1341-1431 | the nine stages run one after another give the selection `RunStages` defines |
| Queries.GetFilms | backend/src/controllers/MainController.ts:104-150 | the result is, in order, each selected film of `allFilms` (with `all`) or `films`, pruned at the requested verbosity (default `basic`) |
| Queries.OptionalFilterIsWhere | backend/src/controllers/MainController.ts:118-145 | a stage whose needles are not given keeps everything; otherwise it filters by `Keeps` |
| Queries.FilmsSelectedExactly | backend/src/controllers/MainController.ts:113-145 | the result is a subsequence of the catalogue; a film is kept iff `!!isShorts == shorts` when given, and it passes the ids, titles, categories and tags stages |
| Queries.LongCategoryNeedlesMatchNothing | backend/src/controllers/MainController.ts:132-138 | the category is spread into single characters, so exact needles longer than one character select nothing |
| Queries.CategoryEntries | backend/src/controllers/MainController.ts:65-68 | one entry per title, in order, carrying that title and its stored details, or none when there are none |
| Queries.GetCategories | backend/src/controllers/MainController.ts:61-77 | an order-preserving subsequence of the entries of `allCategories` or `categories`; an entry is kept iff no titles are given or it passes the title filter |
| Queries.GetCategoriesSelects | backend/src/controllers/MainController.ts:61-77 | reads `allCategories` or `categories`; unfiltered without titles, otherwise an order-preserving filter by title |
| Twitter.Outbox.SendMyselfTweet | backend/src/shared/twitter.ts:43-76 | the corrected loop: nothing without API and user; otherwise it sends the greedy packing of all lines |
| Twitter.Outbox.SendMyselfTweetAsWritten | backend/src/shared/twitter.ts:43-76 | the loop as written: it sends the packing of every piece but the last |
| Twitter.MessagesShape | backend/src/shared/twitter.ts:51-61 | every message starts with the header and fits in 280 characters |
| Twitter.PackedKeepsEveryPieceInOrder | backend/src/shared/twitter.ts:55-61 | lines appear in the messages in order, each exactly once |
| Twitter.BodiesAfterStep | backend/src/shared/twitter.ts:55-61 | one packing step appends exactly the new piece to the text after the headers |
| Twitter.PieceStep | backend/src/shared/twitter.ts:52-70 | each line either joins the message under way, extending the packing by one piece, or completes that message |
| Twitter.PackedIsGreedy | backend/src/shared/twitter.ts:57-58 | every message but the last is followed by one that opens with the header and a line that did not fit after it |
| Twitter.HeaderOnlySendsNothingAsWritten | backend/src/shared/twitter.ts:49-64 | as written, a call without lines sends nothing |
| Twitter.LastLineNeverSentAsWritten | backend/src/shared/twitter.ts:62-64 | as written, for any non-empty list of lines, the bodies of the messages sent are all the lines but the last, in order |
| Twitter.LastLineNeverSentExamples | backend/src/shared/twitter.ts:62-64 | one line sends nothing, and of two short lines only the first is sent |
| Twitter.EveryLineSent | backend/src/shared/twitter.ts:50-73 | corrected, the bodies of the sent messages are all the lines, in order |
| Legacy.SoldOutCell | backend/src/index.ts:301 | `''` reads as undefined and `true` as true |
| Legacy.IndexCell | backend/src/index.ts:300 | an empty, missing or non-numeric index reads as 0, and a numeric one as its value |
| Legacy.NumberValueOfNumeral | backend/src/index.ts:300 | a decimal numeral reads as its value |
| Legacy.NumberValueOfNegativeNumeral | backend/src/index.ts:300 | a minus sign before a decimal numeral reads as the negated value |
| Legacy.DecodeRow | backend/src/index.ts:291-302 | the id is the first cell; the screening type is never read; sold out reads as false only for a missing cell or a cell other than empty and `true`; a short row gets index 0 |
| Legacy.DecodeFullRow | backend/src/index.ts:291-302 | a row with all 13 columns decodes cell by cell |
| Legacy.EncodeRow | backend/src/index.ts:531-547 | a written row has the 13 header columns |
| Legacy.DecodeEncodedRow | backend/src/index.ts:291-302 | a written row decodes to the record it came from, except the screening type |
| Legacy.IndexRoundTrip | backend/src/index.ts:300 | an index written as a decimal numeral reads back as itself |
| Legacy.BoolRoundTrip | backend/src/index.ts:296-299 | a flag written as `true` or `false` reads back as itself |
| Legacy.SoldOutRoundTrip | backend/src/index.ts:301 | a sold-out flag written as `true` or left empty reads back as itself |
| Legacy.ResumeIndex | backend/src/index.ts:381-396 | the scan resumes after the last saved screening iff its index is in range and the listing has the same id there; otherwise at 0 |
| Legacy.ShippedConfigAdmits | backend/src/index.ts:224-232 | with the shipped settings only TBA titles are refused |
| Legacy.NamedFiltersFollowClassification | backend/src/index.ts:446-472 | the named type and city filters agree with the classification of the type and location text |
| Legacy.AfterSelect | backend/src/index.ts:561-569 | after a selection the scan stops if the index is past the reloaded listing, restarts at 0 if the id there changed, and otherwise moves on |
| Legacy.Run | backend/src/index.ts:380-571 | every record the scan adds passed the filters, has a real index, repeats no earlier id, and is marked sold out only as true and only after a selection; earlier records are kept; a failed checkout leaves its record unmarked; over an unchanging listing with fuel for every entry it never runs out of fuel, finishes when every selection reaches checkout, and on finishing holds exactly `ScannedTo` from the resume index |
| Legacy.ScanFrom | backend/src/index.ts:398-571 | the loop from a start position keeps every added record well formed and, over an unchanging listing, finishes with exactly `ScannedTo` from that position |
| Legacy.ScanEntry | backend/src/index.ts:399-571 | one pass skips the entry or adds it, keeping the scan invariant, or stops on a failed checkout or a listing too short |
| Legacy.SelectEntry | backend/src/index.ts:494-571 | a selection that does not reach checkout stops the scan with the record unmarked; otherwise the record is marked and the scan moves to where `AfterSelect` says |
| Legacy.FreshBelowLists | backend/src/index.ts:398-492 | the positions a scan adds are exactly the new admitted ones, each once, in increasing order |
| Legacy.ScannedToHasId | backend/src/index.ts:398-492 | an id is among the scanned records iff it was parsed before or some admitted entry looked at carries it |
| Legacy.ScanFindsEveryAdmitted | backend/src/index.ts:398-492 | every admitted entry from the resume position on ends up parsed |
| Legacy.InsertByKey | backend/src/index.ts:573-583 | inserting adds exactly the one element: the multiset grows by it |
| Legacy.InsertByKeySorted | backend/src/index.ts:573-583 | inserting into a sorted sequence keeps it sorted |
| Legacy.SortByKey | backend/src/index.ts:573-583 | the result is sorted by start or end time and is a permutation of the scanned records |
| Controller.HandlerLeavesLockIdle | backend/src/controllers/MainController.ts:188-199 | a lock-taking handler brackets its work with one `startOp` and one `endOp`, leaving an idle lock idle; the other handlers do not touch it |
| Controller.SequentialHandlersLeaveLockIdle | backend/src/controllers/MainController.ts:366-425 | handlers served one after another leave the lock idle |
| Controller.RunAppend | backend/src/shared/shared.ts:32-51 | running two event sequences in a row is running their concatenation |
| Controller.StartThenEnd | backend/src/controllers/MainController.ts:387-406 | a bracketed operation ends in the state of one start step then one end step |
| Controller.SetRunningMain | backend/src/controllers/MainController.ts:433-437 | `runningMain` becomes true iff the value is exactly `true`, and the lock is untouched |
| Controller.PurchaseCheck | backend/src/controllers/MainController.ts:392-401 | passes iff the reported `ticketsPurchased` (default 0) equals the original count plus the quantity; otherwise `Unable to purchase tickets` |
| Controller.PurchaseCheckMatchesFlow | backend/src/controllers/MainController.ts:392-401 | a flow that bought passes the check, and for a non-zero quantity a flow that did not buy fails it |
| Controller.UnlocatedPurchase | backend/src/controllers/MainController.ts:398-401 | a screening that was not located passes only when the original count plus the quantity is 0 |
| Controller.PurchaseScreeningTickets | backend/src/controllers/MainController.ts:383-407 | the handler runs inside exactly one start/end of the lock; a success reports the original count plus the quantity; for a screening no longer listed it succeeds iff that total is 0, otherwise iff the reservation flow (`DetailsAfter`) succeeds and the reported count passes the check; a failed flow is reported as such; the store becomes the located store with the flow's record written |
| Controller.ScreeningsQueryOf | backend/src/controllers/MainController.ts:236-248 | the needle lists are `cities ++ otherCities` and `screeningTypes ++ otherScreeningTypes`, with film info requested |
| Controller.OtherCitiesWiden | backend/src/controllers/MainController.ts:239 | with an effective named city, adding other cities never drops a screening the named ones keep |

## Left out

- The browser: page loads, waits, clicks, sign-in, `clearCart`, `loadScreenings`, and the category and film scrapers. A page's content is an input (a listing, an attempt environment, a checkout page, a selection outcome).
- Date parsing and formatting (`parse`, `parseISO`, `toISOString`): timestamps are integers, and the CSV date functions are parameters.
- Real suspension in `startOp`: a waiting caller is a ticket in the queue, and its release is the ticket handed back by `EndOp`.
- The Twitter and mail clients: `SendMyselfTweet` takes the availability of the client and of the user as inputs.
- The background scan loop that drives `refreshScreeningInfo` repeatedly is not part of this model.
- HTTP routing, query-string coercion and the CSV writers, readers and streams. CSV quoting is not modelled: a row is a list of cells.
- Environment configuration and the JSON file behind `Db`: the store is an in-memory map.
- `getFilmInfoStored`, `getFilmInfoStoredComplete` and `pruneScreeningInfo` reshaping: film records are inputs of the queries, and the pruned screening record keeps the purchased count the controller reads.
- The `getScreeningsCsv` handler and `getAppState`.
- JsText.ToLower: lowercases A to Z only; other letters keep their case, where JavaScript would apply full Unicode case mapping.
- Store.ArrayFrom: does not state that JavaScript lists members in insertion order.
- Twitter.Outbox.SendMyselfTweet: requires every header-plus-line to fit in one message. Otherwise the source loops forever, re-sending the header.
- Twitter.Outbox.SendMyselfTweetAsWritten: has the same requirement, for the same reason.
- Twitter: lengths are counted in characters (code points), where JavaScript's `length` counts UTF-16 code units, so a text with characters outside the Basic Multilingual Plane can fit 280 here and not in the source.
- Legacy.Run: carries a fuel bound, because a listing that keeps changing restarts the scan without end; running out of fuel is an outcome.
- Legacy.NumberValue: reads integer numerals only (a leading `+` is read but has no round-trip lemma). Fractions, exponents, hexadecimal and `Infinity` are not modelled, nor the loss of precision of very long digit strings.
- Legacy.DecodeRow: a cell missing from a short row reads as an empty string.
- Queries.GetScreenings: does not state that the sort is stable, only that it is sorted and a permutation.
- Reservation.RefreshDetails: an increase click that does not register is not modelled (the source's wait then throws inside the retry).

## Findings

| source | as written | input that shows it | evidently intended | confidence | as-written member | corrected member |
|---|---|---|---|---|---|---|
| backend/src/shared/twitter.ts:62 | a message is sent when `i` reaches `otherLines.length - 1`, after that line was added, and never after the last line | header `H` with lines `["a"]` sends nothing; with no lines the header alone is never sent | send when `i === otherLines.length`, so the last message goes out | high, not executed | Twitter.Outbox.SendMyselfTweetAsWritten | Twitter.Outbox.SendMyselfTweet |
