# Meeting ledger: a Dafny model of its accounting and list editing

The application records the meetings of an informal group. For each meeting
it keeps who came and what they paid (participants and their fees), what was
spent (expenses) and what was given on top (donations), plus photos and
comments. It shows a balance, fees + donations − expenses, on the home list,
on the detail page and on the edit form. This project models the logic behind
those pages and proves what it computes:

- `Accounting` defines the three totals and the balance once. The edit page
  (`MeetingEdit.CalculateTotals`) recomputes them over its buffer with its own
  `reduce` left folds (`Accounting.Reduce`); the detail page and the card
  write out the same folds over a stored meeting (`Accounting.FoldTotals`).
  Each is proved equal to the single definition.
- `RowLists` holds the list edits of the edit form, written once for any row
  type: update the rows with a given id and remove the rows with a given id,
  with lemmas about both and about appending a row with an unused id. The
  appending itself (`ps + [row]`) is done by `MeetingEdit`'s `Add*Row`
  functions.
- `MeetingEdit` has the edit buffer and the per-list handlers as pure
  functions. `EditSession` is a class whose `meeting` field the handlers
  replace, as the page's single `useState` buffer is replaced. The class
  invariant `Valid` says there is at least one participant row and one
  expense row, and ids are unique in each list. The save gate is modelled
  too.
- `MeetingView` has the detail page's built-in meeting, JavaScript's `trim`, and the
  comment composer. The composer is a class over the author input, the
  comment input and a key-value map that stands in for browser storage.
- `HomeIndex` has the home list. `[...meetings].sort(cmp)` is modelled as a
  stable insertion sort. It is proved to be a permutation, ordered by date in
  the chosen direction, and stable (each day's meetings keep their input
  order). It is also proved to be the only list with those properties, so it
  gives the same list as any stable sort, which is what ECMAScript's
  `Array.prototype.sort` has been required to be since the 2019 edition of
  ECMA-262. The module also has the sort-order toggle and the banner's
  partial-record merge.
- `MeetingCard` has the card's derived figures: the thumbnail choice, the
  colour of the balance, the comment badge and the participant count.

Dates of stored meetings are integer day keys (yyyymmdd). These order the
same way as the ISO `YYYY-MM-DD` strings and the time stamps the page parses
them to. The edit form's date stays a string, because the form only tests it
for emptiness. Amounts are mathematical integers. The pages' ids (`Date.now()`),
time stamps (`new Date()`), today's date and the browser storage are
parameters of the model.

The model follows the code, including where it does less than the page suggests:

- The comment composer does not add a comment to the meeting. The page's
  meeting has no setter, so `HandleAddComment` only stores the author's name
  and clears the comment box.
- Amounts are not kept non-negative. `parseInt(..) || 0` keeps any negative
  number the user types, so `ParsedAmount` does too.
- Removing the last participant or expense row is not refused by the
  handler. The trash button is simply not rendered while the list has one
  row. The model states this as the precondition `|list| > 1` of
  `EditSession.RemoveParticipant` and `EditSession.RemoveExpense`.
- The save gate tests emptiness without trimming, so a title of spaces
  passes.
- The edit page never loads the meeting named in its route. `/edit/:id`
  starts from the same blank buffer as `/edit/new`. Only the toast differs
  (`Created` or `Updated`).

## Model

| member | source | states |
|---|---|---|
| Accounting.Reduce | src/pages/MeetingEdit.tsx:95-97 | a `reduce` left fold from `acc` equals `acc` plus the reference sum of the list |
| Accounting.SumAppend | src/pages/MeetingEdit.tsx:95-97 | a total over two lists joined end to end is the sum of their totals |
| Accounting.SumDelete | src/pages/MeetingEdit.tsx:46-49 | deleting row k lowers the total by exactly row k's amount |
| Accounting.SumReplace | src/pages/MeetingEdit.tsx:39-44 | replacing row k changes the total by the new amount minus the old one |
| Accounting.BalanceMayBeNegative | src/pages/MeetingEdit.tsx:98 | the balance can be below zero (no fees and one expense of 1 gives −1) |
| RowLists.Ids | src/pages/MeetingEdit.tsx:199-200 | the id list has one entry per row, in row order |
| RowLists.UpdateById | src/pages/MeetingEdit.tsx:40-42 | length is kept; each row with the id becomes the setter's result, and every other row stays as it was |
| RowLists.RemoveById | src/pages/MeetingEdit.tsx:47 | the list never grows |
| RowLists.RemoveMembers | src/pages/MeetingEdit.tsx:47 | a row is in the result exactly when it is in the list and has another id |
| RowLists.UpdateAbsentId | src/pages/MeetingEdit.tsx:40-42 | updating an id that no row has leaves the list unchanged |
| RowLists.UpdateKeepsIds | src/pages/MeetingEdit.tsx:40-42 | a setter that leaves ids alone keeps the list's ids in order |
| RowLists.RemoveAppend | src/pages/MeetingEdit.tsx:47 | removal applied to two joined lists is the two removals joined |
| RowLists.RemoveAbsentId | src/pages/MeetingEdit.tsx:47 | removing an id that no row has leaves the list unchanged |
| RowLists.RemoveIsSubsequence | src/pages/MeetingEdit.tsx:47 | what removal keeps is a subsequence of the list, in the original order |
| RowLists.UpdateDistinctChangesOne | src/pages/MeetingEdit.tsx:39-44 | with unique ids, updating row k's id gives exactly the list with only row k replaced |
| RowLists.RemoveDistinctDeletesOne | src/pages/MeetingEdit.tsx:47 | with unique ids, removing row k's id gives exactly the list without row k, one row shorter |
| RowLists.DeleteKeepsDistinct | src/pages/MeetingEdit.tsx:47 | deleting one row from a list with unique ids keeps them unique |
| RowLists.RemoveKeepsDistinct | src/pages/MeetingEdit.tsx:47 | removal keeps ids unique |
| RowLists.AppendKeepsDistinct | src/pages/MeetingEdit.tsx:36 | appending a row with an unused id keeps ids unique |
| MeetingEdit.IsNew | src/pages/MeetingEdit.tsx:15 | the session is new exactly when the route id is missing, empty or "new" |
| MeetingEdit.InitialDraft | src/pages/MeetingEdit.tsx:17-24 | the fresh buffer has one participant row, one expense row and no donations; it is well formed, and its totals and balance are all 0 |
| MeetingEdit.UpdateInfo | src/pages/MeetingEdit.tsx:26-28 | only the chosen one of title, date and location changes; the three lists are kept |
| MeetingEdit.ParsedAmount | src/pages/MeetingEdit.tsx:214 | an input that does not parse is stored as 0; a parsed number, negative or not, is stored as it is |
| MeetingEdit.UnparsedAmountStoresZero | src/pages/MeetingEdit.tsx:214-313 | an unparsable fee, expense amount or donation amount sets the rows with the edited id to 0 |
| MeetingEdit.WithParticipantField | src/pages/MeetingEdit.tsx:41 | the row keeps its id and changes only the chosen field |
| MeetingEdit.WithExpenseField | src/pages/MeetingEdit.tsx:62 | the row keeps its id and changes only the chosen field |
| MeetingEdit.WithDonationField | src/pages/MeetingEdit.tsx:84 | the row keeps its id and changes only the chosen field |
| MeetingEdit.AddParticipantRow | src/pages/MeetingEdit.tsx:30-37 | one row longer, the old rows kept as a prefix, the new last row is (fresh id, "", 0); the fee total is unchanged; ids stay unique when the id is fresh |
| MeetingEdit.UpdateParticipants | src/pages/MeetingEdit.tsx:39-44 | length, order and ids are kept; rows with another id are unchanged; matching rows differ only in the field; an absent id changes nothing |
| MeetingEdit.RemoveParticipants | src/pages/MeetingEdit.tsx:46-49 | a subsequence holding exactly the rows whose id differs; an absent id changes nothing; ids stay unique |
| MeetingEdit.AddExpenseRow | src/pages/MeetingEdit.tsx:51-58 | one row longer, the old rows kept as a prefix, the new row is (fresh id, "", 0, no category); the expense total is unchanged |
| MeetingEdit.UpdateExpenses | src/pages/MeetingEdit.tsx:60-65 | length, order and ids are kept; rows with another id are unchanged; matching rows differ only in the field |
| MeetingEdit.RemoveExpenses | src/pages/MeetingEdit.tsx:67-70 | a subsequence holding exactly the rows whose id differs; an absent id changes nothing |
| MeetingEdit.AddDonationRow | src/pages/MeetingEdit.tsx:72-80 | one row longer, the old rows kept as a prefix, the new row is (fresh id, "", 0, note ""); the donation total is unchanged |
| MeetingEdit.UpdateDonations | src/pages/MeetingEdit.tsx:82-87 | length, order and ids are kept; rows with another id are unchanged; matching rows differ only in the field |
| MeetingEdit.RemoveDonations | src/pages/MeetingEdit.tsx:89-92 | a subsequence holding exactly the rows whose id differs; an absent id changes nothing |
| MeetingEdit.RemoveRowAndTotal | src/pages/MeetingEdit.tsx:46-49 | with unique ids, removing row k's id deletes exactly row k, the list is one row shorter, and the total drops by row k's amount |
| MeetingEdit.UpdateRowAndTotal | src/pages/MeetingEdit.tsx:39-44 | with unique ids, updating row k's id changes only row k, and the total moves by the change in row k's amount |
| MeetingEdit.GuardedRemoveKeepsARow | src/pages/MeetingEdit.tsx:218 | while a list has more than one row and unique ids, a removal leaves it with at least one row and unique ids |
| MeetingEdit.DonationsMayBecomeEmpty | src/pages/MeetingEdit.tsx:317-323 | donations have no floor: removing the only donation empties the list |
| MeetingEdit.CalculateTotals | src/pages/MeetingEdit.tsx:94-101 | the edit page's folds give the single summary: each total is its list's sum, and balance = fees + donations − expenses |
| MeetingEdit.SaveResult | src/pages/MeetingEdit.tsx:103-117 | refused exactly when title, date or location is empty; otherwise Created for a new meeting and Updated for an existing one |
| MeetingEdit.EmptyTitleRefused | src/pages/MeetingEdit.tsx:104 | an empty title is refused even when date and place are filled in |
| MeetingEdit.EditSession.constructor | src/pages/MeetingEdit.tsx:15-24 | starts from the initial buffer, not navigated, invariant established |
| MeetingEdit.EditSession.UpdateMeeting | src/pages/MeetingEdit.tsx:26-28 | the buffer becomes `UpdateInfo` of the old buffer; the invariant is kept |
| MeetingEdit.EditSession.AddParticipant | src/pages/MeetingEdit.tsx:30-37 | only the participant list changes, to `AddParticipantRow` of the old one; the invariant is kept |
| MeetingEdit.EditSession.UpdateParticipant | src/pages/MeetingEdit.tsx:39-44 | only the participant list changes, to `UpdateParticipants`; the invariant is kept |
| MeetingEdit.EditSession.RemoveParticipant | src/pages/MeetingEdit.tsx:218-222 | callable only while there are two or more rows; only the participant list changes; at least one row remains |
| MeetingEdit.EditSession.AddExpense | src/pages/MeetingEdit.tsx:51-58 | only the expense list changes, to `AddExpenseRow`; the invariant is kept |
| MeetingEdit.EditSession.UpdateExpense | src/pages/MeetingEdit.tsx:60-65 | only the expense list changes, to `UpdateExpenses`; the invariant is kept |
| MeetingEdit.EditSession.RemoveExpense | src/pages/MeetingEdit.tsx:267-271 | callable only while there are two or more rows; only the expense list changes; at least one row remains |
| MeetingEdit.EditSession.AddDonation | src/pages/MeetingEdit.tsx:72-80 | only the donation list changes, to `AddDonationRow`; the invariant is kept |
| MeetingEdit.EditSession.UpdateDonation | src/pages/MeetingEdit.tsx:82-87 | only the donation list changes, to `UpdateDonations`; the invariant is kept |
| MeetingEdit.EditSession.RemoveDonation | src/pages/MeetingEdit.tsx:317-323 | always callable; only the donation list changes, to `RemoveDonations` |
| MeetingEdit.EditSession.HandleSave | src/pages/MeetingEdit.tsx:103-120 | the buffer is never modified; navigates to "/" exactly when the gate passes, and otherwise leaves the navigation as it was |
| Accounting.FoldTotals | src/pages/MeetingView.tsx:53-56 | the detail page's folds (the card's, src/components/MeetingCard.tsx lines 11-14, are the same) give the single summary |
| MeetingView.MockMeetingTotals | src/pages/MeetingView.tsx:12-41 | the built-in meeting shows 200000 in fees, 180000 in expenses, 20000 in donations and a balance of 40000 |
| MeetingView.TrimStart | src/pages/MeetingView.tsx:76 | leaves a suffix that starts with a non-space, and drops only white space |
| MeetingView.TrimEnd | src/pages/MeetingView.tsx:76 | leaves a prefix that ends with a non-space, and drops only white space |
| MeetingView.Trim | src/pages/MeetingView.tsx:76 | the result is empty exactly when every character is ECMAScript white space or a line terminator |
| MeetingView.InitialAuthor | src/pages/MeetingView.tsx:49-51 | the stored name when one is stored, otherwise "" |
| MeetingView.CommentGate | src/pages/MeetingView.tsx:76-83 | posts exactly when both the name and the comment are non-empty after trimming |
| MeetingView.EmptyCommentRefused | src/pages/MeetingView.tsx:76 | a name with an empty comment is refused |
| MeetingView.CommentComposer.constructor | src/pages/MeetingView.tsx:47-51 | the author starts as the stored name or "", and the comment box starts empty |
| MeetingView.CommentComposer.EditAuthor | src/pages/MeetingView.tsx:302 | the author field becomes the typed value |
| MeetingView.CommentComposer.EditComment | src/pages/MeetingView.tsx:309 | the comment field becomes the typed value |
| MeetingView.CommentComposer.HandleAddComment | src/pages/MeetingView.tsx:75-95 | if refused, nothing changes; if accepted, storage maps "commentAuthor" to the untrimmed name and the comment box is cleared; the author field is kept, and the meeting (a constant) is never changed |
| MeetingCard.FirstFlagged | src/components/MeetingCard.tsx:16 | the index of the first photo with `isThumbnail` set, or None exactly when no photo is flagged |
| MeetingCard.Thumbnail | src/components/MeetingCard.tsx:16 | the first flagged photo; if none is flagged, the first photo; none exactly when there are no photos; always an element of the list |
| MeetingCard.BalanceTone | src/components/MeetingCard.tsx:61-62 | positive (green) exactly when the balance is at least 0, zero included |
| MeetingCard.Card | src/components/MeetingCard.tsx:11-68 | the participant count is the list length; the comment badge appears exactly when there are comments and shows their number; balance and colour come from the single summary |
| HomeIndex.Compare | src/pages/Index.tsx:75-77 | negative (a first) exactly when a is later under 'latest' or earlier under 'oldest'; zero exactly on the same day |
| HomeIndex.Toggle | src/pages/Index.tsx:88-90 | the other of the two orders |
| HomeIndex.ToggleTwice | src/pages/Index.tsx:88-90 | toggling twice restores the order |
| HomeIndex.Insert | src/pages/Index.tsx:74-78 | inserting adds exactly the one meeting (multiset) |
| HomeIndex.SortMeetings | src/pages/Index.tsx:74 | the sorted copy is a permutation of the meetings |
| HomeIndex.InsertSorted | src/pages/Index.tsx:74-78 | insertion into an ordered list keeps it ordered |
| HomeIndex.SortedByDate | src/pages/Index.tsx:74-78 | the result is ordered under the comparator; under 'latest' dates never increase, under 'oldest' they never decrease |
| HomeIndex.OnDateAppend | src/pages/Index.tsx:74-78 | taking one day's meetings distributes over joining lists |
| HomeIndex.InsertOnDate | src/pages/Index.tsx:74-78 | insertion keeps every day's meetings in their given order |
| HomeIndex.SortIsStable | src/pages/Index.tsx:74-78 | for every day, that day's meetings appear in the result in exactly their input order |
| HomeIndex.StableOrderIsUnique | src/pages/Index.tsx:74-78 | two ordered lists with the same meetings for every day, in the same order, are equal |
| HomeIndex.AnyStableSortAgrees | src/pages/Index.tsx:74-78 | any ordered list that keeps each day's meetings in input order is the model's sorted list |
| HomeIndex.MergeBanner | src/pages/Index.tsx:92-94 | every key given in the update overwrites, even with undefined; every other banner field is kept |
| HomeIndex.MergeBannerIdempotent | src/pages/Index.tsx:92-94 | an empty update changes nothing; applying the same update twice equals applying it once |
| HomeIndex.MockMeetingsSorted | src/pages/Index.tsx:10-78 | 'latest' shows meeting 1 (2024-03-15) before meeting 2 (2024-02-20); 'oldest' shows the reverse |
| HomeIndex.MockSecondCard | src/pages/Index.tsx:41-62 | the second card shows 180000 in fees, 180000 in expenses, balance 0 as positive, its flagged photo, three participants and no comment badge |
| HomeIndex.HomePage.constructor | src/pages/Index.tsx:67-72 | starts with the built-in meetings, 'latest' and the default banner |
| HomeIndex.HomePage.SortedMeetings | src/pages/Index.tsx:74-78 | the shown list is a permutation of the state's meetings, ordered under the current sort order, and stable |
| HomeIndex.HomePage.ToggleSortOrder | src/pages/Index.tsx:88-90 | only the sort order changes, to the other order |
| HomeIndex.HomePage.HandleBannerUpdate | src/pages/Index.tsx:92-94 | only the banner changes, to the merge of the old banner and the update |

## Left out

- Rendering, styling, dialogs and icons are UI only. The totals' display is
  left out too: `toLocaleString`, the donations row shown only when donations
  exist, and `fee || ""` in the inputs.
- Toasts appear only as outcome tags: `SaveOutcome`, `CommentOutcome`.
- Routing: only the save's navigation to "/" is modelled, as
  `EditSession.navigatedTo`. The back buttons and the view, edit and create
  links (`handleViewMeeting`, `handleCreateNew`) only call the router.
- `handleShare` with its clipboard fallback, and `handleImageUpload` on the
  detail page: these are platform calls and a toast.
- `src/components/HomeBanner.tsx` is not part of this model. It is a dialog
  plus an asynchronous file read. Its only effect on state is the `onUpdate`
  merge, which is modelled as `MergeBanner`.
- `Date.now()`, `new Date()` and today's date are parameters. Parsing a
  date with `new Date(..).getTime()` is replaced by integer day keys, so the
  model assumes valid dates. An invalid date would give NaN and break the
  comparator.
- Browser storage is a `map<string, string>`. `parseInt`'s own string
  parsing is left out: its result comes in as an optional integer.
- JavaScript numbers are floats. Amounts here are unbounded integers, so
  overflow and rounding are not modelled.
- The fallbacks `?.`, `|| []` and `p.fee || 0` inside `calculateTotals`
  never apply: the buffer always has its three lists, and every amount is an
  integer. An integer `x || 0` is `x`.
- The handlers type their field as `keyof` the row, which also lets them
  write `id`. No input does that, so the field variants leave `id` out.
  Expense `category` is modelled although no input writes it.
- React's closure and batching semantics are left out: each handler is one
  atomic step on the current state.
- MeetingEdit.EditSession.AddParticipant, AddExpense, AddDonation: each
  requires that the fresh id is not already used in its list. `Date.now()`
  is assumed never to repeat within one session.
