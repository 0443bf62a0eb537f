# ServeSense restaurant console — a Dafny model of its page logic

ServeSense is a single-page restaurant console written in React. Most of it is
static layout; this project models the parts that compute something:

- **Live orders** (`LiveOrders`, `live_orders.dfy`). This is the board of open
  orders. Advancing an order moves it one step through Pending, Preparing,
  Ready and Served. Staff can also add walk-in orders through a form, and a
  single notice line echoes the last action. The board is a class: `orders`,
  `recentAction` and `isCreating` are fields that its methods update.
  `Advance` is a loop over the list, proved against the pure specification
  `AdvanceAll`/`NoticeAfter`.
- **Analytics** (`Analytics`). The highlighted category is the first maximum
  of the category breakdown, found by a seedless reduce.
- **Feedback** (`Feedback`). The comment filter selects by sentiment, or by
  ISO date strings compared as strings. The five-star row is also modelled.
- **Tables** (`Tables`). The occupancy summary counts tables per status, and
  each seeded QR code's short link is printed below it.
- **Order history** (`OrderHistory`). The status filter over archived orders,
  and the filter buttons, of which only the "Status" group does anything.
- **3D model library** (`ModelLibrary`). The category filter, and the
  "first three" slices of the assignments section.
- **Application shell** (`AppLayout`). The top-bar title comes from the first
  navigation entry whose path is a raw prefix of the location, falling back
  to "Restaurant OS". Two sidebar flags are toggled.

Shared helpers:

- `Seqs`: `filter`, `indexOf`, `find` and `slice(0, n)` on sequences, plus
  the subsequence relation.
- `Text`: the JavaScript string operations the pages use: `trim`,
  `toUpperCase`, `padStart(2, "0")`, `replace` with a string pattern,
  `startsWith` (Dafny's `<=` on sequences) and the relational `>=` on strings.
- `Wrappers`: the `Option` type, which stands in for `undefined` and `null`.

Where the walk-in id needs the time of day, it takes hours, minutes and
seconds as parameters. Where the print button needs to know whether the
browser opened a window, it takes that as a boolean.

JavaScript numbers (percentages, ratings, guest counts, seats) are modelled as
integers.

In two places the code behaves differently from a plain reading of the
page's purpose, and the model follows the code:

- Advancing targets every order that carries the id rather than exactly one
  order (`Array.map` with an id test), and the notice is the one for the last
  match. `AdvanceUnique` states the one-order behaviour when ids are unique.
- The walk-in input always carries a table string (the form's field), so
  there is no separate "no table" case. A blank or all-whitespace table
  becomes "TAKEOUT".

## Model

| member | source | states |
|---|---|---|
| LiveOrders.Rank | src/pages/orders/LiveOrdersPage.tsx:43 | each status has a position in the lifecycle, at most 3 |
| LiveOrders.StatusName | src/pages/orders/LiveOrdersPage.tsx:7 | a status is displayed as one of "Pending", "Preparing", "Ready" and "Served" |
| LiveOrders.NextStatus | src/pages/orders/LiveOrdersPage.tsx:66-67 | the status after `s` in `STATUS_STEPS`, or `s` itself past the end: its rank is one higher, except for Served, which stays at the top |
| LiveOrders.NextStatusStep | src/pages/orders/LiveOrdersPage.tsx:66-67 | the lookup `STATUS_STEPS[indexOf(s)+1] ?? s` moves every status except Served exactly one position on; Served is its only fixed point |
| LiveOrders.NextStatusTable | src/pages/orders/LiveOrdersPage.tsx:43 | Pending→Preparing, Preparing→Ready, Ready→Served, Served→Served |
| LiveOrders.PendingReachesServed | src/pages/orders/LiveOrdersPage.tsx:43 | three steps take Pending to Served, and a fourth stays there |
| LiveOrders.AdvanceLabel | src/pages/orders/LiveOrdersPage.tsx:212 | the button reads "Completed" exactly when advancing would leave the status unchanged (Served), and "Advance" exactly otherwise |
| LiveOrders.AdvanceOrder | src/pages/orders/LiveOrdersPage.tsx:64-73 | an order with another id comes back unchanged; a matching one changes only its status, to the next status |
| LiveOrders.MovedNotice | src/pages/orders/LiveOrdersPage.tsx:72 | the notice starts "Order <id> moved to " and ends with a full stop |
| LiveOrders.AlreadyServedNotice | src/pages/orders/LiveOrdersPage.tsx:69 | the notice starts "Order <id> " and ends with a full stop |
| LiveOrders.NoticesDiffer | src/pages/orders/LiveOrdersPage.tsx:69-72 | the "moved to" and "already served" notices about one order are never the same text |
| LiveOrders.AdvanceNotice | src/pages/orders/LiveOrdersPage.tsx:68-73 | a Served order gets the "already served" notice; any other gets the "moved to" notice naming its next status |
| LiveOrders.AdvanceAll | src/pages/orders/LiveOrdersPage.tsx:63-75 | the map keeps the number of orders |
| LiveOrders.AdvanceOnlyTarget | src/pages/orders/LiveOrdersPage.tsx:63-75 | after advancing, orders with another id are unchanged, every order differs at most in its status, and matching orders hold the next status |
| LiveOrders.NoticeAfter | src/pages/orders/LiveOrdersPage.tsx:63-75 | a pass over the list never clears a notice: every match writes one, and nothing sets it back to none |
| LiveOrders.NoticeOfLastMatch | src/pages/orders/LiveOrdersPage.tsx:63-75 | with several orders carrying the id, the notice is the one about the last of them, since each match overwrites it |
| LiveOrders.AdvanceAbsent | src/pages/orders/LiveOrdersPage.tsx:62-76 | an id on no order leaves the list and the notice as they were |
| LiveOrders.NoticeOfUnique | src/pages/orders/LiveOrdersPage.tsx:68-72 | when one order carries the id, the notice is the one about that order, whatever the prior notice was |
| LiveOrders.AdvanceServed | src/pages/orders/LiveOrdersPage.tsx:68-70 | a Served order is returned unchanged and the notice says it is already served |
| LiveOrders.AdvanceMoves | src/pages/orders/LiveOrdersPage.tsx:72-73 | any other order gets the next status, its rank goes up by one, and the notice names the new status |
| LiveOrders.AdvanceMonotone | src/pages/orders/LiveOrdersPage.tsx:64-73 | an advance never skips or reverses: the rank goes up by one, or the order is unchanged because it is not the target or is served |
| LiveOrders.ThreeAdvancesServe | src/pages/orders/LiveOrdersPage.tsx:43 | three advances serve a Pending order and a fourth changes nothing |
| LiveOrders.AdvanceAllServed | src/pages/orders/LiveOrdersPage.tsx:68-70 | when every order with the id is served, advancing leaves the list unchanged |
| LiveOrders.AdvanceUnique | src/pages/orders/LiveOrdersPage.tsx:62-76 | with a unique id only that order changes, it keeps its id and stays unique, and the notice is about it |
| LiveOrders.PreparingOrderScenario | src/pages/orders/LiveOrdersPage.tsx:62-76 | a unique Preparing order becomes Ready, then Served, with "moved to" notices; a third advance changes no order and reports "already served"; the others stay untouched throughout |
| LiveOrders.SeededScenario | src/pages/orders/LiveOrdersPage.tsx:19-41 | the seeded ORD-5124 is Preparing and its id is unique, so the scenario applies to it |
| LiveOrders.WalkInId | src/pages/orders/LiveOrdersPage.tsx:346-351 | the id is "WALK-" and six characters from which the hour, minute and second read back |
| LiveOrders.WalkInIdDigits | src/pages/orders/LiveOrdersPage.tsx:347-350 | the six characters after "WALK-" are decimal digits |
| LiveOrders.WalkInIdSameSecond | src/pages/orders/LiveOrdersPage.tsx:346-351 | two walk-in ids are equal exactly when they are made in the same second of the day |
| LiveOrders.NormalizeTable | src/pages/orders/LiveOrdersPage.tsx:125 | the stored table is never empty: it is "TAKEOUT" or the trimmed, upper-cased input |
| LiveOrders.NormalizeTableCases | src/pages/orders/LiveOrdersPage.tsx:125 | an all-whitespace table becomes "TAKEOUT"; any other becomes its trimmed upper-case form |
| LiveOrders.NormalizeFixedPoint | src/pages/orders/LiveOrdersPage.tsx:125 | a non-blank, upper-case name without surrounding whitespace is kept as it is |
| LiveOrders.NormalizeTableIdempotent | src/pages/orders/LiveOrdersPage.tsx:125 | normalizing a stored table again changes nothing |
| LiveOrders.IsValid | src/pages/orders/LiveOrdersPage.tsx:256 | the form is valid exactly when the items contain a non-whitespace character |
| LiveOrders.GuestsAccepted | src/pages/orders/LiveOrdersPage.tsx:309-316 | the browser lets the form submit only with a blank guests field or a count of at least 1 (`min={1}`) |
| LiveOrders.SubmitSheet | src/pages/orders/LiveOrdersPage.tsx:258-267 | nothing is submitted exactly when the guests field is below 1 or the items are blank; otherwise the items are the form's items, trimmed, and non-empty, the table and the rush flag pass through, a blank guest field becomes absent and a count (at least 1) is kept |
| LiveOrders.DefaultSheetSubmits | src/pages/orders/LiveOrdersPage.tsx:251-254 | the form as it opens (table "T01", the sample items, 2 guests, not rushed) submits an order for table "T01" with 2 guests |
| LiveOrders.WalkInOrder | src/pages/orders/LiveOrdersPage.tsx:123-131 | a new walk-in is Pending and "Just now", with the time id, the normalized table, and the input's items, guests and rush flag |
| LiveOrders.CreatedNotice | src/pages/orders/LiveOrdersPage.tsx:134 | the notice starts "Walk-in <id> added" and ends " • Rush." for a rush order and " added." otherwise |
| LiveOrders.PrintNotice | src/pages/orders/LiveOrdersPage.tsx:78-119 | an opened window gives a notice starting "Print ticket opened for <id>"; a blocked one gives "Unable to open print preview." |
| LiveOrders.LiveOrderBoard.constructor | src/pages/orders/LiveOrdersPage.tsx:46-48 | the board starts with the three seeded orders, no notice and the form closed |
| LiveOrders.LiveOrderBoard.Advance | src/pages/orders/LiveOrdersPage.tsx:62-76 | the loop yields the list `AdvanceAll` specifies and the notice `NoticeAfter` specifies, and leaves the form flag alone |
| LiveOrders.LiveOrderBoard.Create | src/pages/orders/LiveOrdersPage.tsx:121-136 | the new order goes in front of the list, the notice names it (with " • Rush" for rush orders), and the form closes |
| LiveOrders.LiveOrderBoard.Submit | src/pages/orders/LiveOrdersPage.tsx:258-267 | a form the browser blocks or with blank items changes nothing; otherwise exactly one order, the walk-in built from SubmitSheet's input (so with the form's trimmed items), is added in front, the notice names the walk-in (with the rush mark when set) and the form closes |
| LiveOrders.LiveOrderBoard.Print | src/pages/orders/LiveOrdersPage.tsx:78-119 | the notice reports either the opened ticket or the blocked window, and nothing else changes |
| LiveOrders.LiveOrderBoard.Dismiss | src/pages/orders/LiveOrdersPage.tsx:162 | the notice is cleared and nothing else changes |
| LiveOrders.LiveOrderBoard.OpenSheet | src/pages/orders/LiveOrdersPage.tsx:149 | the form opens and nothing else changes |
| LiveOrders.LiveOrderBoard.CloseSheet | src/pages/orders/LiveOrdersPage.tsx:138-140 | the form closes and nothing else changes |
| Text.TrimStart | src/pages/orders/LiveOrdersPage.tsx:256 | the result is a suffix of the input, only whitespace is dropped, and it does not start with whitespace |
| Text.TrimEnd | src/pages/orders/LiveOrdersPage.tsx:256 | the result is a prefix of the input, only whitespace is dropped, and it does not end with whitespace |
| Text.Trim | src/pages/orders/LiveOrdersPage.tsx:256 | the result is the input with whitespace-only margins cut off, and it neither starts nor ends with whitespace |
| Text.TrimEmptyIff | src/pages/orders/LiveOrdersPage.tsx:256 | the trim is empty exactly when every character is whitespace |
| Text.TrimOfTrimmed | src/pages/orders/LiveOrdersPage.tsx:263 | trimming a string that has no whitespace at either end gives it back |
| Text.UpperChar | src/pages/orders/LiveOrdersPage.tsx:125 | `a`–`z` map to `A`–`Z` and every other character is unchanged; the result is never a lower-case letter |
| Text.ToUpper | src/pages/orders/LiveOrdersPage.tsx:125 | the length is kept and each character is upper-cased |
| Text.UpperKeepsWhitespace | src/pages/orders/LiveOrdersPage.tsx:125 | upper-casing keeps whitespace whitespace and non-whitespace non-whitespace |
| Text.ToUpperIdempotent | src/pages/orders/LiveOrdersPage.tsx:125 | upper-casing twice is upper-casing once |
| Text.ToUpperOfUpper | src/pages/orders/LiveOrdersPage.tsx:125 | a string without lower-case letters is its own upper-case form |
| Text.DecimalString | src/pages/orders/LiveOrdersPage.tsx:347 | `toString()` of a natural number gives digits only, one digit exactly below 10 and two exactly from 10 to 99 |
| Text.PadStart2 | src/pages/orders/LiveOrdersPage.tsx:347 | `padStart(2, "0")` prefixes a single character with "0" and leaves longer strings alone |
| Text.AllDigitsConcat | src/pages/orders/LiveOrdersPage.tsx:350 | joining two runs of digits gives a run of digits |
| Text.TwoDigits | src/pages/orders/LiveOrdersPage.tsx:347-349 | a number below 100 becomes its tens digit followed by its ones digit |
| Text.TwoDigitsRoundTrip | src/pages/orders/LiveOrdersPage.tsx:347-349 | reading the two digits back gives the number |
| Text.FindFirst | src/pages/tables/TableManagementPage.tsx:377 | the result is the first position where the pattern occurs, or -1 when it occurs nowhere |
| Text.ReplaceFirst | src/pages/tables/TableManagementPage.tsx:377 | with no occurrence the string is unchanged; otherwise the first occurrence, and only it, is replaced |
| Text.ReplaceLeadingOccurrence | src/pages/tables/TableManagementPage.tsx:377 | replacing a pattern that the string starts with drops that prefix |
| Text.ReplaceAbsent | src/pages/tables/TableManagementPage.tsx:377 | replacing a pattern that occurs nowhere leaves the string unchanged |
| Seqs.Filter | src/pages/feedback/FeedbackPage.tsx:127-129 | the result is no longer than the input, holds exactly the elements that satisfy the test, and holds each of them as many times as the input does |
| Seqs.FilterIsSubsequence | src/pages/feedback/FeedbackPage.tsx:125-130 | a filter result keeps the input's order |
| Seqs.FilterAll | src/pages/feedback/FeedbackPage.tsx:127 | a test every element passes leaves the sequence whole |
| Seqs.FilterNone | src/pages/feedback/FeedbackPage.tsx:129 | a test no element passes leaves nothing |
| Seqs.IndexOf | src/pages/orders/LiveOrdersPage.tsx:66 | the result is the first position of the value, or -1 exactly when the value is absent |
| Seqs.FindIndex | src/components/layout/AppLayout.tsx:14 | the result is the first position whose element passes the test, or -1 exactly when none does |
| Seqs.Take | src/pages/models/ModelLibraryPage.tsx:214 | `slice(0, n)` is a prefix of length `min(n, length)` |
| Text.Less | src/pages/feedback/FeedbackPage.tsx:127-128 | the string order `<` (its properties are stated by LessTrichotomy) |
| Text.LessTrichotomy | src/pages/feedback/FeedbackPage.tsx:127-128 | the string order is a strict total order: exactly one of `a < b`, `a == b` and `b < a` holds |
| Text.AtLeast | src/pages/feedback/FeedbackPage.tsx:127-128 | the `>=` test of the date filters (its meaning is stated by AtLeastIff) |
| Text.AtLeastIff | src/pages/feedback/FeedbackPage.tsx:127-128 | `a >= b` holds exactly when the strings are equal or `b < a` |
| Analytics.Highlight | src/pages/analytics/AnalyticsPage.tsx:158-160 | the highlight is a category of the breakdown whose percentage is at least every category's |
| Analytics.HighlightIsFirstMaximum | src/pages/analytics/AnalyticsPage.tsx:159 | the highlight sits at a position with a maximal percentage where every earlier percentage is strictly smaller, so ties go to the earliest |
| Analytics.FirstMaximumUnique | src/pages/analytics/AnalyticsPage.tsx:159 | only one position can be the first maximum |
| Analytics.SeededHighlight | src/pages/analytics/AnalyticsPage.tsx:50-57 | with the seeded breakdown the highlight is "Chef tasting" at 32 |
| Feedback.SentimentName | src/pages/feedback/FeedbackPage.tsx:12 | a sentiment's name is one of "Positive", "Neutral" and "Negative" |
| Feedback.FilterFeedback | src/pages/feedback/FeedbackPage.tsx:125-130 | "All" returns the data itself; "Last 7 days" and "Last 30 days" keep every record dated at least "2024-10-25" and "2024-10-02", as often as it occurs, and nothing else; any other value does the same for the records with that sentiment name |
| Feedback.FilterFeedbackSubsequence | src/pages/feedback/FeedbackPage.tsx:156 | every filter keeps the data's order, so the shown count is at most the total |
| Feedback.UnknownFilterShowsNothing | src/pages/feedback/FeedbackPage.tsx:129 | a filter value that names neither a date range nor a sentiment shows no record |
| Feedback.StarRow | src/pages/feedback/FeedbackPage.tsx:255-259 | five stars are drawn |
| Feedback.CountFilled | src/pages/feedback/FeedbackPage.tsx:255-259 | no more stars are filled than are drawn |
| Feedback.Clamp | src/pages/feedback/FeedbackPage.tsx:259 | the clamped rating is between 0 and 5 |
| Feedback.CountFilledPrefix | src/pages/feedback/FeedbackPage.tsx:255-259 | a row whose filled stars are exactly its first n has n filled stars |
| Feedback.StarRowFilled | src/pages/feedback/FeedbackPage.tsx:255-259 | star k is filled exactly when k is below the rating clamped to 0..5, so that many stars are filled |
| Tables.QrUrl | src/pages/tables/TableManagementPage.tsx:22 | the seeded address scheme starts with "https://" |
| Tables.CountStatus | src/pages/tables/TableManagementPage.tsx:55-57 | a status count never exceeds the number of tables |
| Tables.ShortLink | src/pages/tables/TableManagementPage.tsx:377 | the printed link is the address itself or the address shortened by exactly the length of "https://" |
| Tables.OccupancySummary | src/pages/tables/TableManagementPage.tsx:53-58 | `total` is the number of tables, each card holds its own status count, and each count is at most the total |
| Tables.CountsPartition | src/pages/tables/TableManagementPage.tsx:8 | every table has one of three statuses, so the three counts add up to the number of tables |
| Tables.SummaryAddsUp | src/pages/tables/TableManagementPage.tsx:53-58 | available + reserved + occupied = total |
| Tables.SeededSummary | src/pages/tables/TableManagementPage.tsx:15-48 | the seeded floor gives 4 tables: 1 available, 1 reserved, 2 occupied |
| Tables.SeededCount | src/pages/tables/TableManagementPage.tsx:15-48 | counted table by table, the seeded floor has 2 occupied tables and 1 each available and reserved |
| Tables.ShortLinkDropsScheme | src/pages/tables/TableManagementPage.tsx:377 | an address that starts with "https://" prints without it, and putting the scheme back gives the address |
| Tables.ShortLinkWithoutScheme | src/pages/tables/TableManagementPage.tsx:377 | an address that contains no "https://" prints unchanged |
| Tables.ShortLinkOfQrUrl | src/pages/tables/TableManagementPage.tsx:377 | a seeded-scheme address prints as "servesense.app/menu?table=" and the id |
| Tables.SeededQrUrls | src/pages/tables/TableManagementPage.tsx:15-48 | every seeded table's address is the menu address for its own id |
| Tables.SeededQrUrl01 | src/pages/tables/TableManagementPage.tsx:22 | T01's address is the menu address for T01 |
| Tables.SeededQrUrl02 | src/pages/tables/TableManagementPage.tsx:30 | T02's address is the menu address for T02 |
| Tables.SeededQrUrl03 | src/pages/tables/TableManagementPage.tsx:38 | T03's address is the menu address for T03 |
| Tables.SeededQrUrl04 | src/pages/tables/TableManagementPage.tsx:46 | T04's address is the menu address for T04 |
| OrderHistory.HistoryStatusName | src/pages/orders/OrderHistoryPage.tsx:12 | a status's name is "Completed" or "Cancelled" |
| OrderHistory.FilterHistory | src/pages/orders/OrderHistoryPage.tsx:114-117 | "All" returns the archive itself; any other option keeps every order whose status it names, as often as it occurs, and nothing else |
| OrderHistory.FilterHistorySubsequence | src/pages/orders/OrderHistoryPage.tsx:220 | the kept orders stay in archive order, so the shown count is at most the archived total |
| OrderHistory.OtherOptionShowsNothing | src/pages/orders/OrderHistoryPage.tsx:116 | an option that names no status shows no order |
| OrderHistory.StatusViewsPartition | src/pages/orders/OrderHistoryPage.tsx:12 | the Completed and Cancelled views together hold as many orders as the archive |
| OrderHistory.HistoryFilters.constructor | src/pages/orders/OrderHistoryPage.tsx:112 | the page opens on "All" |
| OrderHistory.HistoryFilters.IsHighlighted | src/pages/orders/OrderHistoryPage.tsx:146 | a highlighted button is the option whose orders the table shows |
| OrderHistory.HistoryFilters.Click | src/pages/orders/OrderHistoryPage.tsx:144 | a "Status" button selects its option, which then shows as highlighted; a Table or Date button leaves the selection unchanged |
| ModelLibrary.FilterModels | src/pages/models/ModelLibraryPage.tsx:112-115 | "All" returns the library itself; any other option keeps every model of that category, as often as it occurs, and nothing else |
| ModelLibrary.FilterModelsSubsequence | src/pages/models/ModelLibraryPage.tsx:114 | the filtered grid keeps library order and is never longer than the library |
| ModelLibrary.Assignments | src/pages/models/ModelLibraryPage.tsx:214 | at most three models are listed, as a prefix of the library; exactly three when the library has that many |
| ModelLibrary.ShownHighlights | src/pages/models/ModelLibraryPage.tsx:235 | at most three highlights are listed per model, as a prefix of its list |
| ModelLibrary.SeededFilters | src/pages/models/ModelLibraryPage.tsx:24-46 | with the shipped library, "Desserts" shows the one model and "Pasta", "Beverages" and "Burgers" show nothing |
| ModelLibrary.SeededAssignments | src/pages/models/ModelLibraryPage.tsx:214 | the assignments list the single model with all three of its highlights |
| AppLayout.CurrentNav | src/components/layout/AppLayout.tsx:13-16 | no entry exactly when no entry's path is a prefix of the location; otherwise the entry at the first position whose path is a prefix |
| AppLayout.MatchesPath | src/components/layout/AppLayout.tsx:14 | the `find` test `pathname.startsWith(item.path)`, a raw character prefix; its use is stated by CurrentNav |
| AppLayout.Title | src/components/layout/AppLayout.tsx:30 | the title is the label of the first entry whose path starts the location, or "Restaurant OS" when no path does |
| AppLayout.Description | src/components/layout/AppLayout.tsx:31 | the description is that of the first entry whose path starts the location, and absent when no path does |
| AppLayout.OwnPathSelectsFirstPrefix | src/components/layout/AppLayout.tsx:14 | an entry's own path selects it unless an earlier entry's path is a prefix of it |
| AppLayout.FirstMatchUnique | src/components/layout/AppLayout.tsx:14 | only one entry can be the first match |
| AppLayout.NoEntryMatches | src/config/navigation.ts:8-18 | no navigation path is a prefix of "/orders/history" or "/menu/categories" |
| AppLayout.UnlistedPagesFallBack | src/components/layout/AppLayout.tsx:30 | "/orders/history" and "/menu/categories" match no entry and are titled "Restaurant OS" |
| AppLayout.PrefixIsRaw | src/components/layout/AppLayout.tsx:14 | the match is not segment-aware: "/dashboardX" is titled "Dashboard" |
| AppLayout.SidebarState.constructor | src/components/layout/AppLayout.tsx:10-11 | both sidebar flags start false |
| AppLayout.SidebarState.Close | src/components/layout/AppLayout.tsx:24 | the mobile sidebar closes and the collapse flag is untouched |
| AppLayout.SidebarState.ToggleOpen | src/components/layout/AppLayout.tsx:32 | the open flag is negated, so two toggles restore it, and the collapse flag is untouched |
| AppLayout.SidebarState.ToggleCollapse | src/components/layout/AppLayout.tsx:26 | the collapse flag is negated, so two toggles restore it, and the open flag is untouched |

## Left out

- Text.UpperChar: `toUpperCase` is modelled for ASCII letters only. Full Unicode case mapping, including mappings that change the length such as "ß" to "SS", is not modelled.
- Text.Less: the string order compares characters, which agrees with JavaScript's UTF-16 code-unit order for the ASCII dates compared here but not for characters outside the Basic Multilingual Plane.
- LiveOrders.LiveOrderBoard.Print: the ticket document is not modelled. That covers the `window.open` call, the HTML written into it, and the print/close script. Whether the window opened is a parameter.
- LiveOrders.WalkInId: its own contract gives the read-back of hour, minute and second; that the six clock characters are digits is stated by the lemma WalkInIdDigits instead, which keeps the clause out of every caller's proof.
- LiveOrders.WalkInId: the clock is a parameter (hours, minutes, seconds as `Date` reports them, hence below 24, 60 and 60). `new Date()` itself is not modelled.
- React's state batching is not modelled, and neither is the fact that `handleAdvance` calls `setRecentAction` inside the `setOrders` updater, which StrictMode may run twice. The model runs the updater once, in list order.
- LiveOrders.GuestsAccepted: the guest count uses `Number(...)` of a `type="number"` field, modelled as an integer or blank, and the browser's `min={1}` block is modelled. A field holding text the browser cannot parse reads as "", so the page stores it as blank and the browser then refuses the submit as bad input; the model cannot tell that field from an empty one and submits it with no guest count. Fractional counts, which the step check blocks, lie outside the integer model.
- Floating-point trend deltas, `Math.abs` on them, and the ▲/▼ marks are display only. They are absent from `CategoryMetric` and the feedback themes.
- Static tables (top dishes, peak hours, waste metrics, KPI cards, occupancy zones, theme highlights) are left out. They are rendered without computation.
- The analytics `activeFilter`, the model library's `selectedModel` and the table page's `isCreating` and add-table form are UI selection state with no logic behind them.
- `QRCodeSVG`, `@google/model-viewer`, `createPortal`, react-router (`App.tsx`, `OrdersLayout.tsx`, `useLocation`) and the `model-viewer.d.ts` shim are foreign libraries or declarations. The location is a parameter.
- The socket placeholder and the export buttons are left out because they have no implementation.
- The seeded feedback and order-history records are included as data, but no lemma evaluates the filters over them. Comparing their long string literals is too costly for the solver. The filters' properties are proved for any data.
