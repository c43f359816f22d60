# Dashboard statistics and page logic of the bot admin panel

This project models the logic of an admin panel for a shop bot. It has
two parts.

The server part is `getDashboardStats`. From the list of order records and
the sizes of the two pending-approval collections it builds:

- the number of orders and the revenue text;
- the number of today's orders;
- a seven-day order histogram;
- a six-month revenue trend;
- a keyword breakdown of the ordered items into Electronics, Food, Clothing
  and Other, with rounded percentages and a four-colour palette.

The client part is the small pieces of logic on three pages:

- the System page maps a status word to a text colour and a dot colour, and
  keeps a diagnostic-output log that each diagnostic appends to and the Clear
  button empties;
- the Dashboard page turns the statistics into its two chart series and
  filters the order table by status and a search box;
- the Messages page filters conversations by platform and ignores a blank
  draft when the form is submitted.

Modules, by file:

- `js_values.dfy` (`JsValues`): JavaScript numbers as integers or `NaN`, the
  `+` on them, and `x || 0`.
- `text.dfy` (`Text`): `toLowerCase`, `includes` and `trim`.
- `seqs.dfy` (`Seqs`): `Array.prototype.filter` and its properties.
- `money.dfy` (`Money`): `` `$${revenue.toFixed(2)}` `` on a number of cents,
  and a reader that turns the text back into cents.
- `storage.dfy` (`Storage`): `getDashboardStats`.
  - The two `for` loops and the nested `forEach` that fills the category
    dictionary are methods with loop invariants.
  - Each method is proved against a function.
  - The `reduce` and `filter` expressions are functions.
- `storage_examples.dfy` (`StorageExamples`): the classifier and the
  breakdown worked out on four sample items.
- `system_page.dfy`, `dashboard_page.dfy`, `messages_page.dfy`: the three
  pages. The diagnostic log is a class whose methods update its one field.

How the model represents the system's values:

- **Amounts** are whole cents.
- **Numbers** are `Finite(v)` or `NaN`. This keeps the one place where
  JavaScript arithmetic matters: an `amount` string that `parseFloat` cannot
  read yields `NaN`, and that `NaN` spoils the whole revenue sum.
  - Such an amount does not count as 0: `Storage.RevenueNaN` proves that the
    revenue is `NaN` exactly when some order's resolved amount is.
- **The clock** is fixed. It is given as the eight midnights that bound the
  histogram days (index 6 is today) and the seven first instants that bound
  the trend months.
  - A `createdAt` that makes an invalid date is `None`, so every comparison
    with it fails.
- **`Math.round`** is exact round-half-up.
  - A month total becomes whole dollars: `(c + 50) / 100` with floor
    division.
  - A share becomes a percentage: `(200 * count + total) / (2 * total)`.

Quirks of the code that the model keeps:

- `pendingUsers.size` is read off a number, so the `pendingUsers` field is
  undefined and dropped from the JSON. The model returns `None` whatever the
  count, and `Storage.StatsShape` states it.
- `todayOrders` counts every order from today's midnight on, with no upper
  bound. For one clock reading it is `ordersPerDay[6]` plus the orders dated
  tomorrow or later (`Storage.StatsShape`). The source reads the clock again
  for the day windows, after `today`, so in general it is only at least
  `ordersPerDay[6]` (`Storage.SinceCoversWindow`).
- Only array-valued `items` are classified. A plain string `items` counts
  for nothing.
- The keyword rules are tried in order and the first match wins.
  - "orange juice" contains none of the six keywords, so it is Other
    (`StorageExamples.ClassifyJuice`).
- The rounded percentages of `topCategories` need not add up to 100. They
  add up to between 99 and 102 (`Storage.TopCategoriesPercentSum`), and
  counts 1, 1, 1 and 5 out of 8 give 102
  (`StorageExamples.SharesCanSumTo102`).
- Both chart series are labelled by position (`Mon`..`Sun`, `Jan`..`Jun`),
  not by the actual weekday or month. Past the label list the label is
  `undefined` (`None`).

## Model

| member | source | states |
|---|---|---|
| JsValues.Add | server/storage.ts:222-229 | `+` on numbers is `NaN` exactly when an operand is `NaN`, and otherwise the sum |
| JsValues.Truthy | server/storage.ts:223 | a number is truthy unless it is 0 or `NaN`, as `if (order.total)` and `value \|\| 0` test; `AddOrderAddsAmount` and `OrZero` state its use |
| JsValues.OrZero | client/src/pages/Dashboard.tsx:48-53 | `value \|\| 0` keeps a number and turns `NaN` into 0 |
| Text.Lower | server/storage.ts:271 | `toLowerCase` keeps the length and lowers each character: A-Z to a-z, the Kelvin sign to k, every other character unchanged |
| Text.LowerIdempotent | client/src/pages/System.tsx:142 | lowering twice is lowering once |
| Text.Contains | server/storage.ts:271-275 | `includes`: the text starts with the pattern here or further on; `ContainsIff` states that this is occurrence at some position |
| Text.ContainsIff | server/storage.ts:271-275 | `includes(p)` holds exactly when `p` occurs at some position |
| Text.Trim | client/src/pages/Messages.tsx:123 | `trim`: drop the leading, then the trailing run of ECMAScript white space; `TrimStart`, `TrimEnd`, `TrimIsPiece`, `TrimEnds` and `TrimEmptyIff` state what is left |
| Text.TrimStart | client/src/pages/Messages.tsx:123 | the result is a suffix that does not start with white space, and only white space was dropped |
| Text.TrimEnd | client/src/pages/Messages.tsx:123 | the result is a prefix that does not end with white space, and only white space was dropped |
| Text.TrimIsPiece | client/src/pages/Messages.tsx:123 | `trim` returns a contiguous piece of its input with only white space around it |
| Text.TrimEnds | client/src/pages/Messages.tsx:123 | a non-empty trimmed string starts and ends with a non-space character |
| Text.TrimEmptyIff | client/src/pages/Messages.tsx:123 | `trim` gives "" exactly when the input is all white space |
| Money.FixedMagnitude | server/storage.ts:320 | `toFixed(2)` of a non-negative number of cents: the dollar digits, a point and two cent digits; `MagnitudeText` states that it reads back to the cents |
| Money.ToFixed2 | server/storage.ts:320 | `toFixed(2)` of any number of cents: a minus sign before a negative amount's magnitude; `NegativeRoundTrip` and `NonNegativeRoundTrip` state that it reads back |
| Money.RevenueText | server/storage.ts:320 | `$` followed by `toFixed(2)` of the revenue, or `$NaN`; `RevenueTextRoundTrip` states that the text reads back to the revenue |
| Money.RevenueTextRoundTrip | server/storage.ts:320 | the `$` revenue text reads back to the exact cents, and to nothing for `NaN` |
| Money.NegativeRoundTrip | server/storage.ts:320 | a negative revenue's text, `$-` and the magnitude, reads back to the same negative cents |
| Money.NonNegativeRoundTrip | server/storage.ts:320 | a non-negative revenue's text reads back to the same cents |
| Money.DecimalRoundTrip | server/storage.ts:320 | the decimal digits of a whole number read back to it |
| Money.MagnitudeText | server/storage.ts:320 | two-decimal text of a non-negative number of cents reads back to it |
| Storage.Amount | server/storage.ts:223-228 | the amount one order adds: `total` when truthy, else the parsed `amount` when non-empty, else 0; `RevenueWithout` and `RevenueNaN` state its part in the sum |
| Storage.AddOrder | server/storage.ts:222-229 | one step of the `reduce` callback over the running sum; `AddOrderAddsAmount` states that it adds `Amount` |
| Storage.Revenue | server/storage.ts:222-229 | the `reduce` from 0 over the orders, first to last; `RevenueAppend`, `RevenuePermutation` and `RevenueNaN` state its contract |
| Storage.AddOrderAddsAmount | server/storage.ts:222-229 | each `reduce` step adds the resolved amount: `total` when truthy, otherwise the parsed `amount` when `amount` is non-empty, otherwise 0 |
| Storage.RevenueAppend | server/storage.ts:222-229 | the revenue of two order lists together is the sum of their revenues |
| Storage.RevenueWithout | server/storage.ts:222-229 | an order anywhere in the list adds its resolved amount to the revenue of the others |
| Storage.RevenuePermutation | server/storage.ts:222-229 | the revenue does not depend on the order the records are read in |
| Storage.RevenueNaN | server/storage.ts:222-229 | the revenue is `NaN` exactly when some order's resolved amount is `NaN` |
| Storage.RoundToDollars | server/storage.ts:315 | `Math.round` of a month total is `NaN` exactly for `NaN`, and otherwise within half a dollar of it |
| Storage.OrdersIn | server/storage.ts:256-259 | the orders whose valid `createdAt` lies in a half-open window, in list order (also the month filter at 303-305); `WindowSplitCount`, `WindowSplitOrders` and `DayBucketsDisjoint` state its contract |
| Storage.OrdersSince | server/storage.ts:242-245 | the orders whose valid `createdAt` is at or after an instant, with no upper bound; `SinceSplitCount` relates it to today's window |
| Storage.WindowSplitCount | server/storage.ts:256-259 | splitting a half-open window at an inner instant splits its order count |
| Storage.WindowSplitOrders | server/storage.ts:256-259 | the two halves of a split window hold exactly the window's orders |
| Storage.SinceCoversWindow | server/storage.ts:240-259 | an order in a window starting at or after `today` is counted in `todayOrders`, so `todayOrders` is at least `ordersPerDay[6]` even when the day windows come from a later clock reading |
| Storage.SinceSplitCount | server/storage.ts:240-245 | the orders from today's midnight on are today's window plus those from tomorrow on |
| Storage.DayCount | server/storage.ts:256-259 | the number of orders in histogram day k's window `[day, nextDay)`; `WindowSplitCount` and `DayBucketsDisjoint` state how windows combine |
| Storage.DayCounts | server/storage.ts:248-262 | the reference histogram: the seven day counts, oldest day first; `OrdersPerDay` proves the loop equal to it and `DayPrefixSum` and `HistogramSum` state its sums |
| Storage.OrdersPerDay | server/storage.ts:248-262 | the loop with `i` from 6 down to 0 yields seven counts, oldest day first, each the size of that day's window |
| Storage.DayBucketsDisjoint | server/storage.ts:256-259 | no order lies in two different day windows |
| Storage.DayPrefixSum | server/storage.ts:248-262 | the first k day counts add up to the orders of the window they span |
| Storage.HistogramSum | server/storage.ts:248-262 | the seven day counts add up to the orders of the whole week, at most `totalOrders` |
| Storage.MonthRevenue | server/storage.ts:303-313 | the unrounded revenue of the orders in trend month k's window `[month, nextMonth)`; `MonthsAdd` states that adjacent windows add up |
| Storage.MonthTotals | server/storage.ts:293-316 | the reference trend: the six rounded month revenues, oldest month first; `SalesTrend` proves the loop equal to it and `RoundToDollars` states the rounding |
| Storage.SalesTrend | server/storage.ts:293-316 | the loop with `i` from 5 down to 0 yields six entries, oldest month first, each the rounded revenue of that month's window |
| Storage.MonthsAdd | server/storage.ts:303-313 | the revenues of two adjacent windows add up to the revenue of their union |
| Storage.Classify | server/storage.ts:269-279 | keyword rules on the lower-cased text, first match wins: Electronics, Food, Clothing, else Other; see `ClassifyPriority` and `ClassifyIgnoresCase` |
| Storage.ClassifyIgnoresCase | server/storage.ts:271-278 | an item and its lower-cased text fall in the same category |
| Storage.ClassifyPriority | server/storage.ts:271-278 | Electronics exactly when "phone" or "electronic" occurs; Food exactly when no Electronics keyword occurs but "food" or "drink" does; Other exactly when none of the six keywords occurs |
| Storage.ItemCategories | server/storage.ts:266-268 | the categories of all items of all orders with array `items`, in visiting order; `OrderCategories` and `NoArraysNoCategories` state its contract |
| Storage.OrderCategories | server/storage.ts:266-269 | an order without array `items` contributes nothing; an array contributes one category per element |
| Storage.NoArraysNoCategories | server/storage.ts:267 | when no order has array `items`, nothing is classified |
| Storage.FirstSeen | server/storage.ts:286 | the dictionary's keys: exactly the categories that occur, each once |
| Storage.FirstSeenOrder | server/storage.ts:286 | the keys are in the order their categories first occur |
| Storage.CountMap | server/storage.ts:272-278 | the dictionary has an entry exactly for each category that occurs |
| Storage.CountMapSnoc | server/storage.ts:272-278 | one more item adds 1 to its category's count, or creates the count at 1 |
| Storage.FirstSeenStep | server/storage.ts:272-286 | one more item appends its category to the key order only when the category is new |
| Storage.CountOne | server/storage.ts:272-278 | one `(categoryCount[c] \|\| 0) + 1` keeps the dictionary equal to the keys and counts of the items seen, now one more |
| Storage.TallyOrder | server/storage.ts:267-281 | the inner `forEach` over one order's items extends the tally by exactly that order's categories |
| Storage.CountCategories | server/storage.ts:265-282 | the nested `forEach` leaves the keys in first-seen order and, for each, the number of items in that category |
| Storage.SumCounts | server/storage.ts:285 | `totalCategoryItems`: the counts of the keys added up; `TallyTotal` states that it is the number of classified items |
| Storage.TallyTotal | server/storage.ts:285 | the counts add up to the number of classified items |
| Storage.TallyTotalSnoc | server/storage.ts:285 | one more item raises the sum of the counts by one |
| Storage.Percent | server/storage.ts:288 | `Math.round(count / total * 100)` on exact rationals, 0 for an empty total; `PercentBounds` and `PercentNear` state its contract |
| Storage.PercentBounds | server/storage.ts:288 | the percentage is `100 * count / total` rounded half up, and lies in 0..100 |
| Storage.PercentNear | server/storage.ts:288 | for any count, the rounded share is within half a percent of the exact share `100 * count / total` |
| Storage.CategoryList | server/storage.ts:286-290 | one entry per dictionary key |
| Storage.TopCategories | server/storage.ts:286-290 | the entry list over the first-seen keys, or, as at lines 325-327, the placeholder entry when it is empty; see `TopCategoriesEntries`, `TopCategoriesOrder`, `TopCategoriesPlaceholder` and `TopCategoriesPercentSum` |
| Storage.TopCategoriesIsList | server/storage.ts:285-290 | with some item classified, `topCategories` is the entry list over the number of items |
| Storage.TopCategoriesEntries | server/storage.ts:286-290 | entry i names the i-th key, has colour `palette[i % 4]` and the rounded share of that category, between 0 and 100 |
| Storage.TopCategoriesOrder | server/storage.ts:286-290 | entry names are distinct and follow first-seen order |
| Storage.CategoryNameInjective | server/storage.ts:272-278 | the four categories have four distinct names |
| Storage.TopCategoriesPlaceholder | server/storage.ts:325-327 | `topCategories` is the single "No categories yet" entry exactly when no item was classified |
| Storage.PercentSumNear | server/storage.ts:285-290 | k entries' percentages add up to within k halves of 100 times the summed counts over the total |
| Storage.AtMostFourKeys | server/storage.ts:272-278 | the dictionary has at most four keys |
| Storage.TopCategoriesPercentSum | server/storage.ts:285-290 | once some item is classified, the percentages add up to between 99 and 102, not always to 100 |
| Storage.Stats | server/storage.ts:318-329 | the statistics record assembled from the counts, revenue, day counts, month totals and categories; `StatsShape` states each field's contract |
| Storage.GetDashboardStats | server/storage.ts:216-330 | the method builds exactly the statistics record of its inputs |
| Storage.StatsShape | server/storage.ts:218-330 | `totalOrders` is the order count; the revenue text reads back to the revenue; `pendingUsers` is absent; seven day counts, each the size of its day's window, summing to at most `totalOrders`; `pendingOrders` is the pending-approval count; for one clock reading, `todayOrders` is the last day count plus the later-dated orders, so at least it; six trend entries, each a rounded month revenue, so the zero fallback is never used; `topCategories` non-empty |
| StorageExamples.ClassifyPhoneCase | server/storage.ts:271-272 | "iPhone case" is Electronics after lower-casing |
| StorageExamples.PastFirstTwoRules | server/storage.ts:271-276 | an item missing one letter of each of "phone", "electronic", "food" and "drink" is Clothing or Other by the last two rules alone |
| StorageExamples.AtLastRule | server/storage.ts:271-279 | an item missing one letter of each of the six keywords is Other |
| StorageExamples.ClassifyJuice | server/storage.ts:271-278 | "orange juice" is Other |
| StorageExamples.ClassifyTShirt | server/storage.ts:275-276 | "t-shirt" is Clothing |
| StorageExamples.ClassifyWidget | server/storage.ts:277-278 | "random widget" is Other |
| StorageExamples.FirstSeenOfFour | server/storage.ts:265-286 | Electronics, Other, Clothing, Other give the keys Electronics, Other, Clothing in that order |
| StorageExamples.CountsOfFour | server/storage.ts:265-282 | Electronics, Other, Clothing, Other give the counts 1, 2, 1 |
| StorageExamples.ListOfThree | server/storage.ts:286-290 | counts 1, 2, 1 of 4 give 25, 50 and 25 percent in the first three palette colours |
| StorageExamples.SharesCanSumTo102 | server/storage.ts:285-290 | counts 1, 1, 1 and 5 out of 8 give 13, 13, 13 and 63 percent, 102 in all |
| StorageExamples.BreakdownOfOneOrder | server/storage.ts:264-290 | an order whose items classify as Electronics, Other, Clothing, Other has that three-entry breakdown |
| StorageExamples.ExampleBreakdown | server/storage.ts:264-290 | the order holding the four sample items has that three-entry breakdown |
| SystemPage.ToneOf | client/src/pages/System.tsx:141-171 | the colour family of the lower-cased status, shared by both `switch` statements; `StatusColor`, `StatusDot` and `ColorAndDotAgree` state its contract |
| SystemPage.StatusColor | client/src/pages/System.tsx:141-155 | the text class is `text-<tone>-400` for the tone of the lower-cased status: green for online/active/connected, yellow for monitoring, red for offline/inactive, gray otherwise |
| SystemPage.StatusDot | client/src/pages/System.tsx:157-171 | the dot class is `bg-<tone>-500` for the same tone |
| SystemPage.ToneNameInjective | client/src/pages/System.tsx:141-171 | distinct tones have distinct names, so each class shows one tone |
| SystemPage.ColorAndDotAgree | client/src/pages/System.tsx:141-171 | the label and the dot of a status are always in the same colour family |
| SystemPage.StatusIgnoresCase | client/src/pages/System.tsx:142 | a status and its lower-cased form get the same text class and dot class |
| SystemPage.ShownStatus | client/src/pages/System.tsx:240 | `status \|\| ''` passes a non-empty status unchanged |
| SystemPage.MissingStatusIsGray | client/src/pages/System.tsx:240-242 | a missing or empty status is drawn gray, label and dot |
| SystemPage.DiagnosticLog.constructor | client/src/pages/System.tsx:52 | the log starts empty and the output panel hidden |
| SystemPage.DiagnosticLog.Append | client/src/pages/System.tsx:126 | the log becomes the old log, a line break and the output; the old log is a prefix of the new one, and the panel is shown |
| SystemPage.DiagnosticLog.Shown | client/src/pages/System.tsx:344 | the output panel is shown exactly when the log is non-empty; the constructor, `Append` and `Clear` state its value after each step |
| SystemPage.DiagnosticLog.Clear | client/src/pages/System.tsx:349 | the log becomes "" and the panel is hidden |
| Seqs.Filter | client/src/pages/Dashboard.tsx:56-63 | `Array.prototype.filter`: the kept elements in order, never more than the input; `FilteredOrdersKeepMatches` and `OnePlatformKeepsMatches` state its contract through `FilterIsSubsequence`, `FilterMembers` and `FilterCounts` |
| DashboardPage.MatchesStatus | client/src/pages/Dashboard.tsx:57 | status "all", or the order or payment status equal to the filter; `FilteredOrdersKeepMatches` and `UnfilteredShowsAll` state its effect |
| DashboardPage.MatchesSearch | client/src/pages/Dashboard.tsx:58-61 | an empty search, or the lower-cased search inside the lower-cased name, number or items; `SearchIgnoresCase` states its contract |
| DashboardPage.FilteredOrders | client/src/pages/Dashboard.tsx:56-63 | no rows before the orders arrive; never more rows than the table |
| DashboardPage.FilteredOrdersKeepMatches | client/src/pages/Dashboard.tsx:56-63 | the shown rows are a subsequence of the table; a row is shown exactly when it passes the status filter and the search; a passing row is shown as many times as the table holds it |
| DashboardPage.UnfilteredShowsAll | client/src/pages/Dashboard.tsx:57-58 | status "all" with an empty search shows the table unchanged |
| DashboardPage.SearchIgnoresCase | client/src/pages/Dashboard.tsx:58-61 | a search and its lower-cased form match the same rows |
| DashboardPage.ChartData | client/src/pages/Dashboard.tsx:46-49 | one bar per day count with that count, labelled `Mon`..`Sun` by position and only for the first seven positions; nothing before the statistics arrive |
| DashboardPage.SalesData | client/src/pages/Dashboard.tsx:51-54 | one point per trend entry with `NaN` drawn as 0, labelled `Jan`..`Jun` by position and only for the first six positions; nothing before the statistics arrive |
| DashboardPage.ChartsOfServerStats | client/src/pages/Dashboard.tsx:46-54 | for statistics built by the server the bars are Mon..Sun with the seven day counts and the points Jan..Jun, none unlabelled |
| MessagesPage.FilteredConversations | client/src/pages/Messages.tsx:128-131 | nothing before the list arrives; never more conversations than the list |
| MessagesPage.AllPlatformsShowsAll | client/src/pages/Messages.tsx:129 | under "all" the list is shown unchanged |
| MessagesPage.OnePlatformKeepsMatches | client/src/pages/Messages.tsx:128-131 | under another platform, the list in its order, with a conversation shown exactly when its platform is selected, as often as in the list |
| MessagesPage.HasText | client/src/pages/Messages.tsx:123 | `newMessage.trim()` is truthy: the trimmed draft is non-empty; `SendsUnlessBlank` states that this is not all white space |
| MessagesPage.SendDisabled | client/src/pages/Messages.tsx:312 | the button is disabled while a send is pending or the draft has no text; `EnabledMeansSent` states its contract |
| MessagesPage.SendOnSubmit | client/src/pages/Messages.tsx:121-126 | what is sent is the draft exactly as typed, not trimmed |
| MessagesPage.SendsUnlessBlank | client/src/pages/Messages.tsx:123-124 | submitting sends exactly when the draft is not all white space |
| MessagesPage.EnabledMeansSent | client/src/pages/Messages.tsx:312 | the button is enabled exactly when no send is pending and submitting would send the draft; an all-white-space draft always disables it |

## Left out

- Reading the three Mongo collections (server/storage.ts:217-237). The
  orders and the two collection sizes are inputs.
- Separate clock readings. The source calls `new Date()` for `today`
  (server/storage.ts:240), again for each histogram day (250) and again for
  each trend month (295). The model takes every boundary from one `Clock`,
  which is one reading. If a request crosses midnight or a month boundary,
  the real day and month windows can shift relative to `today`. For example,
  with one order at noon on day D and midnight passing after line 240,
  `todayOrders` is 1 but `ordersPerDay[6]` plus the later orders is 0. Only
  `todayOrders >= ordersPerDay[6]` survives such a crossing
  (`Storage.SinceCoversWindow`).
- JavaScript `Date` arithmetic (server/storage.ts:240-254, 295-301). The
  boundaries are inputs: `Clock` has eight day midnights and seven month
  starts.
  - `Ascending` assumes they increase, as the calendar guarantees.
  - The local-time, daylight-saving and `setMonth` overflow rules that
    produce them are not modelled.
  - Seven shared month starts cannot express the month windows the source
    builds on the 29th to the 31st (server/storage.ts:295-301). On 31
    October, `setMonth` overflows and the windows are May, July, July,
    August, October, October: June and September are skipped and two
    months are counted twice.
  - `new Date(null)` is the epoch. A null `createdAt` is therefore
    `Some(0)`, and only an invalid date is `None`.
- Floating point. Amounts are exact cents.
  - `parseFloat` is the input field `parsedAmount`.
  - `toFixed(2)` is exact decimal output of the cents. Exponent notation at
    1e21 dollars and above is not reproduced.
- Storage.Percent: the model rounds the exact share `100 * count / total`.
  The source rounds the floating product `count / total * 100`, which can
  land just below a half. For 29 items out of 200 the source gives 14 and the
  model 15.
- Storage.RoundToDollars: rounds an exact number of cents. Float
  accumulation error in the month sum is not modelled.
- `JSON.stringify` of a non-string item (server/storage.ts:269). The model
  takes its text as given and keeps it opaque (`ObjectItem`).
- Text.Lower: lowers only A-Z and the Kelvin sign. Unicode case mappings of
  other letters are not modelled. These include letters whose lower case is
  longer than one character.
  - This affects only the Dashboard search (`DashboardPage.MatchesSearch`,
    client/src/pages/Dashboard.tsx:58-61). Searching "JOSÉ" finds "josé" in
    the source but not in the model.
  - Keyword classification (server/storage.ts:271-278) and the status colours
    (client/src/pages/System.tsx:142) stay exact. Their words are plain
    ASCII. Besides the Kelvin sign, the only character whose lower case holds
    an ASCII letter is U+0130. It lowers to two characters, "i" followed by
    U+0307. An "i" that is followed by U+0307 only completes a word that
    ends in "i", and no keyword or status word does.
- The `pendingUsers` count (server/storage.ts:236-237, 321). It is an input
  of `Storage.Stats` but never reaches the result, because the code reads
  `.size` off a number. No corrected version is modelled.
- The diagnostic route's output text (server/routes.ts:191-239). It calls
  Mongo and the process, so `DiagnosticLog.Append` takes the output as a
  parameter.
  - The error path is not modelled: a failed diagnostic leaves the log
    untouched and only shows a toast.
- Rendering, animation, toasts, react-query fetching and mutation state.
  - The page data (`stats`, `orders`, `conversations`) are `Option` inputs,
    with `None` for data not yet loaded.
  - The send mutation's pending flag is a parameter.
- On the Dashboard page, `items.toLowerCase()` assumes the row's `items` is
  text, as the table's column type declares, and this model does the same.
  An array-valued `items` would make the page throw, and that is not
  modelled.
- Hard-coded figures: `getXenditBalance` (server/storage.ts:332-338) and the
  fixed chart and log data of the pages.
