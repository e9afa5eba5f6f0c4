# Delivery-partner app: store reducers, order lifecycle and earnings logic in Dafny

This project models the logic core of a React Native client used by delivery partners. The rest of that app is rendering code. The model covers:

- **Store slices.** The Redux slices for earnings, orders, support tickets, the session (auth) and app preferences. Each slice is a Dafny class whose fields are the slice's state. Each reducer case is a method that changes exactly the fields the source assigns.
- **Order details screen.** The order lookup, the "next action" rule that encodes the order lifecycle `assigned → accepted → picked → en_route → delivered`, the reject button condition and the payment summary.
- **Wallet screen.** The guard chain run before a payout request, and the condition that disables the withdraw button.
- **Transactions screen.** The filter by kind, the total of the listed entries and the entry count.
- **Formatters.** `formatTime`, `formatPhoneNumber`, `truncateText`, the status label and colour tables, and `calculateEarnings` (the day/week/month rollup).

Conventions:

- Money is in integer minor units (paise). The ₹100 payout floor is `MinimumPayout = 10000`.
- Times are integer timestamps. `calculateEarnings` receives the start of the day, week and month as parameters instead of reading the clock.
- An order's `createdAt` is `None` when its date string does not parse. JavaScript compares an Invalid Date false against everything, so such an order falls in no bucket.
- `null`/`undefined` are `Option.None`.
- `truncateText` works on text as JavaScript stores it, a sequence of UTF-16 code units (`Formatters.JsText`), because `length` and `slice` count those. `Formatters.Utf16` encodes a Dafny string into that form. The other formatters work on characters. For them it makes no difference, because they only compare whole strings or pick out ASCII digits.
- A backend reply is `ApiResponse(success, data, message, error)`.
- JavaScript truthiness is spelled out where the source relies on it:
  - an empty string is falsy (error messages, stored credentials);
  - `0` is falsy (the payout's returned pending amount);
  - an array is always truthy, so `data || []` falls back only when `data` is absent.

## Behaviour of the source worth knowing

These facts about the source are easy to miss. The model keeps each of them:

- No reducer checks order-status transitions, and no reducer raises an "invalid transition" error.
- The only place the lifecycle is encoded is the order-details screen's next-action rule.
- `rejectOrder` has no reducer case, so a rejected order stays in the active list.
- A delivered order is never moved to the history.
- A successful payout does not take the amount out of the balance. It only replaces the pending amount with the one the backend returns.
- There is no reducer-level payout validation. The payout checks (valid amount, enough balance, ₹100 minimum) live in the wallet screen.
- A login reply whose user is null is stored as the text `"null"` (authSlice.ts:26 and :44). `loadStoredAuth` treats that text as present and restores a signed-in session without a user. So the only invariant the session keeps is that a signed-in session has a token (`AuthSlice.AuthState.Valid`).

## Model

| member | source | states |
|---|---|---|
| `Types.ParseStatus` | src/types/index.ts:59-66 | A string maps to the enum member whose value it is, and to nothing when no member has that value |
| `Lists.FindIndex` | src/store/slices/ordersSlice.ts:77-78 | `findIndex` returns the first matching position, and returns none exactly when no element matches |
| `Lists.Find` | src/screens/orders/OrderDetailsScreen.tsx:25 | `find` returns a matching element that sits at the first matching position, and returns none exactly when nothing matches |
| `Lists.ReplaceFirst` | src/store/slices/ordersSlice.ts:76-81 | The find-then-assign update keeps the length. It puts the new element at the first match and leaves every other position as it was. It is the identity when nothing matches |
| `Lists.ReplaceFirstIdempotent` | src/store/slices/ordersSlice.ts:76-81 | Applying the same update twice gives the same list as applying it once |
| `Lists.Filter` | src/screens/earnings/TransactionsScreen.tsx:44 | `filter` keeps only elements that pass, keeps every element that passes, and is never longer than its input |
| `Lists.FilterCounts` | src/screens/earnings/TransactionsScreen.tsx:44 | A filtered list holds each passing element exactly as often as the input does, and holds no other element |
| `Lists.FilterIsSubsequence` | src/screens/earnings/TransactionsScreen.tsx:44 | A filtered list is a subsequence of the input, so relative order is kept |
| `Lists.FilterAppend` | src/utils/formatters.ts:87 | Filtering a concatenation equals concatenating the filtered parts |
| `Lists.FilterKeepsAll` | src/utils/formatters.ts:87 | Filtering a list whose elements all pass returns the list unchanged |
| `Lists.FindSkipsNonMatchingPrefix` | src/screens/orders/OrderDetailsScreen.tsx:25 | When nothing in the first list matches, `find` on the concatenation returns what `find` on the second list returns |
| `Formatters.FormatTime` | src/utils/formatters.ts:12-19 | Under 60 minutes the text is the signed numeral followed by "min". From 60 on it is "<h>h <r>min" with h ≥ 1, 0 ≤ r < 60 and h·60 + r = minutes |
| `Formatters.FormatTimeRoundTrip` | src/utils/formatters.ts:12-19 | Reading a printed duration back gives the original number of minutes |
| `Formatters.FormatTimeInjective` | src/utils/formatters.ts:12-19 | Two durations that print the same text are equal |
| `Formatters.DigitsOf` | src/utils/formatters.ts:87 | `replace(/\D/g, '')` leaves only digits, in the input's order. Each digit occurs as often as in the input |
| `Formatters.FormatPhoneNumber` | src/utils/formatters.ts:85-92 | With exactly ten digits the result is "+91 " + first five digits + " " + last five digits, 15 characters in all. Otherwise it is the input exactly as given, not its digits-only form |
| `Formatters.PhoneLayoutDigits` | src/utils/formatters.ts:88-89 | The digits of the "+91 ddddd ddddd" layout of ten digits are 91 followed by those ten digits |
| `Formatters.FormatPhoneKeepsDigits` | src/utils/formatters.ts:85-92 | A formatted number has the input's ten digits, with 91 in front |
| `Formatters.FormatPhoneIdempotent` | src/utils/formatters.ts:85-92 | Formatting a formatted number changes nothing, because it has twelve digits |
| `Formatters.SliceTo` | src/utils/formatters.ts:96 | `slice(0, end)` counts a negative end back from the end of the text, clamps it at 0, and clamps an end past the text to its length |
| `Formatters.TruncateText` | src/utils/formatters.ts:94-97 | Lengths are UTF-16 code units. Text within the limit is returned unchanged. With maxLength ≥ 3, longer text becomes its first maxLength−3 units plus "...", exactly maxLength long. With maxLength < 3 the negative slice end counts from the back |
| `Formatters.TruncateIdempotent` | src/utils/formatters.ts:94-97 | With maxLength ≥ 3, truncating twice is the same as truncating once |
| `Formatters.TruncateBelowThreeOverflows` | src/utils/formatters.ts:96 | With maxLength < 3, a text over the limit never comes back within it. With maxLength 1 or 2 it comes back longer than it was, by maxLength |
| `Formatters.TruncateCountsCodeUnits` | src/utils/formatters.ts:95-96 | Four emoji are eight code units, so a limit of 5 cuts them to one emoji and "..." |
| `Formatters.TruncateCanSplitSurrogatePair` | src/utils/formatters.ts:96 | The cut can keep the high half of a surrogate pair without its low half |
| `Formatters.FormatOrderStatus` | src/utils/formatters.ts:47-64 | A known status gets its label. The result equals the input exactly when the input is not one of the six statuses |
| `Formatters.StatusLabelsDistinct` | src/utils/formatters.ts:47-64 | The six statuses have pairwise different labels |
| `Formatters.GetOrderStatusColor` | src/utils/formatters.ts:66-83 | A known status gets its colour. The result is the grey `#6B7280` exactly when the input is not one of the six statuses |
| `Formatters.StatusColorsDistinct` | src/utils/formatters.ts:66-83 | The six statuses have pairwise different colours |
| `Formatters.CreatedSince` | src/utils/formatters.ts:108-113 | An order whose date does not parse belongs to no bucket. An order created exactly at the start belongs to it |
| `Formatters.CalculateEarnings` | src/utils/formatters.ts:99-119 | Each of today, week and month is the sum of delivery fees over orders created at or after that bucket's start. There is no upper bound and the status is never read |
| `Formatters.BucketSumAntitone` | src/utils/formatters.ts:106-117 | With non-negative fees, a later bucket start never yields a larger sum |
| `Formatters.TodayWithinWeekAndMonth` | src/utils/formatters.ts:100-113 | When the day starts no earlier than the week and the month, today ≤ week and today ≤ month |
| `Formatters.WeekCanExceedMonth` | src/utils/formatters.ts:101-113 | week ≤ month can fail: when the week began in the previous month, an order from those days counts for the week only |
| `Formatters.BucketStartInclusive` | src/utils/formatters.ts:111-113 | An order created exactly at a bucket's start counts in that bucket |
| `Formatters.BucketSumReadsOnlyTimesAndFees` | src/utils/formatters.ts:106-117 | Two order lists that agree on creation times and fees have equal bucket sums, whatever their statuses |
| `Formatters.AllRecentOrdersCount` | src/utils/formatters.ts:106-117 | When every order is created at or after the start, the bucket is the total of all fees |
| `EarningsSlice.EarningsState.constructor` | src/store/slices/earningsSlice.ts:12-22 | The initial state has an all-zero wallet, no transactions, no loading and no error |
| `EarningsSlice.EarningsState.ClearError` | src/store/slices/earningsSlice.ts:53-55 | `error` becomes null and nothing else changes |
| `EarningsSlice.EarningsState.AddEarning` | src/store/slices/earningsSlice.ts:56-65 | The entry goes to the head of the log and the total grows by its amount. A cash entry is added to cash in hand, any other to the balance. The pending amount is untouched |
| `EarningsSlice.Posted` | src/store/slices/earningsSlice.ts:56-65 | One posting adds the amount to the total and to exactly one of balance and cash in hand (cash in hand for a cash entry). The pending amount is unchanged |
| `EarningsSlice.PostingCommutes` | src/store/slices/earningsSlice.ts:56-65 | Two postings give the same wallet in either order |
| `EarningsSlice.PostingKeepsTotalSplit` | src/store/slices/earningsSlice.ts:56-65 | totalEarnings − balance − cashInHand and the pending amount are the same before and after a posting |
| `EarningsSlice.PostedAllSums` | src/store/slices/earningsSlice.ts:56-65 | Posting a list of entries adds their sum to the total, the sum of the cash entries to cash in hand and the sum of the other entries to the balance. Penalties are added like any other amount |
| `EarningsSlice.EarningsState.FetchWalletPending` | src/store/slices/earningsSlice.ts:70-72 | Loading starts and nothing else changes |
| `EarningsSlice.EarningsState.FetchWalletFulfilled` | src/store/slices/earningsSlice.ts:73-78 | Loading stops. On success with data the wallet becomes that data. Otherwise the wallet is kept |
| `EarningsSlice.EarningsState.FetchWalletRejected` | src/store/slices/earningsSlice.ts:79-82 | Loading stops and the error becomes the message, or the default text when the message is absent or empty. The error is never empty |
| `EarningsSlice.EarningsState.FetchTransactionsFulfilled` | src/store/slices/earningsSlice.ts:84-88 | On success the log becomes the data, or the empty list when data is absent. On failure the log is kept |
| `EarningsSlice.EarningsState.RequestPayoutFulfilled` | src/store/slices/earningsSlice.ts:90-95 | Only the pending amount can change: it takes the returned value when success holds and that value is present and non-zero. The balance is never reduced |
| `OrdersSlice.RejectOrderIsUnhandled` | src/store/slices/ordersSlice.ts:83-129 | No case of the slice handles any `rejectOrder` action |
| `OrdersSlice.UpdateOrderInListIdempotent` | src/store/slices/ordersSlice.ts:76-81 | Sending the same `updateOrderInList` payload twice has the same effect as sending it once |
| `OrdersSlice.OrdersState.constructor` | src/store/slices/ordersSlice.ts:13-19 | The initial state has empty active and history lists, no current order, no loading and no error |
| `OrdersSlice.OrdersState.SetCurrentOrder` | src/store/slices/ordersSlice.ts:66-68 | Only the current order changes |
| `OrdersSlice.OrdersState.ClearError` | src/store/slices/ordersSlice.ts:69-71 | Only `error` changes, to null |
| `OrdersSlice.OrdersState.AddNewOrder` | src/store/slices/ordersSlice.ts:72-75 | The order is prepended to the active list, so the length grows by one and the head is the payload. The history is untouched |
| `OrdersSlice.OrdersState.ReplaceActive` | src/store/slices/ordersSlice.ts:77-80 | The active list becomes `ReplaceFirst` of itself, matching on the order's id |
| `OrdersSlice.OrdersState.UpdateOrderInList` | src/store/slices/ordersSlice.ts:76-81 | The first active order with the payload's id is replaced. Nothing else changes |
| `OrdersSlice.OrdersState.FetchActivePendingCase` | src/store/slices/ordersSlice.ts:86-88 | Loading starts and nothing else changes |
| `OrdersSlice.OrdersState.FetchActiveFulfilledCase` | src/store/slices/ordersSlice.ts:89-94 | Loading stops. On success the active list becomes the data, or the empty list when data is absent |
| `OrdersSlice.OrdersState.FetchActiveRejectedCase` | src/store/slices/ordersSlice.ts:95-98 | Loading stops and the error becomes non-empty |
| `OrdersSlice.OrdersState.FetchHistoryFulfilledCase` | src/store/slices/ordersSlice.ts:100-104 | On success the history becomes the data, or the empty list when data is absent. The active list is untouched |
| `OrdersSlice.OrdersState.AcceptFulfilledCase` | src/store/slices/ordersSlice.ts:106-115 | On success with data, the matching active order is replaced and the returned order becomes current, even when it is absent from the list. Any other response changes nothing |
| `OrdersSlice.OrdersState.UpdateStatusFulfilledCase` | src/store/slices/ordersSlice.ts:117-128 | On success with data, the matching active order is replaced, and the current order is replaced only when its id matches. No transition check is made and nothing moves to the history |
| `OrdersSlice.OrdersState.Dispatch` | src/store/slices/ordersSlice.ts:62-130 | An action without a case, such as any `rejectOrder` action, leaves every field unchanged |
| `TicketsSlice.TicketsState.constructor` | src/store/slices/ticketsSlice.ts:11-15 | The initial state has no tickets, no loading and no error |
| `TicketsSlice.TicketsState.ClearError` | src/store/slices/ticketsSlice.ts:51-53 | Only `error` changes, to null |
| `TicketsSlice.TicketsState.FetchTicketsPending` | src/store/slices/ticketsSlice.ts:58-60 | Loading starts and nothing else changes |
| `TicketsSlice.TicketsState.FetchTicketsFulfilled` | src/store/slices/ticketsSlice.ts:61-66 | Loading stops. On success the list becomes the data, or the empty list when data is absent |
| `TicketsSlice.TicketsState.FetchTicketsRejected` | src/store/slices/ticketsSlice.ts:67-70 | Loading stops and the error becomes non-empty |
| `TicketsSlice.TicketsState.CreateTicketFulfilled` | src/store/slices/ticketsSlice.ts:72-76 | On success with data the new ticket is prepended. Otherwise nothing changes |
| `TicketsSlice.TicketsState.UpdateTicketFulfilled` | src/store/slices/ticketsSlice.ts:78-85 | On success with data, the first ticket with the same id is replaced and the length is kept. With no match, or any other response, nothing changes |
| `AuthSlice.RestoreSession` | src/store/slices/authSlice.ts:80-88 | Credentials are restored exactly when the stored token and the stored user text are both present and non-empty. The user is whatever parsing that text yields, possibly null. The refresh token is passed on as found, possibly absent |
| `AuthSlice.StoredNullUserRestoresWithoutUser` | src/store/slices/authSlice.ts:80-88 | A user stored as the text `"null"` passes the check, and the restored session has the token but no user |
| `AuthSlice.MergeUser` | src/store/slices/authSlice.ts:111 | The merged user is what combining the user's own fields with the patch gives, the patch winning |
| `AuthSlice.MergeExtremes` | src/store/slices/authSlice.ts:109-115 | A profile patch that names no field keeps the user. One that names every field replaces the user |
| `AuthSlice.MergeComposes` | src/store/slices/authSlice.ts:109-115 | Two profile updates in a row equal one update in which the later payload wins. Repeating an update changes nothing |
| `AuthSlice.AuthState.constructor` | src/store/slices/authSlice.ts:6-12 | The initial state has no user, no tokens, is not authenticated and is not loading |
| `AuthSlice.AuthState.ClearAuthError` | src/store/slices/authSlice.ts:106-108 | Only `isLoading` changes, to false |
| `AuthSlice.AuthState.UpdateUserProfile` | src/store/slices/authSlice.ts:109-115 | A present user becomes the merge of the payload over it. With no user nothing changes |
| `AuthSlice.AuthState.LoginPending` | src/store/slices/authSlice.ts:120-122 | Loading starts and nothing else changes |
| `AuthSlice.AuthState.LoginFulfilled` | src/store/slices/authSlice.ts:123-131 | Loading stops. On success with data, the reply's user (possibly null) and both tokens are installed and the session is authenticated. Otherwise the credentials and the flag are kept |
| `AuthSlice.AuthState.LoginRejected` | src/store/slices/authSlice.ts:132-135 | Loading stops and the session is not authenticated. The user and tokens are kept |
| `AuthSlice.AuthState.LoadStoredAuthFulfilled` | src/store/slices/authSlice.ts:154-161 | Restored credentials are installed, including a null user, and the session is authenticated. A null payload changes nothing. A signed-in session keeps a token |
| `AuthSlice.AuthState.RefreshTokenFulfilled` | src/store/slices/authSlice.ts:163-168 | On success with data only the two tokens change. The user and the flag are kept |
| `AuthSlice.AuthState.LogoutFulfilled` | src/store/slices/authSlice.ts:170-176 | Every field returns to its initial value |
| `AppSlice.AppState.constructor` | src/store/slices/appSlice.ts:13-18 | The initial state is light theme, English, offline and no location |
| `AppSlice.AppState.SetTheme` | src/store/slices/appSlice.ts:24-26 | The theme becomes the payload and the other three fields are kept |
| `AppSlice.AppState.SetLanguage` | src/store/slices/appSlice.ts:27-29 | The language becomes the payload and the other three fields are kept |
| `AppSlice.AppState.SetOnlineStatus` | src/store/slices/appSlice.ts:30-32 | The online flag becomes the payload whatever its previous value, and the other three fields are kept |
| `AppSlice.AppState.SetCurrentLocation` | src/store/slices/appSlice.ts:33-35 | The location becomes the payload (or none) and the other three fields are kept |
| `OrderDetails.LookupOrder` | src/screens/orders/OrderDetailsScreen.tsx:25-37 | A found order has the requested id and comes from one of the two lists. Nothing is found exactly when neither list has the id. When no active order has the id, the result is the first history order with it |
| `OrderDetails.LookupPrefersActive` | src/screens/orders/OrderDetailsScreen.tsx:25 | When an active order has the id, the result is the first such active order, whatever the history holds |
| `OrderDetails.GetNextAction` | src/screens/orders/OrderDetailsScreen.tsx:100-113 | There is no action exactly for delivered and cancelled. The accept action is offered exactly for assigned. No action asks for cancelled |
| `OrderDetails.Position` | src/types/index.ts:59-66 | Every status except cancelled has a place in the lifecycle sequence |
| `OrderDetails.NextActionIsSuccessor` | src/screens/orders/OrderDetailsScreen.tsx:100-109 | Every offered action asks for the immediate successor of the current status in the lifecycle: it never goes back and never skips |
| `OrderDetails.SuccessorIsOffered` | src/screens/orders/OrderDetailsScreen.tsx:100-109 | Every lifecycle status before delivered is offered its successor |
| `OrderDetails.FollowReachesDelivered` | src/screens/orders/OrderDetailsScreen.tsx:100-113 | From lifecycle position i, following the offered actions reaches delivered after 4 − i steps |
| `OrderDetails.AssignedToDeliveredInFour` | src/screens/orders/OrderDetailsScreen.tsx:100-113 | A new order reaches delivered after exactly four actions, not sooner, and no action is offered after that |
| `OrderDetails.ShowRejectButton` | src/screens/orders/OrderDetailsScreen.tsx:265-275 | The reject button is shown exactly for assigned orders |
| `OrderDetails.Subtotal` | src/screens/orders/OrderDetailsScreen.tsx:225 | The subtotal row plus the delivery fee row equals the total row |
| `OrderDetails.LineTotal` | src/screens/orders/OrderDetailsScreen.tsx:209 | A line with a non-negative price and quantity is non-negative. A quantity of 0 gives 0, and a quantity of 1 gives the price |
| `OrderDetails.ItemsTotalNonNegative` | src/screens/orders/OrderDetailsScreen.tsx:209 | Item lines with non-negative prices and quantities add up to a non-negative sum |
| `OrderDetails.SubtotalMatchesItemsIff` | src/screens/orders/OrderDetailsScreen.tsx:209-225 | The subtotal equals the sum of the item lines (price × quantity) exactly when the total is those lines plus the delivery fee |
| `WalletScreen.CheckPayout` | src/screens/wallet/WalletScreen.tsx:46-62 | The outcome is exactly one of these, and the first failing guard wins: invalid (unparsed, zero or negative); insufficient (positive but above the balance); minimum (within the balance but under ₹100); dispatch, which happens exactly when ₹100 ≤ amount ≤ balance |
| `WalletScreen.BalanceCheckedBeforeMinimum` | src/screens/wallet/WalletScreen.tsx:54-62 | An amount under ₹100 that also exceeds the balance is reported as insufficient balance, never as below the minimum |
| `WalletScreen.WithdrawDisabled` | src/screens/wallet/WalletScreen.tsx:110-115 | An enabled button means withdrawing the whole balance passes the guards. A disabled one means even ₹100 is refused as insufficient |
| `WalletScreen.WithdrawDisabledIffNothingPasses` | src/screens/wallet/WalletScreen.tsx:110-115 | The withdraw button is disabled (balance under ₹100) exactly when no amount can pass the guards |
| `WalletScreen.PayoutFormChangesOnlyOnAcceptedAmount` | src/screens/wallet/WalletScreen.tsx:46-74 | The modal is closed and its input cleared only when the amount passes the guards (₹100 up to the balance) and the request settles without throwing. Such a request always closes it. Every refused amount leaves the form as typed |
| `TransactionsScreen.FilteredTransactions` | src/screens/earnings/TransactionsScreen.tsx:42-44 | "all" returns the log unchanged. Any other tab returns only entries of that kind, each as often as it occurs in the log, as a subsequence of the log |
| `TransactionsScreen.SummaryOf` | src/screens/earnings/TransactionsScreen.tsx:119-133 | The total is the sum of the listed amounts, 0 when nothing is listed. The count is the number of listed entries |
| `TransactionsScreen.PenaltiesOnlyUnderAll` | src/screens/earnings/TransactionsScreen.tsx:92-97 | No offered tab other than "all" lists a penalty |
| `TransactionsScreen.TotalSplitsByKind` | src/screens/earnings/TransactionsScreen.tsx:46 | The log's total is the sum of its delivery-fee, tip, bonus and penalty totals |
| `TransactionsScreen.SignedTotal` | src/screens/earnings/TransactionsScreen.tsx:181-185 | With the displayed signs, a log without penalties adds up to its plain total |
| `TransactionsScreen.AllTotalCountsPenaltiesPositively` | src/screens/earnings/TransactionsScreen.tsx:181-185 | The "all" total exceeds the sum with the displayed signs by twice the penalties: penalties are shown with "-" but added with "+" |

`AppSlice.SettersAreIdempotent` is a client of `AppState`. It checks that repeating each setter leaves the state as one application does (src/store/slices/appSlice.ts:24-35). Each setter assigns its field outright, so idempotence is shown there rather than stated as a postcondition of each setter.

## Left out

- Network and storage: the HTTP client and the secure key-value store are not part of this model. Thunk bodies are represented only by the responses their reducers receive.
- `updateUserProfile` also writes the merged user to secure storage. That call is I/O and is not modelled.
- `JSON.parse` in `loadStoredAuth` is a parameter of `RestoreSession`. It returns an optional user, so null is covered. A parse that throws is not modelled.
- The screen's payout loading flag and its alerts are not modelled. `PayoutFormAfter` keeps only the modal flag and the typed amount.
- Floating point and locale: `formatCurrency`, `formatDistance` and `formatDate` are not modelled. They use `toFixed`, `Math.round` and locale formatting.
- `formatTime` is modelled for whole minutes only. Fractional minutes would print as decimals.
- Formatters.FormatTime: minutes are unbounded integers in the model. JavaScript numbers are exact only up to 2^53, and from 10^21 on they print in exponent form (`1e+21h 0min`). So the layout h·60 + r = minutes and the round trip hold for the source only within that range.
- Form validation in the login, profile, password, ticket, rating and forgot-password screens is not part of this model. It calls into src/utils/validation, which is not part of this model either.
- The haversine distance on the map screen is not modelled (floating-point trigonometry).
- The OTP countdown timer is not modelled.
- Navigation, components, store wiring and the other screens are not modelled. They are layout only.
- `calculateEarnings` derives the day, week and month starts from the clock with `Date` and `setDate`. The model takes them as inputs and states the ordering it relies on (`weekStart ≤ todayStart`, `monthStart ≤ todayStart`) as a lemma premise.
- `deliveryFee || 0` maps a missing or zero fee to 0. The model's orders always carry an integer fee, for which `|| 0` changes nothing.
- `parseFloat` on the payout input is not modelled. `CheckPayout` receives the parsed amount in paise, or `None` for NaN. Sub-paisa amounts are not represented.
- Orders, tickets and ledger entries keep only the fields the modelled logic reads or stores. Addresses, coordinates, estimated times, special instructions, ticket images and ticket responses are dropped.
- `OrdersSlice.OrdersState.Dispatch`: its contract states only the unhandled-action case. For handled actions it calls the case methods, whose contracts give the effect.
- Stale responses that arrive after a newer one are applied in arrival order, as in the source. No sequencing is modelled.
