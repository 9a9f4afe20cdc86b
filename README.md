# SkyFi storefront core, modelled in Dafny

SkyFi sells time-limited Wi-Fi packages paid for by mobile money. This project models the
logic behind its storefront and proves properties of it:

- **Application state and its reducer** (`AppState`). The per-session state holds the
  signed-in user's subscription, payments and package catalogue, three loading flags and an
  error message. `appReducer` handles eight action kinds and returns copies.
- **The payment workflow** (`AppProvider`). `processPayment` does these steps in order:
  - finds the package;
  - asks the gateway to start the charge;
  - stores a pending payment and shows it;
  - polls the gateway at most ten times, until the status leaves `PENDING`;
  - then either creates the subscription and completes the payment, or marks the payment
    failed.

  Every outside call is an input:
  - the initiate answer, or the exception it raised;
  - the row the store returns for the pending payment;
  - one answer per poll attempt, or an exception;
  - the subscription row the store returns.

  The store writes come back as a log. `Process` states the whole run as a value.
  `Provider.ProcessPayment` is the step-by-step version: a class holding the reducer's state
  and a `while` loop over the poll answers. It is proved to perform exactly that run.
- **The toast store** (`Toast`): the toast list reducer, capped at one toast. It also holds
  the module-level id counter (`IdCounter`) and the provider that shows toasts (`Toaster`).
- **The countdown** (`Countdown`): the time to a subscription's end date, split into days,
  hours, minutes and seconds.
- **Display decisions** of the subscription card (`SubscriptionCard`) and the payment list
  (`PaymentHistory`), with the shared text formatting in `DisplayText`.
- **JavaScript behaviour the code relies on** (`Js`):
  - truthiness of absent and empty strings;
  - `||` fallbacks;
  - `replace` with a string pattern, which replaces only the first match;
  - `toUpperCase` and `toLowerCase`;
  - `padStart`;
  - `toString` of integers.

Payment, subscription and toast ids are integers throughout. Statuses are strings, because
the polled gateway status is written into the payment lower-cased (`"successful"`). That
value is outside the declared status enum.

## Model

| member | source | states |
|---|---|---|
| AppState.InitialState | lib/app-state.tsx:35-50 | no subscription, no payments, no packages, every loading flag off, no error |
| AppState.Reduce | lib/app-state.tsx:52-128 | `appReducer`: each part of the state changes only through the actions that name it (catalogue: SET_PACKAGES; subscription: SET_SUBSCRIPTION; payments: SET_PAYMENTS, ADD_PAYMENT, UPDATE_PAYMENT; UI: SET_LOADING, SET_ERROR; all: RESET_STATE); what each action does is stated by the lemmas below |
| AppState.Apply | lib/app-state.tsx:117 | the spread `{ ...payment, ...updates }`; no contract of its own, its properties are stated by `ApplyIdempotent` and `PatchPayments` |
| AppState.PatchPayments | lib/app-state.tsx:116-118 | keeps length and order; spreads the updates into exactly the payments with the given id; leaves the others as they were |
| AppState.PatchPaymentsIdempotent | lib/app-state.tsx:111-120 | patching twice with the same id and updates equals patching once |
| AppState.ApplyIdempotent | lib/app-state.tsx:117 | spreading the same partial payment twice equals spreading it once |
| AppState.SetFlag | lib/app-state.tsx:59-62 | sets the named loading flag to the value; the other flags keep theirs |
| AppState.SetLoadingOnlyFlag | lib/app-state.tsx:54-64 | SET_LOADING changes the named flag only; user and error unchanged |
| AppState.SetErrorOnlyError | lib/app-state.tsx:66-73 | SET_ERROR replaces `ui.error` only |
| AppState.SetFieldReplacesOnlyItsField | lib/app-state.tsx:75-100 | SET_SUBSCRIPTION, SET_PAYMENTS and SET_PACKAGES each replace their own field; everything else unchanged |
| AppState.AddPaymentPrepends | lib/app-state.tsx:102-109 | ADD_PAYMENT gives one more payment; the new one is first and the old list follows; nothing else changes |
| AppState.UpdatePaymentPatchesById | lib/app-state.tsx:111-120 | UPDATE_PAYMENT keeps length and order, patches exactly the entries with that id, changes nothing else, and is idempotent |
| AppState.ResetAndUnknown | lib/app-state.tsx:122-127 | RESET_STATE yields the initial state from any state; an action of no known kind leaves the state unchanged |
| AppState.ReplaySnoc | lib/app-state.tsx:52-128 | dispatching one more action after a batch applies the reducer once more |
| AppState.ReplayAppend | lib/app-state.tsx:52-128 | dispatching two batches in turn equals dispatching their concatenation |
| AppProvider.FindPackage | lib/app-state.tsx:228 | finds nothing exactly when no package has the id; otherwise returns the first package with that id |
| AppProvider.Process | lib/app-state.tsx:223-345 | `processPayment` as a value: the first store write, if any, is the pending insert, and a successful run dispatches ADD_PAYMENT first; its whole behaviour is stated by `EarlyExits` (the early error messages), `SucceedsIff`, `ProcessAccepted` (the pending row's fields), `TerminalStoreWrite` (the subscription request on success, and the link exactly on success) and `FinalLocalPayment` |
| AppProvider.Charge | lib/app-state.tsx:234-269 | the run from the gateway request to the pending row; no contract of its own, stated through `Process` by `EarlyExits` (the thrown error's message, or the gateway's message with its fallback) and `ProcessAccepted` (the pending row: this user, the package price, the method, the gateway reference) |
| AppProvider.Settle | lib/app-state.tsx:271-343 | the run from the first poll on; no contract of its own, stated by `SettleStoreWrites` (which writes, with the subscription request's fields and the link) and `SettleOnState` |
| AppProvider.PollFrom | lib/app-state.tsx:272-293 | the poll loop's outcome; no contract of its own, stated by `PollBounded`, `PollStopsAtFirstDecisive`, `PollTimesOut` and `PollOutcomeExplained`, and `Provider.PollGateway` is proved to end as it says |
| AppProvider.PolledStatuses | lib/app-state.tsx:284-289 | the statuses the loop writes; no contract of its own, stated by `PollBounded`, `PolledStatusesPending` and `PolledStatusesLast` |
| AppProvider.StatusUpdates | lib/app-state.tsx:286-289 | one UPDATE_PAYMENT per polled status, in order, each setting the status lower-cased |
| AppProvider.PollBounded | lib/app-state.tsx:272-293 | the loop makes at most 10 attempts and writes at most one status per attempt |
| AppProvider.PollStopsAtFirstDecisive | lib/app-state.tsx:277-289 | the loop ends at the first exception or successful non-PENDING answer; that status (or error) is the outcome and its position is the attempt count; failed answers in between change nothing |
| AppProvider.PollTimesOut | lib/app-state.tsx:277-293 | with no decisive answer the loop makes all 10 attempts and the status stays PENDING |
| AppProvider.PollOutcomeExplained | lib/app-state.tsx:277-293 | every outcome is either the first decisive answer after only non-decisive ones, or PENDING after 10 non-decisive attempts |
| AppProvider.PollStep | lib/app-state.tsx:284-292 | one attempt: a successful answer replaces the status and writes it; a failed one keeps the status and writes nothing |
| AppProvider.PolledStatusesPending | lib/app-state.tsx:277-289 | every status written before the last is PENDING; all of them are when the loop aborts or times out |
| AppProvider.PolledStatusesLast | lib/app-state.tsx:285-289 | when the loop settles on a non-PENDING status, that status is the last one written |
| AppProvider.EarlyExits | lib/app-state.tsx:224-267 | no user gives false with nothing dispatched or written; an unknown package gives false with only "Package not found"; a refused or failed initiate gives false, no payment added, no write and exactly one error: the thrown error's message, or the gateway's message with "Failed to initiate payment with MoMo." when it gave none; a failed pending insert gives false and only that error, before any poll |
| AppProvider.SucceedsIff | lib/app-state.tsx:295-339 | the run returns true exactly when the charge was accepted, the pending row stored, the loop settled on SUCCESSFUL and the subscription was created |
| AppProvider.SettleStoreWrites | lib/app-state.tsx:295-339 | after the pending row: one terminal status write once the loop settles ("completed" on success, else "failed"); no writes after an exception; a subscription is requested exactly when the loop settled on SUCCESSFUL, first, for this user, package, method and gateway reference; the payment is linked to the created subscription exactly when the run succeeds |
| AppProvider.TerminalStoreWrite | lib/app-state.tsx:256-339 | the whole run's store log: the first write is the pending row (this user, no subscription, the package price, the method, the gateway reference, "pending"); a successful run requested the subscription for this user, package, method and reference and linked the payment to it, and only a successful run writes a link; the terminal-write rules above hold for the pending payment |
| AppProvider.StatusWritesAppend | lib/app-state.tsx:295-339 | the status writes of two logs in turn are those of the first followed by those of the second |
| AppProvider.InsertFirst | lib/app-state.tsx:256-267 | writing the pending row first adds no status write and no subscription request to the log |
| AppProvider.StatusUpdatesOnHead | lib/app-state.tsx:286-289 | the loop's updates keep the payment with that id first and give it the last status written, lower-cased, its other fields kept; every payment with another id, the catalogue, the subscription and the UI state are unchanged |
| AppProvider.AfterPolls | lib/app-state.tsx:269-293 | after polling, the pending payment is still first and equals the stored row but for its status; the other payments, the catalogue, the subscription and the UI state are unchanged; if the loop aborted, the row keeps the stored row's status or pending |
| AppProvider.SettleOnState | lib/app-state.tsx:295-343 | from the first poll on, payments with other ids and the catalogue are kept; success leaves the stored row with the completed patch spread in (status "completed", linked to the new subscription), the subscription set and the error cleared; any other settled outcome leaves the row with status "failed", the subscription unchanged and the error "Failed to create subscription after successful payment." when the gateway said SUCCESSFUL, else "Payment failed or timed out. Please try again."; an exception leaves the row with the stored status or pending, the subscription unchanged, with that error |
| AppProvider.ProcessAccepted | lib/app-state.tsx:256-269 | once the charge is accepted and the pending row stored, the run wrote that row (this user, no subscription, the package price, the method, the gateway reference, "pending"), dispatches ADD_PAYMENT with it and then goes on as `Settle` |
| AppProvider.FinalLocalPayment | lib/app-state.tsx:256-343 | once the pending row exists, the run leaves one more payment, first in the list, with the outcome above, error message included; every earlier payment with another id keeps its place behind it unchanged, and the catalogue is unchanged |
| AppProvider.Provider.constructor | lib/app-state.tsx:35-50 | the provider starts from the initial state |
| AppProvider.Provider.Dispatch | lib/app-state.tsx:52-128 | dispatch applies the reducer to the held state |
| AppProvider.Provider.PollGateway | lib/app-state.tsx:272-293 | the `while` loop ends as the poll specification says, and the held state is the old state with that specification's UPDATE_PAYMENTs dispatched |
| AppProvider.Provider.SettlePayment | lib/app-state.tsx:295-339 | from the first poll on, returns the result and writes of the specified run and leaves the state its actions produce |
| AppProvider.Provider.ProcessPayment | lib/app-state.tsx:223-345 | returns the result and the store writes of `Process`, and leaves the state that dispatching the run's actions produces |
| Toast.Reduce | hooks/use-toast.ts:52-87 | `reducer`: ADD_TOAST leaves between one and TOAST_LIMIT toasts with the new one first; no other action lengthens the list; each action is stated by the lemmas below |
| Toast.Merge | hooks/use-toast.ts:63 | the spread `{ ...t, ...action.toast }`; no contract of its own, stated by `UpdateMergesById` |
| Toast.WithoutKeepsOthers | hooks/use-toast.ts:84 | keeps only toasts of the input without that id; keeps every such toast |
| Toast.AddKeepsNewestOnly | hooks/use-toast.ts:54-58 | ADD_TOAST puts the new toast first and keeps at most TOAST_LIMIT (1): the list is the new toast alone |
| Toast.UpdateMergesById | hooks/use-toast.ts:60-64 | UPDATE_TOAST keeps length and order, merges into the toasts with the patch's id only, and never changes an id |
| Toast.DismissTruthyClosesMatches | hooks/use-toast.ts:66-74 | DISMISS_TOAST with a non-zero id closes the toasts with that id and leaves all others unchanged |
| Toast.DismissFalsyClosesAll | hooks/use-toast.ts:66-79 | DISMISS_TOAST with no id, or with id 0 (the first id `genId` gives), closes every toast |
| Toast.DismissIdempotent | hooks/use-toast.ts:66-80 | dismissing twice equals dismissing once |
| Toast.RemoveNothingMatching | hooks/use-toast.ts:81-85 | REMOVE_TOAST with no id, or an id no toast has, leaves the list unchanged |
| Toast.RemoveSplits | hooks/use-toast.ts:84 | removal works toast by toast, so the toasts kept stay in order |
| Toast.ReduceKeepsIdsBelow | hooks/use-toast.ts:52-87 | with all ids below the counter, adding the counter's id and advancing keeps them below; no other action brings in a new id |
| Toast.IdCounter.GenId | hooks/use-toast.ts:24-28 | returns the current count and advances it by one |
| Toast.Toaster.Dispatch | hooks/use-toast.ts:95 | dispatch applies the toast reducer to the held list |
| Toast.Toaster.HotToast | hooks/use-toast.ts:97-120 | takes a fresh id, different from every id shown before, and adds the toast open; it becomes the only toast; ids stay below the counter |
| Toast.Toaster.UpdateHandle | hooks/use-toast.ts:101 | the handle's update dispatches UPDATE_TOAST with its own id; length and ids are kept |
| Toast.Toaster.DismissHandle | hooks/use-toast.ts:102 | the handle's dismiss dispatches DISMISS_TOAST with its id; for the first toast (id 0) every toast closes |
| Countdown.InitialTimeLeft | hooks/use-countdown.ts:6-12 | before the first calculation: all zeros, not expired |
| Countdown.CalculateTimeLeft | hooks/use-countdown.ts:15-30 | expired exactly when the difference is not positive or the date does not parse; expired means all four fields are 0; otherwise days ≥ 0, hours < 24, minutes < 60, seconds < 60 |
| Countdown.Reconstruction | hooks/use-countdown.ts:20-24 | the fields add up to the difference rounded down to whole seconds: total ≤ difference < total + 1000 |
| Countdown.UnderOneSecond | hooks/use-countdown.ts:20-26 | a difference of 1 to 999 ms gives all zeros, not expired |
| Js.OrElse | components/payment-history.tsx:54 | `a \|\| b` on strings: `a` when it is present and non-empty, else `b` |
| Js.ToUpper | components/subscription-card.tsx:153 | `toUpperCase`; no contract of its own, stated by `ToUpperCharwise` |
| Js.ToLower | lib/app-state.tsx:288 | `toLowerCase`; no contract of its own, stated by `ToLowerCharwise` |
| Js.Capitalize | components/subscription-card.tsx:56 | `charAt(0).toUpperCase() + slice(1)`; no contract of its own, stated by `CapitalizeChangesOnlyFirst` and `CapitalizeIdempotent` |
| Js.ReplaceFirst | components/subscription-card.tsx:153 | `replace` with a one-character string pattern: keeps the length; what it replaces is stated by `ReplaceFirstOnlyFirst` |
| Js.ToUpperCharwise | components/subscription-card.tsx:153 | upper-casing keeps the length, maps each character on its own, and leaves no lower-case letter |
| Js.ToLowerCharwise | lib/app-state.tsx:288 | lower-casing keeps the length, maps each character on its own, and leaves no upper-case letter |
| Js.CapitalizeChangesOnlyFirst | components/subscription-card.tsx:56 | only the first character may change and it is never left lower-case; the empty status stays empty |
| Js.CapitalizeIdempotent | components/payment-history.tsx:99 | capitalising twice equals capitalising once |
| Js.ReplaceFirstPointwise | components/subscription-card.tsx:153 | `replace` with a one-character pattern, position by position: the first occurrence becomes the replacement, every other character stays |
| Js.ReplaceFirstOnlyFirst | components/subscription-card.tsx:153 | `replace` with a one-character pattern: without the character nothing changes; otherwise only its first occurrence is replaced |
| Js.PadStart | components/subscription-card.tsx:132 | length is max(n, length); the original is the suffix; the fill is the pad character |
| Js.DecimalRoundTrip | components/subscription-card.tsx:132 | `toString` of a number reads back as that number |
| Js.DecimalLength | components/subscription-card.tsx:132 | one digit below 10, two from 10 to 99 |
| DisplayText.StatusBadge | components/payment-history.tsx:99 | same length; the first character upper-cased; the rest unchanged |
| DisplayText.MethodLabel | components/subscription-card.tsx:153 | `method.replace("_", " ").toUpperCase()`; no contract of its own, stated by `MethodLabelShape` and `MethodLabelSplit` |
| DisplayText.MethodLabelShape | components/subscription-card.tsx:153 | same length; the first "_" becomes a space; every other character is upper-cased in place, so later underscores stay |
| DisplayText.MethodLabelSplit | components/payment-history.tsx:87 | split at the first underscore, each side is upper-cased with a space between (`mobile_money_ug` reads `MOBILE MONEY_UG`) |
| DisplayText.CountdownCell | components/subscription-card.tsx:132 | `value.toString().padStart(2, "0")`; no contract of its own, stated by `CountdownCellShape` |
| DisplayText.CellReadsBack | components/subscription-card.tsx:132 | every cell is at least two digits that read back as the value; below 100 exactly two |
| DisplayText.CountdownCellShape | components/subscription-card.tsx:132 | a cell is at least 2 characters; 0 to 99 shows as two digits reading back as the value; from 10 on it is the plain decimal |
| SubscriptionCard.StatusColor | components/subscription-card.tsx:20-31 | active gives green, expired red, cancelled gray, any other status blue, and each colour only for its status |
| SubscriptionCard.Title | components/subscription-card.tsx:52 | the package name when present and non-empty, else the subscription's package name: the `\|\|` of `Js.OrElse` |
| SubscriptionCard.ShownPrice | components/subscription-card.tsx:77 | the package price when present and non-zero, else the subscription's price (so 0 falls through) |
| SubscriptionCard.View | components/subscription-card.tsx:41-162 | expiry notice exactly when the countdown expired or the status is "expired"; countdown panel exactly when not expired and active, so never both; "Renew Package" exactly when expired, else "Upgrade Package"; method line exactly when the method is truthy; reference line only with it and a truthy reference; the features are exactly the package's when it has one, and none otherwise; the title, price, badge text and class, countdown cells, method label and reference shown are those of `Title`, `ShownPrice`, `StatusBadge`, `StatusColor`, `CountdownCells`, `MethodLabel` and the subscription's reference |
| SubscriptionCard.CountdownCells | components/subscription-card.tsx:119-135 | four cells: days, hours, minutes, seconds |
| SubscriptionCard.CountdownCellsReadBack | components/subscription-card.tsx:132 | within the countdown's bounds, hour, minute and second cells are two digits reading back as the values; the day cell is at least two digits reading back as the days |
| SubscriptionCard.CountdownPanelShows | components/subscription-card.tsx:108 | an active subscription with time left shows the countdown cells |
| SubscriptionCard.ExpiredStatusWins | components/subscription-card.tsx:41 | an "expired" status shows the notice, hides the countdown, offers renewal and uses the red badge, whatever the countdown says |
| PaymentHistory.StatusIcon | components/payment-history.tsx:14-25 | a check circle exactly for completed, a cross exactly for failed, a clock otherwise |
| PaymentHistory.StatusColor | components/payment-history.tsx:27-38 | `getStatusColor`; no contract of its own, stated by `IconAndBadgeAgree` |
| PaymentHistory.IconAndBadgeAgree | components/payment-history.tsx:14-38 | icon and badge agree: green for completed, yellow for pending, red for failed, gray for anything else |
| PaymentHistory.Description | components/payment-history.tsx:50-55 | the subscription's package name if truthy, else the description if truthy, else "Payment" (two `\|\|` of `Js.OrElse`); never empty |
| PaymentHistory.RowOf | components/payment-history.tsx:72-101 | keyed by the payment id; method suffix exactly when the method is truthy; reference line exactly when the reference is truthy; icon and badge share the status's tone; icon, description, badge text and class, method label, reference, amount and currency are those of `StatusIcon`, `Description`, `StatusBadge`, `StatusColor`, `MethodLabel` and the payment |
| PaymentHistory.View | components/payment-history.tsx:72-112 | one row per payment, in input order, keyed by id; the empty-state block exactly when there are no payments |
| PaymentHistory.KeysDistinctIffIds | components/payment-history.tsx:74 | row keys are distinct exactly when payment ids are |
| PaymentHistory.NewPaymentOnTop | components/payment-history.tsx:72 | a payment added in front (as ADD_PAYMENT does) adds its row on top and hides the empty state |

## Left out

- Loading the data and the other provider helpers (`loadSubscription`, `loadPayments`,
  `loadPackages`, `refreshAllData`, `setError`, `updatePayment`) are not modelled. They only
  fetch from the store and dispatch reducer actions that are already modelled. The
  `profile` field of the state is never set by the reducer and is left out.
- The store service, the gateway routes and the payment-status route are inputs (`Env`).
  Their internals are not part of this model, and neither is the request body sent to the
  gateway, including `phoneNumber`.
- The results of `updatePaymentStatus` and `updatePaymentSubscription` are not modelled; their
  calls are recorded in the log. The workflow drops the result of `updatePaymentStatus`
  without a word (lib/app-state.tsx:302, 308, 335) and only logs a warning when
  `updatePaymentSubscription` returns nothing (lib/app-state.tsx:311-317); neither changes
  the run.
- A thrown value that is not an `Error` (where the handler shows "Payment failed") is not
  modelled. Every exception carries a message.
- A successful poll answer without a `status` field is not modelled. In the code,
  `toLowerCase` on it would throw; here statuses are always strings.
- Provider.ProcessPayment, Provider.PollGateway: they require at least 10 scripted poll
  answers. This is one answer per possible attempt, since each attempt's answer is an
  input. It is not a demand the workflow makes of its caller.
- The intent that a payment which reached the store always gets exactly one terminal
  status write is not what the code does: when a poll raises an exception, the handler
  sets the error and returns false, and the payment stays pending in the store and in the
  state. The model follows the code (`SettleStoreWrites`, `SettleOnState`).
- The run is modelled as atomic: `Process` and `Provider.ProcessPayment` see no dispatch but
  their own. In the code, other dispatches can land between its awaits: realtime updates
  (hooks/use-realtime-updates.ts), the loaders, RESET_STATE on sign-out, or a second
  submit. `SettleOnState` and `FinalLocalPayment` ("first in the list", "other payments
  kept") hold only when nothing else is dispatched during the run.
- Timers are not modelled: the 3-second wait between polls, the countdown's one-second
  `setInterval`, and the toast removal timeout with its effect. Only the state each step
  produces is modelled, not when it runs.
- The toast's `onOpenChange` callback, its action element and its other React properties
  are not modelled. Titles and descriptions are optional strings. `useToast` outside a
  provider is not modelled.
- Locale formatting (`toLocaleString`, `toLocaleDateString`) is not modelled; it depends on
  the host locale. Prices and amounts are shown as numbers.
- Js.ToUpper, Js.ToLower: only ASCII letters are mapped. Unicode case mapping is not
  modelled.
- Countdown.CalculateTimeLeft: dates are whole milliseconds since the epoch, or absent when
  the date does not parse (NaN). Dafny's `/` and `%` agree with JavaScript's there, because
  every operand is positive in the branch that divides.
- The features list and the refresh button are rendered markup; the card records only
  which features it lists.
