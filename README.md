# Ecommerce escrow platform: the client's order logic

This project models, in Dafny, the decision and formatting logic of the web
client of the Ecommerce Escrow Platform. In this system a consumer pays for an
order into an escrow contract. The producer confirms shipment, and the
consumer then confirms delivery, which releases the payment. The consumer may
cancel before shipment and may set a delivery date while the order is open.

The model covers:

- **Status decoding** (`OrderStatus`): the contract's integer code (0 to 4)
  becomes one of the labels `Created`, `Shipped`, `Delivered`, `Completed`,
  `Cancelled`. Any other code becomes `Unknown`.
- **Utilities** (`ContractUtils`): the 48-hour on-time rule over Unix-second
  timestamps, and the `first6...last4` abbreviation of an address. The
  abbreviation follows JavaScript `substring`'s clamping and swapping of
  indices, counting characters (which, for an ASCII address, are the UTF-16
  code units JavaScript counts).
- **Order details view** (`OrderDetails`): which of the four actions the view
  offers for a status label and the viewer's two role flags. The actions are
  confirm shipment, confirm delivery, cancel, and specify delivery date. The
  module also builds the four-step progress timeline.
- **Wallet header** (`ConnectWallet`): the Connect Wallet button, or the
  abbreviated account.
- **Application** (`App`): the `loadOrders` loop, which keeps the orders where
  the connected account is the consumer or the producer (compared after ASCII
  lowercasing) and tags each with its index and role flags. Also the
  `selectOrder` role recomputation, kept in a class over the component's state
  hooks, and the `createOrder` call, which attaches the declared price as the
  payment.

The view works on the label string that `getOrderStatusText` produces, not on
the integer code. So its rules are stated for every label, including
`Unknown`. `OrderDetails.GatingRule` restates the view's gating table per
action: which role each action needs and from which states it is offered.
The view's per-state conditions are proved to agree with it. It is the
client's table only; it is not checked against the contract's code.

Two behaviours of the code are easy to miss, and the model keeps both:

- `isDeliveryOnTime(t, t)` is not true for every non-zero `t`. A timestamp
  whose millisecond value is outside the range of a JavaScript Date
  (±8.64e15 ms) makes the difference NaN, and the rule then answers false.
- A cancelled order's timeline shows its unreached Shipped step as
  `Confirmed`, because the label test asks only whether the status is
  `Created`.

## Model

| member | source | states |
|---|---|---|
| OrderStatus.FromCode | src/utils/contractUtils.js:16-19 | a code names a status exactly when it is 0 to 4, and the status's own code is that number |
| OrderStatus.StatusText | src/utils/contractUtils.js:16-19 | the label is `Unknown` exactly when the code names no status; otherwise it is that status's name |
| OrderStatus.ParseLabel | src/utils/contractUtils.js:17 | a helper the source does not have, used to state facts about labels: a label read back as a status is that status's name |
| OrderStatus.DecodeRoundTrip | src/App.js:132-135 | decoding a status's code gives back the status, and its label is the status's name |
| OrderStatus.LabelRoundTrip | src/App.js:133-134 | each of the five labels is read back as its status; `Unknown` is none of them and is read back as nothing |
| OrderStatus.NameInjective | src/App.js:133 | two statuses have the same label only if they are the same status |
| OrderStatus.StatusTextInjective | src/utils/contractUtils.js:17-18 | two codes give the same label exactly when they are the same valid code, or when both are invalid |
| ContractUtils.Substring | src/utils/contractUtils.js:42 | both indices are clamped into `[0, len]` after ordering them (an index above the length acts as the length, a negative one as 0), and the result is the slice between them; for in-range indices, the slice in either argument order |
| ContractUtils.SubstringFrom | src/utils/contractUtils.js:42 | `substring(start)` is the suffix from an in-range start, the whole string for a negative start, and empty for a start beyond the length |
| ContractUtils.FormatAddress | src/utils/contractUtils.js:40-43 | empty for an empty address; otherwise the first min(6, len) characters, "...", and the last min(4, len) characters |
| ContractUtils.FormatAddressLength | src/utils/contractUtils.js:42 | the abbreviation's length is 0 for an empty address, else min(6, len) + 3 + min(4, len) |
| ContractUtils.FormatAddressLong | src/utils/contractUtils.js:42 | an address of at least 10 characters becomes 13 characters: its first six, "...", its last four |
| ContractUtils.FormatAddressEmptyIff | src/utils/contractUtils.js:41-42 | the abbreviation is empty exactly when the address is |
| ContractUtils.IsDeliveryOnTime | src/utils/contractUtils.js:28-37 | on time exactly when both times are non-zero, both make valid Dates, and they are less than 176400 s (49 h) apart |
| ContractUtils.HoursWithinAllowance | src/utils/contractUtils.js:33-36 | a difference of whole hours, taken through milliseconds and rounded down, is at most 48 exactly when the difference is under 176400 seconds |
| ContractUtils.UnsetIsNeverOnTime | src/utils/contractUtils.js:29 | a zero purchase or delivery time is never on time |
| ContractUtils.OnTimeSymmetric | src/utils/contractUtils.js:33 | swapping the two timestamps does not change the answer |
| ContractUtils.SameInstantIsOnTime | src/utils/contractUtils.js:31-36 | a delivery at the purchase instant is on time, for any non-zero representable time |
| ContractUtils.OnTimeBoundary | src/utils/contractUtils.js:34-36 | 176399 seconds apart is on time; 176400 seconds apart is late |
| OrderDetails.ActionButtons | src/components/OrderDetails.js:40-91 | cancelled and completed orders show their notice; each of the four actions is offered exactly for its own role and states |
| OrderDetails.OfferedIffGatingRule | src/components/OrderDetails.js:49-89 | for each of the five statuses, an action is offered exactly when the per-action table (role needed, states allowed) holds for the viewer |
| OrderDetails.TerminalOffersNothing | src/components/OrderDetails.js:41-47 | a cancelled or completed order offers no action, whatever the roles |
| OrderDetails.DeliveredOffersNothing | src/components/OrderDetails.js:49-89 | a delivered order shows the button area, but with no button |
| OrderDetails.NoRoleNoAction | src/components/OrderDetails.js:49-89 | a viewer with neither role is offered nothing, whatever the label |
| OrderDetails.UnknownLabelNoAction | src/components/OrderDetails.js:49-89 | a label that names no status (`Unknown`) offers nothing |
| OrderDetails.CancelOnlyBeforeShipment | src/components/OrderDetails.js:69 | cancel is offered only on a Created order and only to its consumer, so never once shipped |
| OrderDetails.ConfirmationsExclusive | src/components/OrderDetails.js:51-60 | confirm shipment and confirm delivery are never offered together |
| OrderDetails.ActionsFollowRole | src/components/OrderDetails.js:51-78 | a viewer who is only the producer can only confirm shipment; a viewer who is only the consumer is never offered it |
| OrderDetails.Timeline | src/components/OrderDetails.js:13-38 | four steps named Created, Shipped, Delivered, Completed, in that order; Created is reached and shows the purchase time; a reached step never follows an unreached one |
| OrderDetails.TimelineReachesProgress | src/components/OrderDetails.js:17-32 | for each status, the reached steps are exactly the first 1, 2, 3, 4 or 1 (cancelled) steps |
| OrderDetails.TimelineUnknownLabel | src/components/OrderDetails.js:17-32 | an `Unknown` label reaches only the Created step |
| OrderDetails.TimelineTimes | src/components/OrderDetails.js:23-33 | Delivered and Completed read `Pending` exactly until reached, then the delivery time and `Completed`; Shipped reads `Pending` for Created and `Confirmed` for every other label, so a cancelled order shows it as `Confirmed` |
| OrderDetails.TimelineMonotoneInStatus | src/components/OrderDetails.js:22-32 | along the success path, a step reached at one status stays reached at every later status |
| ConnectWallet.WalletView | src/components/ConnectWallet.js:6-14 | the Connect Wallet button exactly when the account is empty; otherwise a non-empty abbreviation |
| ConnectWallet.WalletViewUsesFormatAddress | src/components/ConnectWallet.js:8 | for a non-empty account, the abbreviation shown is `formatAddress` of the account |
| ConnectWallet.WalletViewOfAddress | src/components/ConnectWallet.js:8 | a 42-character address is shown as its first 6 characters, "...", and its last 4: 13 characters |
| App.ToLower | src/App.js:102-103 | lowercasing keeps the length and lowercases each character on its own |
| App.SameAddress | src/App.js:102-103 | two addresses match exactly when they have the same length and agree character by character after ASCII lowercasing |
| App.ToLowerIdempotent | src/App.js:102-103 | lowercasing a lowercased address changes nothing |
| App.SameAddressIsCaseInsensitive | src/App.js:102-103 | the comparison is reflexive and symmetric, matches only equal-length addresses, and is plain equality on lowercase addresses |
| App.DecimalString | src/App.js:110 | a product id is rendered as a non-empty string of decimal digits with no leading zero |
| App.DecimalRoundTrip | src/App.js:110 | reading the rendered product id as a decimal number gives back the id |
| App.DecimalStringInjective | src/App.js:110 | distinct product ids are rendered differently |
| App.IsParty | src/App.js:102-105 | an order is kept exactly when the record pushed for it would carry the consumer or the producer flag |
| App.Project | src/App.js:106-122 | the pushed record carries the index as id; consumer, producer, name, price and both confirmations are copied; the rendered product id reads back as the id; the purchase time is carried over; the delivery time is "not delivered yet" exactly when it is 0; the status label is the decoded status's name, and exactly `Unknown` for a code that names no status; each role flag is its own comparison |
| App.Selection | src/App.js:98-124 | the loop's reference result; it never has more records than there are orders (the lemmas below state its order, membership and contents) |
| App.SelectionIndexed | src/App.js:98-122 | each kept record is the projection of the contract's record at its own index: consumer, producer, name, price and both confirmations are copied; the status is decoded; the roles are recomputed |
| App.SelectionIncreasing | src/App.js:98-107 | the kept records' ids strictly increase |
| App.SelectionComplete | src/App.js:98-105 | an index is kept exactly when the account is the consumer or the producer of that order, compared case-insensitively |
| App.SelectionRoles | src/App.js:102-105 | every kept record has at least one role flag, and each flag is its own case-insensitive comparison |
| App.SelectionDeliveryText | src/App.js:114-116 | a kept record is shown as not delivered yet exactly when its delivery time is 0 |
| App.SelectionIgnoresCase | src/App.js:102-103 | two spellings of the same address that differ only in letter case select the same orders |
| App.CollectOrders | src/App.js:93-130 | the loop builds exactly the selection: ids strictly increase and are below the order count, each record is its order's projection, and the kept indices are exactly those of the account's orders |
| App.CreateOrderRequest | src/App.js:137-148 | the attached value equals the declared price, which is the given wei amount; producer, product id and name pass through unchanged |
| App.AppState.constructor | src/App.js:21-28 | starts with no account, no orders, nothing selected and both role flags false |
| App.AppState.SetAccount | src/App.js:42 | the account becomes the one the wallet reported |
| App.AppState.LoadOrders | src/App.js:93-126 | the orders state becomes the account's selection of the contract's orders |
| App.AppState.SelectOrder | src/App.js:211-215 | the order becomes selected, and each role flag is set by its case-insensitive comparison with the account |
| App.LoadThenSelect | src/App.js:211-215 | loading the account's orders and then selecting the k-th leaves the account unchanged, stores the selection, selects that order, and sets both role flags to the ones `loadOrders` tagged it with |

## Left out

- The escrow contract itself: custody, release, refund and revert messages. Its Solidity source is not part of this model. The tests and scripts only call it. `OrderDetails.GatingRule` is the client's own table, not the contract's. The repository's test file exercises the contract, not this table: it runs three allowed cases (the producer confirms shipment of a Created order, test/EcommerceDelivery.test.js:29-33; the consumer confirms delivery after shipment, :41-51; the consumer specifies a delivery date, :54-64) and one rejected case (the consumer may not confirm shipment, :35-39). No test checks the table's other exclusions.
- Wallet, provider and contract I/O: `window.ethereum`, `BrowserProvider`, awaiting transactions, the error `catch` paths, and `listenForContractEvents`. The contract's records are given to `App.CollectOrders` as a sequence. The connected account is a parameter.
- `formatEther` and `parseEther`: these are floating-point and decimal library conversions. The model keeps amounts in wei. `App.CreateOrderRequest` takes the already-parsed wei amount.
- Locale date rendering: `toLocaleString`, the Date branch of `formatTimestamp`, and the date helpers. Timestamps are kept as integers. `OrderDetails.Timeline` takes the already-rendered purchase and delivery times as strings.
- `App.ToLower`: does not model Unicode case mapping beyond ASCII, because an address holds only ASCII hex digits and `0x`.
- `ContractUtils.IsDeliveryOnTime`: takes integer timestamps. Non-numeric arguments, and JavaScript's coercion of them, are not modelled. The exact-integer rule agrees with the floating-point computation for every valid Date, since a quotient by 3600 is never within rounding error of the next whole hour.
- `ContractUtils.FormatAddress`: indices and lengths count characters (Unicode scalar values), not the UTF-16 code units JavaScript's `substring` and `length` count. The two agree on ASCII addresses; a string with characters outside the Basic Multilingual Plane is abbreviated differently.
- `ConnectWallet.WalletView`: counts characters, not UTF-16 code units, as `ContractUtils.FormatAddress` does; no difference for ASCII addresses.
- `ContractUtils.FormatAddress` and `ConnectWallet.WalletView`: take a string. A `null` or `undefined` address, falsy like `''`, is not modelled.
- The rendered markup: React elements, CSS classes, and the prompt that reads a delivery date. Also the other presentation components (order list, form, filters, notification, transaction modal with its timers) and the deployment scripts.
- The `getOrderStatusText` of src/App.js:132-135 is the same lookup as in src/utils/contractUtils.js. It is modelled once, as `OrderStatus.StatusText`. `Number(statusCode)` is the identity on the integer codes modelled here.
