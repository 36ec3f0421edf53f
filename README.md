# Shipments back office: status menu and payment initiation

This project models the two pieces of decision logic in a logistics back-office web application. The application tracks shipments through a lifecycle of `pending`, `in_transit`, `arrived`, `delivered` and `cancelled`. It collects payment through a third-party gateway once a shipment has arrived and its one-time passcode (OTP) has been verified.

- **The shipments table** (`ShipmentsTable`, `shipments_table.dfy`). The table component decides:
  - which status changes a row's action menu offers for each status;
  - which badge texts the status and payment columns show;
  - what the revenue cell shows for a missing amount;
  - which row's menu is disabled while its mutation runs.

  The offered changes form a small state machine. Lemmas show that delivered and cancelled are terminal, that the rank never falls along any sequence of menu choices, and that `pending` and `arrived` are never entered from the menu. The component's `loading` state is the class `Table`. Its handlers are split at their `await`: the handler method runs up to the server-action call, and `Settle` runs when that call settles. The class keeps a log of the server-action calls it has issued.
- **The payment-initiation endpoint** (`PaymentInitiate`, `payment_initiate.dfy`). `Screen` is a pure function covering everything before the gateway call:
  - body parsing and the id check;
  - the row lookup and the ordered guards (arrived, OTP verified, not already paid, positive amount);
  - the derivation of the return and webhook URLs.

  The class `ShipmentStore` holds the shipment table as a map keyed by id. Its method `InitiatePayment` is the whole handler. It branches on the gateway's outcome and performs the one conditional write of `payment_status` and `phonepe_order_id`.
- `Shipments` (`shipments.dfy`) holds the shipment row and the status names.
- `JsValues` (`js_values.dfy`) holds the JavaScript notions the code relies on: optional values, truthiness of strings, the `a || b` default and `String.prototype.includes`.

Outside inputs are modelled as follows:
- **The gateway:** its answer is an input value (`GatewayOutcome`).
- **The store's read and write errors:** boolean inputs.
- **The environment:** the configured application URL and the sandbox-credentials flag form a `Config`.
- **The confirmation dialog:** a boolean.
- **The currency formatter:** a function parameter.

Four points about the code's behaviour:
- **Configured URL:** it always overrides the URL derived from the request headers. The configured URL wins even when the request carries a host header.
- **Gateway failures:** the 500 response carries the gateway's own error text when it has one. "Failed to create payment" is used only when it has none.
- **Status transitions:** the table only offers them. The server actions that perform them are not part of this model, so nothing here claims that transitions are enforced on the server.
- **Falsy values:** the id, header and configuration checks use JavaScript truthiness, so an empty string counts as missing.

## Model

| member | source | states |
|---|---|---|
| `JsValues.OrElse` | src/app/api/payment/initiate/route.ts:57-59 | `a \|\| b` on an optional string: the value when present and non-empty, the fallback otherwise |
| `JsValues.Includes` | src/app/api/payment/initiate/route.ts:58 | `host.includes(sub)` is true exactly when `sub` occurs at some position of `host` |
| `Shipments.ParseStatus` | src/components/shipments/shipments-table.tsx:39-50 | a string is one of the five stored status names exactly when it parses, and it parses back to the status whose name it is |
| `ShipmentsTable.StatusBadge` | src/components/shipments/shipments-table.tsx:38-53 | a known status name gets that status's label, and any other string is shown verbatim |
| `ShipmentsTable.StatusLabelsDistinct` | src/components/shipments/shipments-table.tsx:38-53 | the five statuses have five different badge labels |
| `ShipmentsTable.PaymentBadge` | src/components/shipments/shipments-table.tsx:137-154 | "Paid" exactly for `completed`, "Pending" exactly for `initiated`, "Failed" exactly for `failed`, and "-" for every other value, null included |
| `ShipmentsTable.FormatCurrency` | src/components/shipments/shipments-table.tsx:63-69 | a null amount shows "-"; any other amount is handed to the locale formatter |
| `ShipmentsTable.Target` | src/components/shipments/shipments-table.tsx:187-210 | only Delete asks for no status change, and no item asks for pending or arrived |
| `ShipmentsTable.DeliveryItemsDifferOnlyInLabel` | src/components/shipments/shipments-table.tsx:193-210 | the in_transit and arrived menus offer the same changes in the same order and differ only in the delivery item's text, "Mark Delivered" against "Force Complete Delivery" |
| `ShipmentsTable.Menu` | src/components/shipments/shipments-table.tsx:187-218 | every menu ends with Delete, Delete appears once, and no item repeats |
| `ShipmentsTable.TargetsOfMenu` | src/components/shipments/shipments-table.tsx:187-210 | the targets of the rendered status items are {in_transit, cancelled} for pending, {delivered, cancelled} for in_transit and for arrived, and none for delivered and cancelled |
| `ShipmentsTable.OfferedTargets` | src/components/shipments/shipments-table.tsx:187-210 | the offered targets per status as above; no offered target is pending, arrived or the current status, and every offered target has a higher rank |
| `ShipmentsTable.TerminalStatuses` | src/components/shipments/shipments-table.tsx:187-218 | a status offers no change exactly when it is delivered or cancelled, and then the menu is Delete alone |
| `ShipmentsTable.MenuPathClimbs` | src/components/shipments/shipments-table.tsx:187-210 | along any sequence of offered changes the rank strictly rises: nothing moves backward |
| `ShipmentsTable.MenuPathHasNoRepeats` | src/components/shipments/shipments-table.tsx:187-210 | no status repeats along a sequence of offered changes, so the menu has no cycle |
| `ShipmentsTable.MenuPathIsShort` | src/components/shipments/shipments-table.tsx:187-210 | every offered change climbs at least one rank; since `arrived` can only open a sequence, a sequence of them holds at most three statuses |
| `ShipmentsTable.MenuNeverEnters` | src/components/shipments/shipments-table.tsx:187-210 | after the first status of a sequence of offered changes, no status is pending or arrived |
| `ShipmentsTable.TerminalPathsAreSingletons` | src/components/shipments/shipments-table.tsx:187-218 | from delivered or cancelled no sequence of menu choices goes anywhere |
| `ShipmentsTable.Table.constructor` | src/components/shipments/shipments-table.tsx:72 | the table starts with no row loading and no mutation issued |
| `ShipmentsTable.Table.TriggerDisabled` | src/components/shipments/shipments-table.tsx:179 | a row's menu trigger is disabled exactly when `loading` holds that row's id, so at most one row is disabled at a time |
| `ShipmentsTable.Table.HandleStatusChange` | src/components/shipments/shipments-table.tsx:77-79 | sets `loading` to the row's id, issues exactly one status update for that row, and disables exactly that row's menu trigger |
| `ShipmentsTable.Table.HandleDelete` | src/components/shipments/shipments-table.tsx:84-87 | a declined confirmation changes nothing; a confirmed one sets `loading` to the row, issues one delete and disables exactly that row |
| `ShipmentsTable.Table.Settle` | src/components/shipments/shipments-table.tsx:77-90 | when the awaited action resolves, `loading` is reset to null and no row is disabled; when it rejects, `loading` stays |
| `ShipmentsTable.Table.ChooseMenuItem` | src/components/shipments/shipments-table.tsx:177-218 | a disabled trigger or an item not rendered does nothing; otherwise the item's handler runs, and any status update it issues is to an offered target |
| `PaymentInitiate.Amount` | src/app/api/payment/initiate/route.ts:48 | the amount is the revenue, or 0 when the revenue is null |
| `PaymentInitiate.ShipmentGuard` | src/app/api/payment/initiate/route.ts:30-53 | all guards pass exactly when the shipment is payable; otherwise the message is that of the first failing guard in the order arrived, OTP, completed, amount |
| `PaymentInitiate.OnlyCompletedBlocks` | src/app/api/payment/initiate/route.ts:42-46 | any payment status other than `completed`, null included, gives the same guard outcome as no payment status |
| `PaymentInitiate.RequestHost` | src/app/api/payment/initiate/route.ts:57 | the host header, or `localhost:3000` when it is missing or empty |
| `PaymentInitiate.Protocol` | src/app/api/payment/initiate/route.ts:58 | the forwarded protocol when present; otherwise `http` exactly when the host contains "localhost", and `https` otherwise |
| `PaymentInitiate.AppUrl` | src/app/api/payment/initiate/route.ts:59 | a configured application URL overrides `protocol://host` |
| `PaymentInitiate.RedirectUrl` | src/app/api/payment/initiate/route.ts:61 | the return URL is the application URL followed by the callback path, and the raw shipment id is everything after that prefix |
| `PaymentInitiate.CallbackUrl` | src/app/api/payment/initiate/route.ts:62 | the webhook URL is the application URL followed by `/api/payment/webhook` |
| `PaymentInitiate.RedirectUrlsAreDistinct` | src/app/api/payment/initiate/route.ts:61-62 | on one application URL, different shipment ids give different return URLs, and no return URL equals the webhook URL |
| `PaymentInitiate.DefaultHostIsPlainHttp` | src/app/api/payment/initiate/route.ts:57-58 | the default host is served over `http` when no protocol is forwarded |
| `PaymentInitiate.DefaultAppUrl` | src/app/api/payment/initiate/route.ts:57-59 | with no configuration and no headers, the base URL is `http://localhost:3000` |
| `PaymentInitiate.CustomerPhone` | src/app/api/payment/initiate/route.ts:69 | the customer's phone number when the customer is linked and the number is non-empty, and "" otherwise |
| `PaymentInitiate.Screen` | src/app/api/payment/initiate/route.ts:12-72 | unparseable body gives 500; falsy id gives 400 before any read; a read error or absent row gives 404; a failing guard gives 400 with its message. Otherwise the gateway is called with the shipment's id, number, positive revenue, customer phone and the derived return and webhook URLs |
| `PaymentInitiate.RejectionsAreErrors` | src/app/api/payment/initiate/route.ts:14-53 | every early answer is an error response with status 400, 404 or 500 |
| `PaymentInitiate.MarkInitiated` | src/app/api/payment/initiate/route.ts:81-87 | the written row has `payment_status` `initiated` and the gateway's transaction id (unchanged when that id is undefined); every other field is unchanged |
| `PaymentInitiate.SecondInitiationProceeds` | src/app/api/payment/initiate/route.ts:42-87 | after a recorded initiation, the same request passes every guard again and reaches the gateway a second time |
| `PaymentInitiate.ShipmentStore.InitiatePayment` | src/app/api/payment/initiate/route.ts:10-107 | early answers, a throwing gateway and a failing gateway leave the store unchanged (the gateway failure gives 500 with the gateway's error or "Failed to create payment"). On gateway success the response carries the gateway's redirect URL and transaction id, the amount sent and the sandbox flag, and only the target row is rewritten by `MarkInitiated`. A failed write changes nothing but does not change the response |
| `PaymentInitiate.ArrivedShipmentReachesGateway` | src/app/api/payment/initiate/route.ts:30-72 | an arrived, OTP-verified, unpaid shipment with revenue 500 reaches the gateway with amount 500 |
| `PaymentInitiate.PendingShipmentRefused` | src/app/api/payment/initiate/route.ts:30-34 | a pending shipment is refused with 400 and "Payment can only be initiated for arrived shipments" |

## Left out

- Rendering is not modelled: JSX, CSS classes, icons, the driver and vehicle cells, the empty-table message and the customer-details sheet (`handleViewCustomer`). They are presentation.
- `formatDate` is not modelled, and neither is the locale formatting of a non-null revenue. Both depend on `Date` and `Intl`. `FormatCurrency` takes the formatter as a parameter.
- `router.refresh()` is not modelled. The `confirm()` dialog is a boolean input.
- The server actions `updateShipmentStatus` and `deleteShipment` are not part of this model. The table only records the calls it issues, and whether an action resolves or rejects is an input to `Settle`.
- Concurrency is not modelled. In the table, a second mutation started while one is in flight overwrites `loading`, and the first to finish clears it for both. Two payment initiations for one shipment can both pass the guards. Only the sequential version is stated, by `SecondInitiationProceeds`.
- The Supabase client is replaced by a map. A read error and a write error are boolean inputs, and a failed write is taken to leave the row as it was. The `console.error` logging is left out.
- `createStandardCheckout` is a foreign gateway and is replaced by its outcome (`GatewayOutcome`). `hasSaltKeyCredentials` is `Config.saltKeyCredentials`. `NEXT_PUBLIC_APP_URL` is `Config.appUrl`.
- Of the catch-all 500, only a body that does not parse and a gateway call that throws are modelled. Other thrown exceptions are not.
- RedirectUrl: the shipment id is put into the return URL without URL encoding. The model states that the raw id follows the callback path. It does not claim that a query-string parser would read the same id back, which fails for ids holding `&`, `#`, `+` or `%`.
- `shipmentId` is modelled as an optional string. Non-string JSON values (numbers, booleans, objects) are not modelled.
- Revenue is a real number. `NaN` and floating-point rounding are not modelled.
- The `status` column holds one of the five statuses. `StatusBadge` takes the raw string because its fallback shows unknown values verbatim.
