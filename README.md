# SkyBroker shipment lifecycle in Dafny

SkyBroker is a Laravel shipping broker. A shipment is taken in as a DRAFT,
paid for (through a simulator or a payment-provider webhook), given a label
by a background job, and can be linked to the InPost (ShipX) carrier. The
controllers and the label job change a shipment's status only along one
fixed table of allowed transitions; the carrier flow is the exception and
assigns its status directly (see below).

This project models that lifecycle:

- `status_machine.dfy` (`StatusMachine`): the shipment status enum, its
  transition table, `canTransitionTo` and `assertCanTransition`. It also
  holds the guarded write `if canTransitionTo(X) then status := X` that
  every controller uses, and proofs about terminal states, acyclicity and
  the happy path.
- `inpost_carrier.dfy` (`InPostCarrier`) models the carrier:
  - `createShipment`: three carrier requests (create draft, fetch offers,
    select offer) over carrier responses given as inputs; the shipment is
    written only after all three succeed
  - `mapService`, the draft payload, offer selection and `getLabel`
- `carrier_resolver.dfy` (`CarrierResolver`): case-insensitive,
  fail-closed lookup of a carrier by code.
- `fetch_label_job.dfy`, `payments_controller.dfy`,
  `webhooks_controller.dfy` and `shipments_controller.dfy` model the
  label job, payment start and simulation, the payment webhook, and
  shipment intake, label serving and tracking. They are methods on an
  in-memory `Database` that holds:
  - shipment objects, whose mutable fields the methods update in place
  - the payment, label and tracking-event tables as sequences in
    creation order
  - the local label disk
- `models.dfy`, `queries.dfy` (Eloquent `first()` and
  `latest()->first()` over a table) and `php_strings.dfy` (`strtoupper`,
  `trim`, `rtrim`, PHP string truthiness) are shared definitions.

Carrier HTTP responses, configuration values, the webhook key, `now()` and
the label timestamp are parameters. Each method is proved against a
specification function of its inputs and old state, and the properties are
proved about those functions.

In a few places the code does not behave as a reader of the design would
expect. The model follows the code:

- A repeated transition to the status a shipment already has might be
  expected to succeed as a no-op. In the code `canTransitionTo(s, s)` is
  false for every status, so `assertCanTransition` raises on it and the
  guarded writes skip it (`StatusMachine.NoSelfTransition`).
- The label job might be expected to fetch the label from the carrier and
  to refuse a shipment without a carrier identifier. It stores a fixed
  placeholder PDF and needs no carrier identifier.
- Payments have only the statuses PENDING, PAID and FAILED; there is no
  cancelled payment, and the webhook acts on PAID events only.
- Nothing in the code calls `createShipment` or `resolve`; intake does not
  contact the carrier. Both are modelled as standalone operations, and a
  carrier failure raises rather than being absorbed.
- The carrier flow assigns `ShipmentStatus::CREATED` directly, without the
  transition guard, and the enum does not declare that case (see
  Findings). The model adds `Created` as a status with no table entry: no
  edge leads into it or out of it (`StatusMachine.MissingKeyHasNoExit`,
  `StatusMachine.NothingEntersCreated`).

## Model

| member | source | states |
|---|---|---|
| StatusMachine.AllowedTransitions | app/Enums/ShipmentStatus.php:48-61 | the map has a key for every declared case and none for CREATED; no entry lists its own key or CREATED |
| StatusMachine.CanTransitionTo | app/Enums/ShipmentStatus.php:23-28 | an allowed transition never keeps the status, never leaves CREATED and never enters it |
| StatusMachine.CanTransitionToExactlyTheTable | app/Enums/ShipmentStatus.php:48-61 | `canTransitionTo(from, to)` holds exactly for the ten pairs of the table and for no other pair |
| StatusMachine.TableHasTenEdges | app/Enums/ShipmentStatus.php:50-60 | the table has exactly ten distinct edges |
| StatusMachine.TerminalHasNoExit | app/Enums/ShipmentStatus.php:57-59 | DELIVERED, CANCELLED and RETURNED have an empty entry, so no transition leaves them |
| StatusMachine.MissingKeyHasNoExit | app/Enums/ShipmentStatus.php:27 | a status without a key in the map (only CREATED) has no outgoing transition, through the `?? []` default |
| StatusMachine.NothingEntersCreated | app/Enums/ShipmentStatus.php:50-60 | no table entry contains CREATED, so no guarded write can reach it |
| StatusMachine.NoSelfTransition | app/Enums/ShipmentStatus.php:48-61 | `canTransitionTo(s, s)` is false for every status: a repeated transition is refused, not a no-op |
| StatusMachine.CancelledOnlyEarly | app/Enums/ShipmentStatus.php:51-53 | CANCELLED is reachable in one step exactly from DRAFT, PENDING_PAYMENT and PAID |
| StatusMachine.EdgeMovesForward | app/Enums/ShipmentStatus.php:50-60 | every edge strictly increases the lifecycle rank DRAFT < PENDING_PAYMENT < PAID < LABEL_READY < MANIFESTED < SHIPPED < terminal |
| StatusMachine.AssertCanTransition | app/Enums/ShipmentStatus.php:33-42 | `assertCanTransition` raises exactly when `canTransitionTo` is false, naming both statuses, and otherwise does nothing |
| StatusMachine.GuardedStep | app/Http/Controllers/Api/V1/PaymentsController.php:28-31 | the guarded write moves to the target when the edge exists and otherwise leaves the status as it was, without raising |
| StatusMachine.GuardedStepIdempotent | app/Http/Controllers/Api/V1/PaymentsController.php:64-67 | applying the same guarded write twice leaves the status one application leaves |
| StatusMachine.GuardedStepMonotone | app/Enums/ShipmentStatus.php:50-60 | a guarded write never leaves a terminal status and never moves the status backwards |
| StatusMachine.WalkMovesForward | app/Enums/ShipmentStatus.php:50-60 | along any sequence of allowed transitions the rank strictly increases |
| StatusMachine.WalkNeverRevisits | app/Enums/ShipmentStatus.php:50-60 | the edge relation is acyclic: a sequence of allowed transitions never returns to a status |
| StatusMachine.WalkFromTerminalIsTrivial | app/Enums/ShipmentStatus.php:57-59 | no sequence of allowed transitions leaves a terminal status |
| StatusMachine.Drive | app/Enums/ShipmentStatus.php:33-42 | driving a path with `assertCanTransition` at each hop can only fail on a path of two or more statuses, and then names a forbidden pair of statuses taken from the path |
| StatusMachine.DrivePassesExactlyWalks | app/Enums/ShipmentStatus.php:33-42 | calling `assertCanTransition` at every hop of a path succeeds exactly when every hop is an edge |
| StatusMachine.DriveFailsAtFirstBadHop | app/Enums/ShipmentStatus.php:33-42 | driving a path fails at its first forbidden hop, naming that hop |
| StatusMachine.HappyPathPasses | app/Enums/ShipmentStatus.php:51-56 | DRAFT, PENDING_PAYMENT, PAID, LABEL_READY, MANIFESTED, SHIPPED, DELIVERED passes every hop |
| StatusMachine.HappyPathBrokenHopFails | app/Enums/ShipmentStatus.php:33-42 | replacing the target of any single hop of the happy path by a non-edge makes the drive fail at exactly that hop |
| Queries.FirstMatch | app/Http/Controllers/Api/V1/WebhooksController.php:32 | `first()` returns the earliest matching row, or none when no row matches |
| Queries.LastMatch | app/Http/Controllers/Api/V1/PaymentsController.php:47 | `latest()->first()` returns the most recently created matching row, or none when no row matches |
| Queries.LastMatchOfAppended | app/Http/Controllers/Api/V1/ShipmentsController.php:104 | a matching row created last is the latest match |
| Queries.LastMatchSkipsUnrelated | app/Http/Controllers/Api/V1/ShipmentsController.php:104 | creating a row that does not match leaves the latest match unchanged |
| Models.Shipment.constructor | app/Http/Controllers/Api/V1/ShipmentsController.php:48-84 | a new shipment has the given intake fields and no price, carrier, carrier shipment id or tracking number |
| PhpStrings.Upper | app/Infra/Carriers/InPost/InPostCarrier.php:203 | `strtoupper` keeps the length and upper-cases exactly the ASCII letters a-z |
| PhpStrings.UpperOfUpper | app/Domain/Carriers/CarrierResolver.php:12 | a string with no lower-case letter is unchanged by `strtoupper` |
| PhpStrings.UpperIdempotent | app/Domain/Carriers/CarrierResolver.php:12 | upper-casing twice is upper-casing once |
| PhpStrings.LeadingTrimmable | app/Infra/Carriers/InPost/InPostCarrier.php:203 | the length of the longest run of strippable characters at the start: every character before it is strippable and the one at it is not |
| PhpStrings.TrailingTrimmable | app/Infra/Carriers/InPost/InPostCarrier.php:203 | the length of the longest run of strippable characters at the end: every character in it is strippable and the one before it is not |
| PhpStrings.TrimLeft | app/Infra/Carriers/InPost/InPostCarrier.php:203 | the left half of `trim`: a suffix of the input that does not start with a strippable character, everything removed being strippable |
| PhpStrings.TrimRight | app/Infra/Carriers/InPost/InPostCarrier.php:203 | the right half of `trim`: a prefix of the input that does not end with a strippable character, everything removed being strippable |
| PhpStrings.Trim | app/Infra/Carriers/InPost/InPostCarrier.php:203 | `trim` never lengthens its input, and its result neither starts nor ends with a character of the default list " \t\n\r\0\x0B" |
| PhpStrings.TrimIsSlice | app/Infra/Carriers/InPost/InPostCarrier.php:203 | `trim` keeps a contiguous middle of its input; everything removed before and after it is strippable |
| PhpStrings.TrimUpperTrim | app/Infra/Carriers/InPost/InPostCarrier.php:203 | an upper-cased trimmed string is already trimmed |
| PhpStrings.RTrimSlash | app/Infra/Carriers/InPost/InPostCarrier.php:19 | `rtrim($s, '/')` removes exactly the trailing slashes: a prefix of the input, not ending in '/', followed in the input only by slashes |
| PhpStrings.Str | app/Infra/Carriers/InPost/InPostCarrier.php:19-20 | `(string)` of null is the empty string, and of a string is that string |
| PhpStrings.Truthy | app/Infra/Carriers/InPost/InPostCarrier.php:23 | a string of two or more characters is truthy, and a one-character string is truthy exactly when it is not "0" |
| PhpStrings.TruthyOpt | app/Infra/Carriers/InPost/InPostCarrier.php:166 | a nullable string is truthy exactly when its `(string)` conversion is |
| FetchLabelJob.LabelPath | app/Jobs/FetchLabelJob.php:29 | the storage key is `labels/`, the shipment id, `-`, the timestamp and `.pdf` |
| FetchLabelJob.JobLabel | app/Jobs/FetchLabelJob.php:28-38 | the label row has the job's format, mime type application/pdf, size 77 (the placeholder's length) and a path ending in .pdf, whatever the format |
| FetchLabelJob.Handle | app/Jobs/FetchLabelJob.php:23-44 | an unknown shipment fails and changes nothing. Otherwise: exactly one label row is appended and the placeholder stored; the status becomes LABEL_READY only from PAID; payments and other shipments are untouched. No carrier identifier is needed |
| FetchLabelJob.HandleTwice | app/Jobs/FetchLabelJob.php:32-43 | two runs leave two label rows and the status one run leaves |
| PaymentsController.PaidThenLabelReady | app/Http/Controllers/Api/V1/PaymentsController.php:64-70 | a payment confirmation followed by the label job takes PENDING_PAYMENT or PAID to LABEL_READY and leaves every other status, DRAFT included, unchanged |
| PaymentsController.PaidThenLabelReadyIdempotent | app/Http/Controllers/Api/V1/PaymentsController.php:64-70 | a second confirmation leaves the status the first one left |
| PaymentsController.SimulatedPayments | app/Http/Controllers/Api/V1/PaymentsController.php:47-62 | the latest payment of the shipment, or a new simulator payment when it has none, is marked PAID at `now`; every other row, and every row of other shipments, is unchanged |
| PaymentsController.Start | app/Http/Controllers/Api/V1/PaymentsController.php:15-38 | an unknown shipment gives 404 and no change. Otherwise one new PENDING payment (simulator, 0 PLN) is always appended and its id returned. The status becomes PENDING_PAYMENT only when the guard allows (from DRAFT) |
| PaymentsController.PayLatest | app/Http/Controllers/Api/V1/PaymentsController.php:47-62 | the payments table becomes `SimulatedPayments` of the old table, keeping ids unique and increasing |
| PaymentsController.Simulate | app/Http/Controllers/Api/V1/PaymentsController.php:40-73 | an unknown shipment gives 422 and no change. Otherwise the payments follow `SimulatedPayments`, the status becomes `PaidThenLabelReady(old status)`, and exactly one A6 label is appended, whether or not the status changed |
| WebhooksController.WebhookPayments | app/Http/Controllers/Api/V1/WebhooksController.php:32-47 | the shipment's payment named by `payment_id` is marked PAID with `paid_at = now` and every other row is kept; when there is none, a new PAID payment from provider 'provider' is appended; payments of other shipments are never modified |
| WebhooksController.OnlyNamedPaymentChanges | app/Http/Controllers/Api/V1/WebhooksController.php:32-47 | with unique payment ids, a payment with another id is left unchanged |
| WebhooksController.UnnamedDeliveryTwiceAppendsTwo | app/Http/Controllers/Api/V1/WebhooksController.php:32-42 | a delivery naming no payment of the shipment appends a PAID payment each time it is delivered |
| WebhooksController.Payments | app/Http/Controllers/Api/V1/WebhooksController.php:16-58 | a key not strictly equal to the configured one gives 401 and changes no table and no shipment status (an absent header matches an unset key). An unknown shipment gives 422. Anything but a `payment.paid` event with status PAID (in any case) gives 204 and no change. Otherwise the payments follow `WebhookPayments`, the status becomes `PaidThenLabelReady(old status)` and one A6 label is appended |
| WebhooksController.UpsertPaidPayment | app/Http/Controllers/Api/V1/WebhooksController.php:32-47 | the payments table becomes `WebhookPayments` of the old table, keeping ids unique and increasing |
| ShipmentsController.NormalizedParty | app/Http/Controllers/Api/V1/ShipmentsController.php:53-71 | an address block is stored with its country code upper-cased and every other field as given |
| ShipmentsController.NormalizedPartyIdempotent | app/Http/Controllers/Api/V1/ShipmentsController.php:53-71 | normalising an address block twice is normalising it once |
| ShipmentsController.Store | app/Http/Controllers/Api/V1/ShipmentsController.php:16-94 | exactly one new shipment is added, in DRAFT. Its country codes are upper-cased, absent optional fields are null, and the metadata holds the COD and insurance amounts. Existing shipments and all other tables are unchanged. The reply carries the new id and "DRAFT" |
| ShipmentsController.ServeLabel | app/Http/Controllers/Api/V1/ShipmentsController.php:96-115 | the format (default A6) is upper-cased and anything outside A6, A4, ZPL gives 422 before the shipment lookup. Then an unknown shipment gives 404. The shipment's most recently created label is served when its file exists, with its mime type (default application/pdf), and 404 "Label not ready" otherwise |
| ShipmentsController.ServeLabelIgnoresValidFormat | app/Http/Controllers/Api/V1/ShipmentsController.php:98-101 | every accepted format gets the same reply |
| ShipmentsController.ServesNewestLabel | app/Http/Controllers/Api/V1/ShipmentsController.php:104-114 | a label created last for the shipment, with its file stored, is the one served |
| ShipmentsController.EventsOf | app/Http/Controllers/Api/V1/ShipmentsController.php:120 | the filter keeps exactly the shipment's events, each as many times as it occurs |
| ShipmentsController.Insert | app/Http/Controllers/Api/V1/ShipmentsController.php:120 | insertion adds exactly the one event to the multiset of events |
| ShipmentsController.InsertKeepsOrder | app/Http/Controllers/Api/V1/ShipmentsController.php:120 | inserting into a sequence ordered by `occurred_at` keeps it ordered |
| ShipmentsController.OrderByOccurrence | app/Http/Controllers/Api/V1/ShipmentsController.php:120 | `orderBy('occurred_at')` returns a permutation of its input in ascending order, null timestamps first |
| ShipmentsController.Tracking | app/Http/Controllers/Api/V1/ShipmentsController.php:117-134 | an unknown shipment gives 404. Otherwise the reply has the shipment's id and tracking number and exactly its events, in ascending `occurred_at` order |
| InPostCarrier.GetName | app/Infra/Carriers/InPost/InPostCarrier.php:196-199 | the carrier's name, INPOST, has no lower-case letter |
| InPostCarrier.BaseUrl | app/Infra/Carriers/InPost/InPostCarrier.php:19 | the base URL is empty when unset and never ends in '/' |
| InPostCarrier.ConfigOk | app/Infra/Carriers/InPost/InPostCarrier.php:19-25 | the configuration is usable exactly when the slash-trimmed base URL and the token are both truthy, which needs both entries set |
| InPostCarrier.MapService | app/Infra/Carriers/InPost/InPostCarrier.php:201-209 | an unknown code raises naming the code as given (its full contract is `MapServiceAcceptsExactlyTheCodes`) |
| InPostCarrier.MapServiceAcceptsExactlyTheCodes | app/Infra/Carriers/InPost/InPostCarrier.php:201-209 | `mapService` succeeds exactly when the trimmed, upper-cased code is one of the three service codes, returns that code's lower-case spelling, and otherwise raises naming the code as given |
| InPostCarrier.ShipXName | app/Infra/Carriers/InPost/InPostCarrier.php:203-207 | the lookup table has an entry exactly for the three service codes |
| InPostCarrier.ShipXNameSpellsKey | app/Infra/Carriers/InPost/InPostCarrier.php:204-206 | each ShipX name is lower-case and upper-cases to its code |
| InPostCarrier.LockerStandardSpelling | app/Infra/Carriers/InPost/InPostCarrier.php:204 | inpost_locker_standard is lower-case and upper-cases to INPOST_LOCKER_STANDARD |
| InPostCarrier.LockerEconomySpelling | app/Infra/Carriers/InPost/InPostCarrier.php:205 | inpost_locker_economy is lower-case and upper-cases to INPOST_LOCKER_ECONOMY |
| InPostCarrier.CourierStandardSpelling | app/Infra/Carriers/InPost/InPostCarrier.php:206 | inpost_courier_standard is lower-case and upper-cases to INPOST_COURIER_STANDARD |
| InPostCarrier.MapServiceNormalizes | app/Infra/Carriers/InPost/InPostCarrier.php:203 | a code and its trimmed, upper-cased form are accepted alike and map to the same name |
| InPostCarrier.DraftPayloadFor | app/Infra/Carriers/InPost/InPostCarrier.php:28-75 | the draft carries the mapped service and the shipment's id as reference; its other fields are stated in `DraftPayloadContents` and `DraftPayloadContacts` |
| InPostCarrier.DraftPayloadContents | app/Infra/Carriers/InPost/InPostCarrier.php:39-75 | the draft has reference = shipment id and the fixed 80×380×640 mm parcel. The sender has an address with an upper-cased country code; the receiver has none. Both carry the configured sender e-mail (default noreply@example.com). `target_point` is present exactly when it is truthy |
| InPostCarrier.DraftPayloadContacts | app/Infra/Carriers/InPost/InPostCarrier.php:47-67 | each contact carries its party's name as company, first and last name, and its party's phone; the sender address carries the sender's street, city and postal code with building number "1" |
| InPostCarrier.PickOffer | app/Infra/Carriers/InPost/InPostCarrier.php:117 | the chosen offer is the first whose service equals the mapped service, or the first offer when none does |
| InPostCarrier.ChooseOffer | app/Infra/Carriers/InPost/InPostCarrier.php:110-125 | "no offers" is raised exactly when the offers body is empty or not a list. Otherwise the flow succeeds exactly when the chosen offer's id is truthy, returning that id, and raises "no offer id" exactly when it is not |
| InPostCarrier.OfferSelectionExamples | app/Infra/Carriers/InPost/InPostCarrier.php:117 | with offers o1 (std) and o2 (eco): std selects o1, eco selects o2, an unknown service falls back to o1 |
| InPostCarrier.Transaction | app/Infra/Carriers/InPost/InPostCarrier.php:17-145 | the flow succeeds only when the configuration is usable and the service maps |
| InPostCarrier.CarrierSteps | app/Infra/Carriers/InPost/InPostCarrier.php:77-145 | once a draft is built, one to three requests are sent, the first being the draft creation |
| InPostCarrier.CarrierStepsProtocol | app/Infra/Carriers/InPost/InPostCarrier.php:77-145 | one to three requests in the order create draft, fetch offers, select offer. Each is sent only when the previous step succeeded (a truthy draft id, a chosen offer), and success needs all three |
| InPostCarrier.TransactionProtocol | app/Infra/Carriers/InPost/InPostCarrier.php:17-145 | requests reach the carrier exactly when the base URL and token are truthy and the service maps; with no request the flow has failed |
| InPostCarrier.NoCallWithoutConfigOrService | app/Infra/Carriers/InPost/InPostCarrier.php:19-27 | a missing base URL or token, or an unmapped service code, fails before any request, with the configuration error checked first |
| InPostCarrier.OffersFailureStopsAfterTwoCalls | app/Infra/Carriers/InPost/InPostCarrier.php:94-108 | a failed offers request ends the flow after exactly the create and offers requests |
| InPostCarrier.RunCarrierSteps | app/Infra/Carriers/InPost/InPostCarrier.php:77-145 | the step-by-step requests and their outcome are those of `CarrierSteps` |
| InPostCarrier.IssueRequests | app/Infra/Carriers/InPost/InPostCarrier.php:17-145 | the requests `createShipment` issues and its outcome are those of `Transaction` |
| InPostCarrier.CreateShipment | app/Infra/Carriers/InPost/InPostCarrier.php:17-153 | a failed flow leaves the shipment unchanged. A successful one sets the carrier to INPOST and `carrier_shipment_id` to the draft id, keeps the old tracking number unless the returned one is truthy, and sets CREATED without consulting the guard |
| InPostCarrier.DeclaredCase | app/Enums/ShipmentStatus.php:7-15 | a status name resolves only to a declared case with that value, and never to CREATED |
| InPostCarrier.FindingInputSucceedsAtCarrier | app/Infra/Carriers/InPost/InPostCarrier.php:17-145 | with API URL "https://api", token "tok", service code INPOST_LOCKER_STANDARD, draft id "x1", one offer "o1" and a successful selection, the carrier transaction succeeds with draft id "x1", so the status assignment is reached |
| InPostCarrier.LockerStandardMaps | app/Infra/Carriers/InPost/InPostCarrier.php:201-209 | every code that trims and upper-cases to INPOST_LOCKER_STANDARD is accepted by `mapService` |
| InPostCarrier.CreatedIsNotDeclared | app/Enums/ShipmentStatus.php:7-15 | no declared case of the enum is named CREATED |
| InPostCarrier.AsWrittenSuccessPathRaises | app/Infra/Carriers/InPost/InPostCarrier.php:77-151 | on every run whose three requests succeed, all three were sent, the last selecting the offer of the created draft, before the status assignment is reached |
| InPostCarrier.CreateShipmentAsWritten | app/Infra/Carriers/InPost/InPostCarrier.php:17-153 | as written, every run ends in an error and leaves the stored shipment as it was: the carrier's error when a step fails, and otherwise, after exactly three requests, the undefined-case Error for CREATED |
| InPostCarrier.NormalizeFormat | app/Infra/Carriers/InPost/InPostCarrier.php:160-163 | the format is upper-cased and anything outside A6, A4, ZPL becomes A6 |
| InPostCarrier.LabelCarrierId | app/Infra/Carriers/InPost/InPostCarrier.php:165 | `carrier_shipment_id ?? tracking_number`: null only when both are null, and the carrier shipment id whenever it is not null |
| InPostCarrier.GetLabel | app/Infra/Carriers/InPost/InPostCarrier.php:158-194 | `carrier_shipment_id` is used, falling back to the tracking number only when it is null. A falsy id raises before the configuration check and before any request. The request targets `{base}/v1/shipments/{id}/label` with the normalised format (A6 when none is given), accepting text/plain for ZPL and application/pdf otherwise. The body is returned on success, and the status is raised on failure |
| InPostCarrier.EmptyCarrierIdShadowsTrackingNumber | app/Infra/Carriers/InPost/InPostCarrier.php:165-168 | an empty `carrier_shipment_id` is not null, so it is chosen over a usable tracking number and the call is refused |
| CarrierResolver.Resolve | app/Domain/Carriers/CarrierResolver.php:10-18 | resolution succeeds exactly when the upper-cased code is INPOST, and otherwise raises naming the upper-cased code; there is no default carrier |
| CarrierResolver.ResolveIgnoresCase | app/Domain/Carriers/CarrierResolver.php:12 | resolving a code and resolving its upper-cased form agree |
| CarrierResolver.AnyCasingResolves | app/Domain/Carriers/CarrierResolver.php:12-15 | every casing of "inpost" resolves to the InPost carrier |
| CarrierResolver.NameResolvesBack | app/Domain/Carriers/CarrierResolver.php:10-18 | every carrier is found again by resolving the name it reports |
| CarrierResolver.ResolvedCarrierIsInPost | app/Domain/Carriers/CarrierResolver.php:14-15 | the resolved carrier reports the name INPOST |

## Left out

- HTTP transport: the bearer token, the `Organization-Id` header (sent when truthy), `acceptJson`, timeouts and logging. Requests are recorded as values without headers.
- Carrier response bodies are optional strings (draft id, offer id, tracking number) and an optional list of offers. Not modelled: non-string JSON values (a numeric id, for example), an offers body that is an associative array, and offer elements that are not objects.
- The `(float)` cast of the parcel weight, and all decimal columns (weights, amounts, price), which are opaque values.
- `config()` and `env()` reads: they are inputs (`Config`, the configured webhook key). A non-string configuration value and its `(string)` conversion are not modelled.
- Request validation: only the `exists:shipments,id` rule (422) is modelled. `Store` takes an already validated request, without the required, email, size and minimum rules.
- `now()` and the label timestamp are parameters. `latest()` orders by `created_at`, and the database decides between rows created in the same second; the model takes the row inserted last.
- Label files: the local disk is a map from path to content; disk errors are not modelled.
- ShipmentsController.Store: the code never assigns a shipment's primary key. The `Shipment` model has no ULID trait, unlike the payment, label and tracking-event models, and intake never sets `id`. The `shipments.id` column is a ULID primary key with no default. As written, the insert therefore has no key (plausible, not executed). The model supplies the key the code never assigns, as the parameter `newId`. Intake also assigns a PHP array to `metadata`, but the `Shipment` model has no cast for that column, unlike the JSON columns of the payment, COD payment and tracking-event models. As written, the insert would then bind a raw array and fail even with a key (plausible, not executed). The model stores the COD and insurance amounts the code evidently intends.
- The carrier column: the migration names it `carrier_code` and intake's reply reads that column, while the carrier flow writes `carrier`. The model has one field, `carrier`, and the intake reply's carrier is that field of the new shipment, which is null.
- The `shipments` table has no `carrier_shipment_id` column and no `carrier` column, yet `createShipment` writes both and `getLabel` reads `carrier_shipment_id`. The model keeps them as fields of the shipment and does not model the database error persisting them would raise.
- The `created_at` and `price_pln` fields of the intake reply: the price is null for a new shipment and `created_at` is not modelled.
- ISO-8601 formatting of `occurred_at` in the tracking reply. How SQL orders null timestamps and equal timestamps depends on the database. The model puts nulls first and leaves equal timestamps in an order it does not promise.
- Payment ids are ULID strings in the application and natural numbers here, unique and increasing in creation order. A webhook `payment_id` that names no payment of the shipment behaves like null.
- Concurrency, locking and retries: the code has none.
- The PHP `Error` raised at the CREATED assignment is modelled by `InPostCarrier.CreateShipmentAsWritten`; `InPostCarrier.CreateShipment` models the intended write (see Findings).
- Persistence calls (`save()`, `create()`) are direct updates of the in-memory tables and objects.
- The routes, the service provider, the health controller, the Eloquent models and migrations, the carrier interfaces and the unimplemented InPost HTTP client are not part of this model.

## Findings

| source | as written | input that shows it | evidently intended | confidence | as-written member | corrected member |
|---|---|---|---|---|---|---|
| app/Infra/Carriers/InPost/InPostCarrier.php:151 | assigns `ShipmentStatus::CREATED`, which the enum (app/Enums/ShipmentStatus.php:7-15) does not declare; PHP raises an Error on that line, after the carrier draft was created and its offer selected, so `save()` is never reached and the local shipment keeps no carrier link | API URL "https://api", token "tok", service code INPOST_LOCKER_STANDARD, draft response id "x1", offers `[{id: "o1"}]`, a successful select response (`InPostCarrier.FindingInputSucceedsAtCarrier`) | the carrier, the draft id, the tracking number and the CREATED status are recorded on the shipment | high, not executed | InPostCarrier.CreateShipmentAsWritten | InPostCarrier.CreateShipment |
