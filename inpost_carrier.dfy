/**
 * The InPost (ShipX) carrier (app/Infra/Carriers/InPost/InPostCarrier.php).
 * The carrier's HTTP responses are inputs; the model covers which requests
 * are issued, in which order, when the flow stops, and what it writes.
 */
module InPostCarrier {
  import opened Wrappers
  import opened PhpStrings
  import opened StatusMachine
  import opened Models
  import opened Queries

  /** The `carriers.inpost` configuration entries; an unset entry is `None`. */
  datatype Config = Config(
    apiUrl: Option<string>,
    token: Option<string>,
    organizationId: Option<string>,
    senderEmail: Option<string>,
    defaultTargetPoint: Option<string>)

  /** The exceptions the carrier raises, one per distinct failure. */
  datatype CarrierError =
    | ConfigurationMissing        // RuntimeException: no api_url or token
    | UnsupportedService(code: string)  // InvalidArgumentException from mapService
    | CreateFailed(status: int)   // POST /v1/shipments failed
    | DraftIdMissing              // the created draft has no id
    | OffersFailed(status: int)   // GET offers failed
    | NoOffers                    // offers body empty or not a list
    | OfferIdMissing              // the chosen offer has no id
    | SelectOfferFailed(status: int)  // POST select_offer failed
    | CarrierIdMissing            // getLabel: no carrier_shipment_id / tracking_number
    | LabelFailed(status: int)    // GET label failed
    | UndefinedCase(name: string) // Error: the enum has no case of that name

  /** A carrier HTTP response: a failed status, or a successful body. */
  datatype Response<T> = Failed(status: int) | Succeeded(body: T)

  /** `getName`. */
  function GetName(): (n: string)
    ensures IsUpper(n)
  {
    "INPOST"
  }

  /** The base URL with trailing slashes removed. */
  function BaseUrl(cfg: Config): (u: string)
    ensures cfg.apiUrl.None? ==> u == ""
    ensures u == [] || u[|u| - 1] != '/'
  {
    RTrimSlash(Str(cfg.apiUrl))
  }

  /** The configuration check both operations make: base URL and token are truthy. */
  predicate ConfigOk(cfg: Config)
    ensures ConfigOk(cfg) <==> Truthy(BaseUrl(cfg)) && Truthy(Str(cfg.token))
    ensures ConfigOk(cfg) ==> cfg.apiUrl.Some? && cfg.token.Some? && |BaseUrl(cfg)| > 0
  {
    Truthy(BaseUrl(cfg)) && Truthy(Str(cfg.token))
  }

  // ---------------------------------------------------------------------
  // mapService

  const ServiceCodes: set<string> :=
    {"INPOST_LOCKER_STANDARD", "INPOST_LOCKER_ECONOMY", "INPOST_COURIER_STANDARD"}

  /**
   * `mapService`: the trimmed, upper-cased code must be one of three; its
   * ShipX name is the lower-case spelling of that code.
   */
  function MapService(code: string): (r: Result<string, CarrierError>)
    ensures r.Failure? ==> r.error == UnsupportedService(code)
  {
    match ShipXName(Upper(Trim(code)))
    case Some(name) => Success(name)
    case None => Failure(UnsupportedService(code))
  }

  /**
   * `mapService` accepts exactly the three codes (after trimming and
   * upper-casing), returns the lower-case spelling, and otherwise reports
   * the code as given.
   */
  lemma MapServiceAcceptsExactlyTheCodes(code: string)
    ensures MapService(code).Success? <==> Upper(Trim(code)) in ServiceCodes
    ensures MapService(code).Success? ==>
      IsLower(MapService(code).value) && Upper(MapService(code).value) == Upper(Trim(code))
    ensures MapService(code).Failure? ==> MapService(code).error == UnsupportedService(code)
  {
    if MapService(code).Success? {
      ShipXNameSpellsKey(Upper(Trim(code)));
    }
  }

  /** The ShipX name of a normalised service code. */
  function ShipXName(key: string): (name: Option<string>)
    ensures name.Some? <==> key in ServiceCodes
  {
    if key == "INPOST_LOCKER_STANDARD" then Some("inpost_locker_standard")
    else if key == "INPOST_LOCKER_ECONOMY" then Some("inpost_locker_economy")
    else if key == "INPOST_COURIER_STANDARD" then Some("inpost_courier_standard")
    else None
  }

  /** Each ShipX name is the lower-case spelling of its code. */
  lemma ShipXNameSpellsKey(key: string)
    requires ShipXName(key).Some?
    ensures IsLower(ShipXName(key).value) && Upper(ShipXName(key).value) == key
  {
    if key == "INPOST_LOCKER_STANDARD" {
      LockerStandardSpelling();
    } else if key == "INPOST_LOCKER_ECONOMY" {
      LockerEconomySpelling();
    } else {
      CourierStandardSpelling();
    }
  }

  lemma LockerStandardSpelling()
    ensures IsLower("inpost_locker_standard")
    ensures Upper("inpost_locker_standard") == "INPOST_LOCKER_STANDARD"
  {
  }

  lemma LockerEconomySpelling()
    ensures IsLower("inpost_locker_economy")
    ensures Upper("inpost_locker_economy") == "INPOST_LOCKER_ECONOMY"
  {
  }

  lemma CourierStandardSpelling()
    ensures IsLower("inpost_courier_standard")
    ensures Upper("inpost_courier_standard") == "INPOST_COURIER_STANDARD"
  {
  }

  /**
   * Surrounding whitespace and letter case do not matter to `mapService`:
   * the normalised code is accepted exactly when the code is, with the same
   * ShipX name.
   */
  lemma MapServiceNormalizes(code: string)
    ensures MapService(Upper(Trim(code))).Success? <==> MapService(code).Success?
    ensures MapService(code).Success? ==> MapService(Upper(Trim(code))) == MapService(code)
  {
    TrimUpperTrim(code);
    UpperIdempotent(Trim(code));
  }

  // ---------------------------------------------------------------------
  // The draft payload

  datatype Address = Address(street: string, buildingNumber: string, city: string,
                             postCode: string, countryCode: string)

  /** A sender or receiver block; the receiver has no address. */
  datatype Contact = Contact(companyName: string, firstName: string, lastName: string,
                             email: string, phone: string, address: Option<Address>)

  datatype Dimensions = Dimensions(length: int, width: int, height: int, unit: string)

  datatype ParcelSpec = ParcelSpec(dimensions: Dimensions, weightAmount: Decimal, weightUnit: string)

  /** `custom_attributes` after `array_filter`: a falsy target point is dropped. */
  datatype CustomAttributes = CustomAttributes(targetPoint: Option<string>, sendingMethod: string)

  datatype DraftPayload = DraftPayload(
    service: string,
    reference: ShipmentId,
    sendingMethod: string,
    customAttributes: CustomAttributes,
    sender: Contact,
    receiver: Contact,
    parcels: seq<ParcelSpec>)

  /** The fixed minimum parcel size in millimetres. */
  const MinimumDimensions: Dimensions := Dimensions(80, 380, 640, "mm")

  function SenderEmail(cfg: Config): string
  {
    cfg.senderEmail.GetOr("noreply@example.com")
  }

  /** The body of `POST /v1/shipments` for shipment `s` and mapped service `service`. */
  function DraftPayloadFor(s: Shipment, cfg: Config, service: string): (p: DraftPayload)
    ensures p.reference == s.id && p.service == service
  {
    var targetPoint := Str(cfg.defaultTargetPoint);
    var email := SenderEmail(cfg);
    DraftPayload(
      service,
      s.id,
      "parcel_locker",
      CustomAttributes(if Truthy(targetPoint) then Some(targetPoint) else None, "parcel_locker"),
      Contact(s.sender.name, s.sender.name, s.sender.name, email, s.sender.phone,
              Some(Address(s.sender.street, "1", s.sender.city, s.sender.postalCode,
                           Upper(s.sender.countryCode)))),
      Contact(s.receiver.name, s.receiver.name, s.receiver.name, email, s.receiver.phone, None),
      [ParcelSpec(MinimumDimensions, s.parcel.weightKg, "kg")])
  }

  /**
   * The draft: the shipment's id as reference, the fixed minimum parcel
   * size, a sender address with an upper-cased country code, a receiver
   * without one, the configured sender e-mail on both, and the default
   * target point only when it is truthy.
   */
  lemma DraftPayloadContents(s: Shipment, cfg: Config, service: string)
    ensures var p := DraftPayloadFor(s, cfg, service);
      && p.service == service && p.reference == s.id && p.sendingMethod == "parcel_locker"
      && p.parcels == [ParcelSpec(MinimumDimensions, s.parcel.weightKg, "kg")]
    ensures var p := DraftPayloadFor(s, cfg, service);
      && p.sender.address.Some?
      && p.sender.address.value.countryCode == Upper(s.sender.countryCode)
      && IsUpper(p.sender.address.value.countryCode)
      && p.receiver.address.None?
    ensures var p := DraftPayloadFor(s, cfg, service);
      p.sender.email == SenderEmail(cfg) && p.receiver.email == SenderEmail(cfg)
    ensures var p := DraftPayloadFor(s, cfg, service);
      && (p.customAttributes.targetPoint.Some? <==> Truthy(Str(cfg.defaultTargetPoint)))
      && (p.customAttributes.targetPoint.Some? ==> p.customAttributes.targetPoint.value == Str(cfg.defaultTargetPoint))
  {
    UpperIsUpper(s.sender.countryCode);
  }

  /**
   * Both contacts carry their party's name as company, first and last name,
   * and their party's phone; the sender address carries the sender's street,
   * city and postal code, with the fixed building number "1".
   */
  lemma DraftPayloadContacts(s: Shipment, cfg: Config, service: string)
    ensures var p := DraftPayloadFor(s, cfg, service);
      && p.sender.companyName == s.sender.name && p.sender.firstName == s.sender.name
      && p.sender.lastName == s.sender.name && p.sender.phone == s.sender.phone
    ensures var p := DraftPayloadFor(s, cfg, service);
      && p.receiver.companyName == s.receiver.name && p.receiver.firstName == s.receiver.name
      && p.receiver.lastName == s.receiver.name && p.receiver.phone == s.receiver.phone
    ensures var p := DraftPayloadFor(s, cfg, service);
      && p.sender.address.Some?
      && p.sender.address.value.street == s.sender.street
      && p.sender.address.value.buildingNumber == "1"
      && p.sender.address.value.city == s.sender.city
      && p.sender.address.value.postCode == s.sender.postalCode
  {
  }

  // ---------------------------------------------------------------------
  // Offer selection

  /** An element of the offers list: its `id` and `service`, either possibly absent. */
  datatype Offer = Offer(id: Option<string>, service: Option<string>)

  function OfferFor(service: string): Offer -> bool
  {
    (o: Offer) => o.service == Some(service)
  }

  /** The first offer for the requested service, or else the first offer. */
  function PickOffer(offers: seq<Offer>, service: string): (k: nat)
    requires |offers| > 0
    ensures k < |offers|
    ensures offers[k].service == Some(service) ==>
      forall j :: 0 <= j < k ==> offers[j].service != Some(service)
    ensures offers[k].service != Some(service) ==>
      k == 0 && forall j :: 0 <= j < |offers| ==> offers[j].service != Some(service)
  {
    match FirstMatch(offers, OfferFor(service))
    case Some(k) => k
    case None => 0
  }

  /**
   * The offer id sent to `select_offer`; the body of the offers response is
   * `None` when it is null or not a list.
   */
  function ChooseOffer(body: Option<seq<Offer>>, service: string): (r: Result<string, CarrierError>)
    ensures r == Failure(NoOffers) <==> body.None? || body == Some([])
    ensures r.Success? <==>
      body.Some? && |body.value| > 0 && TruthyOpt(body.value[PickOffer(body.value, service)].id)
    ensures r.Success? ==>
      && body.Some? && |body.value| > 0
      && body.value[PickOffer(body.value, service)].id == Some(r.value)
      && Truthy(r.value)
    ensures r == Failure(OfferIdMissing) <==>
      body.Some? && |body.value| > 0 && !TruthyOpt(body.value[PickOffer(body.value, service)].id)
  {
    if body.None? || |body.value| == 0 then Failure(NoOffers)
    else
      var offer := body.value[PickOffer(body.value, service)];
      if !TruthyOpt(offer.id) then Failure(OfferIdMissing) else Success(offer.id.value)
  }

  /** The selection examples: a matching offer wins, otherwise the first one. */
  lemma OfferSelectionExamples()
    ensures ChooseOffer(Some([Offer(Some("o1"), Some("std")), Offer(Some("o2"), Some("eco"))]), "std") == Success("o1")
    ensures ChooseOffer(Some([Offer(Some("o1"), Some("std")), Offer(Some("o2"), Some("eco"))]), "eco") == Success("o2")
    ensures ChooseOffer(Some([Offer(Some("o1"), Some("std")), Offer(Some("o2"), Some("eco"))]), "xyz") == Success("o1")
  {
    var offers := [Offer(Some("o1"), Some("std")), Offer(Some("o2"), Some("eco"))];
    assert OfferFor("std")(offers[0]);
    assert OfferFor("eco")(offers[1]) && !OfferFor("eco")(offers[0]);
    assert !OfferFor("xyz")(offers[0]) && !OfferFor("xyz")(offers[1]);
  }

  // ---------------------------------------------------------------------
  // createShipment

  /** A request sent to the carrier. */
  datatype CarrierCall =
    | CreateDraft(payload: DraftPayload)
    | FetchOffers(shipxId: string)
    | SelectOffer(shipxId: string, offerId: string)

  /** What a successful flow learns: the draft id and the returned tracking number. */
  datatype CarrierLink = CarrierLink(shipxId: string, trackingNumber: Option<string>)

  /** The requests issued, in order, and how the flow ended. */
  datatype Attempt = Attempt(calls: seq<CarrierCall>, result: Result<CarrierLink, CarrierError>)

  /**
   * The three-step transaction for shipment `s`, given the responses the
   * carrier gives to the draft creation (its `id`), to the offers request
   * and to the offer selection (its `tracking_number`).
   */
  function Transaction(s: Shipment, cfg: Config, create: Response<Option<string>>,
                       offers: Response<Option<seq<Offer>>>, select: Response<Option<string>>): (t: Attempt)
    ensures t.result.Success? ==> ConfigOk(cfg) && MapService(s.serviceCode).Success?
  {
    if !ConfigOk(cfg) then Attempt([], Failure(ConfigurationMissing))
    else match MapService(s.serviceCode)
      case Failure(e) => Attempt([], Failure(e))
      case Success(service) => CarrierSteps(DraftPayloadFor(s, cfg, service), service, create, offers, select)
  }

  /** The three requests for draft `payload` of the mapped `service`, stopping at the first failure. */
  function CarrierSteps(payload: DraftPayload, service: string, create: Response<Option<string>>,
                        offers: Response<Option<seq<Offer>>>, select: Response<Option<string>>): (t: Attempt)
    ensures 1 <= |t.calls| <= 3 && t.calls[0] == CreateDraft(payload)
  {
    var sent1 := [CreateDraft(payload)];
    match create
    case Failed(status) => Attempt(sent1, Failure(CreateFailed(status)))
    case Succeeded(draftId) =>
      if !TruthyOpt(draftId) then Attempt(sent1, Failure(DraftIdMissing))
      else
        var sent2 := sent1 + [FetchOffers(draftId.value)];
        match offers
        case Failed(status) => Attempt(sent2, Failure(OffersFailed(status)))
        case Succeeded(list) =>
          match ChooseOffer(list, service)
          case Failure(e) => Attempt(sent2, Failure(e))
          case Success(offerId) =>
            var sent3 := sent2 + [SelectOffer(draftId.value, offerId)];
            match select
            case Failed(status) => Attempt(sent3, Failure(SelectOfferFailed(status)))
            case Succeeded(tracking) => Attempt(sent3, Success(CarrierLink(draftId.value, tracking)))
  }

  /**
   * The request protocol once a draft is built: one to three requests in
   * the order create draft, fetch offers, select offer, each sent only
   * when the previous step succeeded; success needs all three.
   */
  lemma CarrierStepsProtocol(payload: DraftPayload, service: string, create: Response<Option<string>>,
                             offers: Response<Option<seq<Offer>>>, select: Response<Option<string>>)
    ensures var t := CarrierSteps(payload, service, create, offers, select);
      1 <= |t.calls| <= 3 && t.calls[0] == CreateDraft(payload)
    ensures var t := CarrierSteps(payload, service, create, offers, select);
      |t.calls| > 1 <==> create.Succeeded? && TruthyOpt(create.body)
    ensures var t := CarrierSteps(payload, service, create, offers, select);
      |t.calls| > 1 ==> t.calls[1] == FetchOffers(create.body.value)
    ensures var t := CarrierSteps(payload, service, create, offers, select);
      |t.calls| > 2 <==> |t.calls| > 1 && offers.Succeeded? && ChooseOffer(offers.body, service).Success?
    ensures var t := CarrierSteps(payload, service, create, offers, select);
      |t.calls| > 2 ==> t.calls[2] == SelectOffer(create.body.value, ChooseOffer(offers.body, service).value)
    ensures var t := CarrierSteps(payload, service, create, offers, select);
      t.result.Success? <==> |t.calls| == 3 && select.Succeeded?
    ensures var t := CarrierSteps(payload, service, create, offers, select);
      t.result.Success? ==> t.result.value == CarrierLink(create.body.value, select.body)
  {
  }

  /**
   * Requests reach the carrier exactly when the configuration is usable
   * and the service maps; they are then the draft steps for the mapped
   * service, and with no request the flow has failed.
   */
  lemma TransactionProtocol(s: Shipment, cfg: Config, create: Response<Option<string>>,
                            offers: Response<Option<seq<Offer>>>, select: Response<Option<string>>)
    ensures var t := Transaction(s, cfg, create, offers, select);
      |t.calls| > 0 <==> ConfigOk(cfg) && MapService(s.serviceCode).Success?
    ensures var t := Transaction(s, cfg, create, offers, select);
      |t.calls| == 0 ==> t.result.Failure?
    ensures var t := Transaction(s, cfg, create, offers, select);
      |t.calls| > 0 ==>
        var service := MapService(s.serviceCode).value;
        t == CarrierSteps(DraftPayloadFor(s, cfg, service), service, create, offers, select)
  {
    if ConfigOk(cfg) && MapService(s.serviceCode).Success? {
      var service := MapService(s.serviceCode).value;
      CarrierStepsProtocol(DraftPayloadFor(s, cfg, service), service, create, offers, select);
    }
  }

  /** The requests of `CarrierSteps`, issued one at a time. */
  method RunCarrierSteps(payload: DraftPayload, service: string, create: Response<Option<string>>,
                         offers: Response<Option<seq<Offer>>>, select: Response<Option<string>>)
    returns (result: Result<CarrierLink, CarrierError>, calls: seq<CarrierCall>)
    ensures Attempt(calls, result) == CarrierSteps(payload, service, create, offers, select)
  {
    // 1) create the draft
    calls := [CreateDraft(payload)];
    if create.Failed? {
      return Failure(CreateFailed(create.status)), calls;
    }
    var draftId := create.body;
    if !TruthyOpt(draftId) {
      return Failure(DraftIdMissing), calls;
    }
    var shipxId := draftId.value;

    // 2) fetch the offers and choose one
    calls := calls + [FetchOffers(shipxId)];
    if offers.Failed? {
      return Failure(OffersFailed(offers.status)), calls;
    }
    var chosen := ChooseOffer(offers.body, service);
    if chosen.Failure? {
      return Failure(chosen.error), calls;
    }

    // 3) select the offer
    calls := calls + [SelectOffer(shipxId, chosen.value)];
    if select.Failed? {
      return Failure(SelectOfferFailed(select.status)), calls;
    }
    result := Success(CarrierLink(shipxId, select.body));
  }

  /**
   * The requests `createShipment` issues and how they end: the
   * configuration and the service are checked before anything is sent.
   */
  method IssueRequests(s: Shipment, cfg: Config, create: Response<Option<string>>,
                       offers: Response<Option<seq<Offer>>>, select: Response<Option<string>>)
    returns (result: Result<CarrierLink, CarrierError>, calls: seq<CarrierCall>)
    ensures Attempt(calls, result) == Transaction(s, cfg, create, offers, select)
  {
    if !ConfigOk(cfg) {
      return Failure(ConfigurationMissing), [];
    }
    var mapped := MapService(s.serviceCode);
    if mapped.Failure? {
      return Failure(mapped.error), [];
    }
    result, calls := RunCarrierSteps(DraftPayloadFor(s, cfg, mapped.value), mapped.value, create, offers, select);
  }

  /**
   * `createShipment`: the shipment's fields are written only after all
   * three requests succeed; CREATED is assigned directly, without the
   * transition guard. This is the evidently intended write: as written the
   * assignment raises (`CreateShipmentAsWritten`).
   */
  method CreateShipment(s: Shipment, cfg: Config, create: Response<Option<string>>,
                        offers: Response<Option<seq<Offer>>>, select: Response<Option<string>>)
    returns (r: Outcome<CarrierError>, calls: seq<CarrierCall>)
    modifies s
    ensures calls == Transaction(s, cfg, create, offers, select).calls
    ensures r.Pass? <==> Transaction(s, cfg, create, offers, select).result.Success?
    ensures r.Fail? ==> Transaction(s, cfg, create, offers, select).result == Failure(r.error)
    ensures r.Fail? ==> unchanged(s)
    ensures r.Pass? ==>
      var link := Transaction(s, cfg, create, offers, select).result.value;
      && s.carrier == Some("INPOST")
      && s.carrierShipmentId == Some(link.shipxId)
      && s.trackingNumber == (if TruthyOpt(link.trackingNumber) then link.trackingNumber else old(s.trackingNumber))
      && s.status == Created
  {
    ghost var t := Transaction(s, cfg, create, offers, select);
    var result;
    result, calls := IssueRequests(s, cfg, create, offers, select);
    assert t == Attempt(calls, result);
    if result.Failure? {
      return Fail(result.error), calls;
    }
    var link := result.value;
    s.carrier := Some(GetName());
    s.carrierShipmentId := Some(link.shipxId);
    if TruthyOpt(link.trackingNumber) {
      s.trackingNumber := link.trackingNumber;
    }
    s.status := Created;
    r := Pass;
  }

  /** Nothing reaches the carrier when the configuration or the service code is unusable. */
  lemma NoCallWithoutConfigOrService(s: Shipment, cfg: Config, create: Response<Option<string>>,
                                     offers: Response<Option<seq<Offer>>>, select: Response<Option<string>>)
    requires !ConfigOk(cfg) || Upper(Trim(s.serviceCode)) !in ServiceCodes
    ensures Transaction(s, cfg, create, offers, select).calls == []
    ensures !ConfigOk(cfg) ==> Transaction(s, cfg, create, offers, select).result == Failure(ConfigurationMissing)
    ensures ConfigOk(cfg) ==>
      Transaction(s, cfg, create, offers, select).result == Failure(UnsupportedService(s.serviceCode))
  {
    MapServiceAcceptsExactlyTheCodes(s.serviceCode);
  }

  /**
   * A failed offers request ends the flow after two requests with an
   * OffersFailed error, so the shipment is left as it was.
   */
  lemma OffersFailureStopsAfterTwoCalls(s: Shipment, cfg: Config, draftId: string, status: int,
                                        select: Response<Option<string>>)
    requires ConfigOk(cfg) && Upper(Trim(s.serviceCode)) in ServiceCodes && Truthy(draftId)
    ensures Transaction(s, cfg, Succeeded(Some(draftId)), Response.Failed(status), select)
            == Attempt([CreateDraft(DraftPayloadFor(s, cfg, MapService(s.serviceCode).value)),
                        FetchOffers(draftId)],
                       Failure(OffersFailed(status)))
  {
    MapServiceAcceptsExactlyTheCodes(s.serviceCode);
  }

  // ---------------------------------------------------------------------
  // The CREATED status as written

  /** PHP's `ShipmentStatus::NAME` over the nine cases the enum declares. */
  function DeclaredCase(name: string): (r: Option<ShipmentStatus>)
    ensures r.Some? ==> Value(r.value) == name && r.value != Created
  {
    if name == "DRAFT" then Some(Draft)
    else if name == "PENDING_PAYMENT" then Some(PendingPayment)
    else if name == "PAID" then Some(ShipmentStatus.Paid)
    else if name == "LABEL_READY" then Some(LabelReady)
    else if name == "MANIFESTED" then Some(Manifested)
    else if name == "SHIPPED" then Some(Shipped)
    else if name == "DELIVERED" then Some(Delivered)
    else if name == "CANCELLED" then Some(Cancelled)
    else if name == "RETURNED" then Some(Returned)
    else None
  }

  /**
   * On every run whose three requests succeed, the carrier has already
   * created the draft and had its offer selected when the final assignment
   * is reached.
   */
  lemma AsWrittenSuccessPathRaises(s: Shipment, cfg: Config, create: Response<Option<string>>,
                                   offers: Response<Option<seq<Offer>>>, select: Response<Option<string>>)
    requires Transaction(s, cfg, create, offers, select).result.Success?
    ensures var t := Transaction(s, cfg, create, offers, select);
      |t.calls| == 3 && t.calls[2].SelectOffer? && t.calls[2].shipxId == t.result.value.shipxId
  {
    TransactionProtocol(s, cfg, create, offers, select);
    var service := MapService(s.serviceCode).value;
    CarrierStepsProtocol(DraftPayloadFor(s, cfg, service), service, create, offers, select);
  }

  /**
   * The input of the CREATED finding: a usable configuration, a locker
   * service code, a draft id, one offer with an id and a successful
   * selection complete the carrier transaction, so the as-written flow
   * reaches the undeclared case.
   */
  lemma FindingInputSucceedsAtCarrier(s: Shipment)
    requires s.serviceCode == "INPOST_LOCKER_STANDARD"
    ensures Transaction(s, FindingConfig, Succeeded(Some("x1")), Succeeded(Some([Offer(Some("o1"), None)])),
                        Succeeded(None)).result
            == Success(CarrierLink("x1", None))
  {
    FindingConfigIsUsable();
    LockerStandardIsNormal(s.serviceCode);
    LockerStandardMaps(s.serviceCode);
    var service := MapService(s.serviceCode).value;
    FindingResponsesSucceed(DraftPayloadFor(s, FindingConfig, service), service);
    TransactionProtocol(s, FindingConfig, Succeeded(Some("x1")), Succeeded(Some([Offer(Some("o1"), None)])),
                        Succeeded(None));
  }

  /** Any code that normalises to the locker-standard key is accepted. */
  lemma LockerStandardMaps(code: string)
    requires Upper(Trim(code)) == "INPOST_LOCKER_STANDARD"
    ensures MapService(code).Success?
  {
    assert ShipXName(Upper(Trim(code))).Some?;
  }

  /** The locker-standard code is already trimmed and upper-case. */
  lemma LockerStandardIsNormal(code: string)
    requires code == "INPOST_LOCKER_STANDARD"
    ensures Upper(Trim(code)) == code
  {
    LockerStandardIsTrimmed(code);
    LockerStandardIsUpper(code);
  }

  lemma LockerStandardIsTrimmed(code: string)
    requires code == "INPOST_LOCKER_STANDARD"
    ensures Trim(code) == code
  {
    TrimOfTrimmed(code);
  }

  lemma LockerStandardIsUpper(code: string)
    requires code == "INPOST_LOCKER_STANDARD"
    ensures Upper(code) == code
  {
    assert IsUpper(code);
    UpperOfUpper(code);
  }

  /** The finding's three carrier responses complete the steps for any draft and service. */
  lemma FindingResponsesSucceed(payload: DraftPayload, service: string)
    ensures CarrierSteps(payload, service, Succeeded(Some("x1")), Succeeded(Some([Offer(Some("o1"), None)])),
                         Succeeded(None)).result
            == Success(CarrierLink("x1", None))
  {
    assert ChooseOffer(Some([Offer(Some("o1"), None)]), service) == Success("o1");
  }

  /** The configuration of the finding's input: an API URL and a token. */
  const FindingConfig: Config := Config(Some("https://api"), Some("tok"), None, None, None)

  lemma FindingConfigIsUsable()
    ensures ConfigOk(FindingConfig)
  {
    assert RTrimSlash("https://api") == "https://api";
  }

  /** No declared case is named CREATED. */
  lemma CreatedIsNotDeclared()
    ensures DeclaredCase("CREATED").None?
  {
  }

  /**
   * `createShipment` as written: the carrier fields are assigned in memory,
   * then `ShipmentStatus::CREATED` is looked up among the declared cases and
   * raises an Error, so `save()` is never reached. Every run, successful at
   * the carrier or not, ends in an error, and the stored shipment keeps its
   * old state (the method may not modify it).
   */
  method CreateShipmentAsWritten(s: Shipment, cfg: Config, create: Response<Option<string>>,
                                 offers: Response<Option<seq<Offer>>>, select: Response<Option<string>>)
    returns (r: Outcome<CarrierError>, calls: seq<CarrierCall>)
    ensures calls == Transaction(s, cfg, create, offers, select).calls
    ensures r.Fail?
    ensures Transaction(s, cfg, create, offers, select).result.Success? ==>
      |calls| == 3 && r.error == UndefinedCase("CREATED")
    ensures Transaction(s, cfg, create, offers, select).result.Failure? ==>
      r.error == Transaction(s, cfg, create, offers, select).result.error
  {
    ghost var t := Transaction(s, cfg, create, offers, select);
    var result;
    result, calls := IssueRequests(s, cfg, create, offers, select);
    assert t == Attempt(calls, result);
    if result.Failure? {
      return Fail(result.error), calls;
    }
    AsWrittenSuccessPathRaises(s, cfg, create, offers, select);
    CreatedIsNotDeclared();
    var status := DeclaredCase("CREATED");
    r := if status.None? then Fail(UndefinedCase("CREATED")) else Pass;
  }

  // ---------------------------------------------------------------------
  // getLabel

  /** The format, upper-cased, with anything unknown replaced by A6. */
  function NormalizeFormat(format: string): (f: string)
    ensures f in LabelFormats
    ensures Upper(format) in LabelFormats ==> f == Upper(format)
    ensures Upper(format) !in LabelFormats ==> f == "A6"
  {
    var upper := Upper(format);
    if upper !in LabelFormats then "A6" else upper
  }

  /** The `GET {base}/v1/shipments/{id}/label?format=` request and its Accept header. */
  datatype LabelRequest = LabelRequest(url: string, format: string, accept: string)

  /** The request issued (if any) and the label body or error. */
  datatype LabelAttempt = LabelAttempt(request: Option<LabelRequest>, result: Result<string, CarrierError>)

  /** The identifier used: carrier_shipment_id unless it is null, then tracking_number. */
  function LabelCarrierId(carrierShipmentId: Option<string>, trackingNumber: Option<string>): (id: Option<string>)
    ensures id.None? <==> carrierShipmentId.None? && trackingNumber.None?
    ensures carrierShipmentId.Some? ==> id == carrierShipmentId
  {
    if carrierShipmentId.Some? then carrierShipmentId else trackingNumber
  }

  /** `getLabel` for a shipment with the given identifiers; an absent format means A6. */
  function GetLabel(carrierShipmentId: Option<string>, trackingNumber: Option<string>,
                    cfg: Config, format: Option<string>, resp: Response<string>): (r: LabelAttempt)
    ensures !TruthyOpt(LabelCarrierId(carrierShipmentId, trackingNumber)) ==>
      r == LabelAttempt(None, Failure(CarrierIdMissing))
    ensures TruthyOpt(LabelCarrierId(carrierShipmentId, trackingNumber)) && !ConfigOk(cfg) ==>
      r == LabelAttempt(None, Failure(ConfigurationMissing))
    ensures r.request.Some? <==> TruthyOpt(LabelCarrierId(carrierShipmentId, trackingNumber)) && ConfigOk(cfg)
    ensures r.request.Some? ==>
      && r.request.value.url == BaseUrl(cfg) + "/v1/shipments/" + LabelCarrierId(carrierShipmentId, trackingNumber).value + "/label"
      && r.request.value.format == NormalizeFormat(format.GetOr("A6"))
      && (format.None? ==> r.request.value.format == "A6")
      && (r.request.value.accept == "text/plain" <==> r.request.value.format == "ZPL")
      && (r.request.value.accept != "text/plain" ==> r.request.value.accept == "application/pdf")
    ensures r.result.Success? <==> r.request.Some? && resp.Succeeded?
    ensures r.result.Success? ==> r.result.value == resp.body
    ensures r.request.Some? && resp.Failed? ==> r.result == Failure(LabelFailed(resp.status))
  {
    var fmt := NormalizeFormat(format.GetOr("A6"));
    var carrierId := LabelCarrierId(carrierShipmentId, trackingNumber);
    if !TruthyOpt(carrierId) then LabelAttempt(None, Failure(CarrierIdMissing))
    else if !ConfigOk(cfg) then LabelAttempt(None, Failure(ConfigurationMissing))
    else
      var accept := if fmt == "ZPL" then "text/plain" else "application/pdf";
      var request := LabelRequest(BaseUrl(cfg) + "/v1/shipments/" + carrierId.value + "/label", fmt, accept);
      match resp
      case Failed(status) => LabelAttempt(Some(request), Failure(LabelFailed(status)))
      case Succeeded(body) => LabelAttempt(Some(request), Success(body))
  }

  /**
   * An empty carrier_shipment_id is not null, so it is chosen over a usable
   * tracking number and the call is refused.
   */
  lemma EmptyCarrierIdShadowsTrackingNumber(trackingNumber: Option<string>, cfg: Config,
                                            format: Option<string>, resp: Response<string>)
    ensures GetLabel(Some(""), trackingNumber, cfg, format, resp) == LabelAttempt(None, Failure(CarrierIdMissing))
  {
  }
}
