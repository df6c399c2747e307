/** The checkout page's shipping-quote and order flow (app/checkout/page.tsx).
    Editing the address arms a debounce timer; when it elapses the page asks
    the courier rate endpoint for a quote on the cart's parcel, numbering
    each request. An answer is dropped when its id is no longer the latest
    at the moment its headers arrive; the id is not checked again once its
    body has been read. The first quote returned becomes the selected
    service and the shipping fee. Placing the order needs a selected
    service. Network calls are split into the request the page sends and
    the events of its answer: the fetch failing, the headers arriving and
    the body being read. */
module Checkout {
  import opened Util
  import opened Cart
  import opened CheckoutForm
  import opened Parcel

  /** The pick-up address every quote is asked for. */
  const PickPostcode: string := "81200"
  const PickState: string := "Johor"
  const PickCountry: string := "MY"

  /** The body posted to the rate endpoint. */
  datatype RateRequest = RateRequest(
    pickPostcode: string,
    pickState: string,
    pickCountry: string,
    sendPostcode: string,
    sendState: string,
    sendCountry: string,
    weight: real,
    width: int,
    length: int,
    height: int)

  /** What `calculateEasyParcelShippingRate` decides before any network call:
      clear the quote, give up because the parcel weighs nothing, or ask. */
  datatype QuotePlan = ClearQuote | NoWeight | Ask(body: RateRequest)

  /** The destination is unusable: a state, a country and a five-character
      postcode are all needed (the digits are not looked at here). */
  predicate AddressIncomplete(postcode: string, state: string, country: string) {
    state == "" || country == "" || postcode == "" || |postcode| != 5
  }

  function PlanQuote(sendPostcode: string, sendState: string, sendCountry: string,
                     states: seq<StateInfo>, items: seq<CartItem>): (plan: QuotePlan)
    ensures plan.ClearQuote? <==>
      AddressIncomplete(sendPostcode, sendState, sendCountry) || forall s :: s in states ==> s.name != sendState
    ensures plan.NoWeight? <==> !plan.ClearQuote? && WeightOf(items) <= 0.0
    ensures plan.Ask? ==>
      && plan.body.pickPostcode == "81200" && plan.body.pickState == "Johor" && plan.body.pickCountry == "MY"
      && plan.body.sendPostcode == sendPostcode && plan.body.sendState == sendState && plan.body.sendCountry == sendCountry
      && |sendPostcode| == 5
      && plan.body.weight == WeightOf(items) && plan.body.weight > 0.0
      && plan.body.width == Along(ParcelMetrics(items), Width)
      && plan.body.length == Along(ParcelMetrics(items), Length)
      && plan.body.height == Along(ParcelMetrics(items), Height)
  {
    ParcelWeight(items);
    if AddressIncomplete(sendPostcode, sendState, sendCountry) then ClearQuote
    else if FindState(states, sendState).None? then ClearQuote
    else
      var m := ParcelMetrics(items);
      if m.totalWeight <= 0.0 then NoWeight
      else Ask(RateRequest(PickPostcode, PickState, PickCountry, sendPostcode, sendState, sendCountry,
                           m.totalWeight, m.totalWidth, m.totalLength, m.totalHeight))
  }

  /** A cart none of whose lines has a weight is never quoted, whatever the
      address. */
  lemma WeightlessCartNotQuoted(sendPostcode: string, sendState: string, sendCountry: string,
                                states: seq<StateInfo>, items: seq<CartItem>)
    requires forall i :: 0 <= i < |items| ==> items[i].weight.None?
    ensures !PlanQuote(sendPostcode, sendState, sendCountry, states, items).Ask?
  {
    WeightlessCart(items);
    ParcelWeight(items);
  }

  /** The body of a rate answer once read: `NotJson` is a body that does not
      parse; otherwise `ok` is `response.ok` and `rates` the body's `rates`
      array, empty when it has none. */
  datatype RateBody =
    | NotJson
    | Parsed(ok: bool, rates: seq<RateItem>)

  /** The arguments a debounce timer was armed with. */
  datatype QuoteArgs = QuoteArgs(postcode: string, state: string, country: string)

  /** The Place Order button: `disabled={submitting || isCalculating || !selectedServiceId}`. */
  predicate PlaceOrderEnabled(submitting: bool, isCalculating: bool, selectedServiceId: Option<string>) {
    !(submitting || isCalculating || !Truthy(selectedServiceId))
  }

  /** Whenever the Place Order button is enabled, submitting is accepted. */
  lemma EnabledButtonSubmits(submitting: bool, isCalculating: bool, selectedServiceId: Option<string>,
                             values: FormValues, rates: seq<RateItem>, items: seq<CartItem>,
                             subTotalPrice: real, shippingFee: real, totalPrice: real)
    requires PlaceOrderEnabled(submitting, isCalculating, selectedServiceId)
    ensures AssembleOrder(values, selectedServiceId, rates, items, subTotalPrice, shippingFee, totalPrice).Ok?
  {
  }

  class CheckoutPage {
    var countries: seq<CountryInfo>   // Country.getAllCountries()
    var items: seq<CartItem>          // the checkout store's items
    var states: seq<StateInfo>        // the states of the form's country
    var watchedPostcode: string
    var watchedState: string
    var watchedCountryIso: string
    var debounceTimer: Option<QuoteArgs>
    var rateRequestId: nat            // rateRequestIdRef
    ghost var issued: seq<nat>        // every request id handed out, in order
    ghost var outstanding: set<nat>   // requests posted whose answer has not arrived
    ghost var reading: set<nat>       // requests whose headers passed the id check and whose body is being read
    var availableRates: seq<RateItem> // availableRatesRef
    var shippingFee: real
    var selectedServiceId: Option<string>
    var isCalculating: bool
    var shippingError: bool
    var errorMessage: Option<string>
    var submitting: bool

    ghost predicate Valid()
      reads this
    {
      // request ids only grow, and the counter holds the latest one
      && (forall i, j :: 0 <= i < j < |issued| ==> issued[i] < issued[j])
      && (forall i :: 0 <= i < |issued| ==> 0 < issued[i] <= rateRequestId)
      && (issued != [] ==> issued[|issued| - 1] == rateRequestId)
      && (issued == [] ==> rateRequestId == 0)
      // each posted request is answered once: first its headers, then its body
      && (forall id :: id in outstanding ==> 0 < id <= rateRequestId)
      && (forall id :: id in reading ==> 0 < id <= rateRequestId)
      && outstanding !! reading
      // a timer is only armed for the current, complete address
      && (debounceTimer.Some? ==>
            debounceTimer.value == QuoteArgs(watchedPostcode, watchedState, watchedCountryIso)
            && !AddressIncomplete(watchedPostcode, watchedState, watchedCountryIso))
      // the selected service is one of the stored quotes
      && (selectedServiceId.Some? ==> exists r :: r in availableRates && r.serviceId == selectedServiceId.value)
    }

    /** The page's first render and the effects that follow it, in order:
        the items reset, the country effect (country "Malaysia", its states
        loaded, state and city emptied) and the debounce effect, which finds
        no postcode and zeroes the fee. */
    constructor (allCountries: seq<CountryInfo>, cartItems: seq<CartItem>)
      ensures Valid()
      ensures countries == allCountries && items == cartItems
      ensures states == (match FindCountry(allCountries, "Malaysia") case Some(c) => c.states case None => [])
      ensures watchedPostcode == "" && watchedState == "" && watchedCountryIso == CountryIso(allCountries, "Malaysia")
      ensures debounceTimer.None? && rateRequestId == 0 && issued == [] && outstanding == {} && reading == {}
      ensures availableRates == [] && shippingFee == 0.0 && selectedServiceId.None?
      ensures !isCalculating && !shippingError && errorMessage.None? && !submitting
    {
      countries, items := allCountries, cartItems;
      states := match FindCountry(allCountries, "Malaysia") case Some(c) => c.states case None => [];
      watchedPostcode, watchedState := "", "";
      watchedCountryIso := CountryIso(allCountries, "Malaysia");
      debounceTimer := None;
      rateRequestId, issued, outstanding, reading := 0, [], {}, {};
      availableRates, shippingFee, selectedServiceId := [], 0.0, None;
      isCalculating, shippingError, errorMessage, submitting := false, false, None, false;
    }

    /** The debounce effect: its cleanup cancels the armed timer; then either
        the address is incomplete and the fee is zeroed (the selected
        service is left alone), or a new 400 ms timer is armed. */
    method RunDebounceEffect()
      requires Valid()
      modifies this`shippingFee, this`debounceTimer
      ensures Valid()
      ensures AddressIncomplete(watchedPostcode, watchedState, watchedCountryIso) ==>
        shippingFee == 0.0 && debounceTimer.None?
      ensures !AddressIncomplete(watchedPostcode, watchedState, watchedCountryIso) ==>
        shippingFee == old(shippingFee) && debounceTimer == Some(QuoteArgs(watchedPostcode, watchedState, watchedCountryIso))
    {
      if AddressIncomplete(watchedPostcode, watchedState, watchedCountryIso) {
        shippingFee := 0.0;
        debounceTimer := None;
      } else {
        debounceTimer := Some(QuoteArgs(watchedPostcode, watchedState, watchedCountryIso));
      }
    }

    /** The form's postcode, state or country was edited. The debounce
        effect re-runs only when one of its dependencies (the postcode, the
        state, the country's ISO code) takes a new value; an edit that leaves
        all three as they were changes nothing. */
    method AddressEdited(postcode: string, state: string, countryName: string)
      requires Valid()
      modifies this`watchedPostcode, this`watchedState, this`watchedCountryIso, this`shippingFee, this`debounceTimer
      ensures Valid()
      ensures watchedPostcode == postcode && watchedState == state && watchedCountryIso == CountryIso(countries, countryName)
      ensures var changed := QuoteArgs(postcode, state, watchedCountryIso)
                             != QuoteArgs(old(watchedPostcode), old(watchedState), old(watchedCountryIso));
        && (!changed ==> shippingFee == old(shippingFee) && debounceTimer == old(debounceTimer))
        && (changed && AddressIncomplete(postcode, state, watchedCountryIso) ==> shippingFee == 0.0 && debounceTimer.None?)
        && (changed && !AddressIncomplete(postcode, state, watchedCountryIso) ==>
              shippingFee == old(shippingFee) && debounceTimer == Some(QuoteArgs(postcode, state, watchedCountryIso)))
    {
      var iso := CountryIso(countries, countryName);
      if QuoteArgs(postcode, state, iso) != QuoteArgs(watchedPostcode, watchedState, watchedCountryIso) {
        debounceTimer := None;
        watchedPostcode, watchedState, watchedCountryIso := postcode, state, iso;
        RunDebounceEffect();
      }
    }

    /** The checkout items changed: the items effect zeroes the fee and drops
        the selected service; the parcel changed, so the debounce effect runs
        again. */
    method ItemsChanged(newItems: seq<CartItem>)
      requires Valid()
      modifies this`items, this`shippingFee, this`selectedServiceId, this`debounceTimer
      ensures Valid()
      ensures items == newItems && shippingFee == 0.0 && selectedServiceId.None?
      ensures AddressIncomplete(watchedPostcode, watchedState, watchedCountryIso) ==> debounceTimer.None?
      ensures !AddressIncomplete(watchedPostcode, watchedState, watchedCountryIso) ==>
        debounceTimer == Some(QuoteArgs(watchedPostcode, watchedState, watchedCountryIso))
    {
      items := newItems;
      shippingFee := 0.0;
      selectedServiceId := None;
      RunDebounceEffect();
    }

    /** `++rateRequestIdRef.current` */
    method TakeRequestId()
      requires Valid()
      modifies this`rateRequestId, this`issued
      ensures Valid()
      ensures rateRequestId == old(rateRequestId) + 1 && issued == old(issued) + [rateRequestId]
      ensures forall i :: 0 <= i < |old(issued)| ==> old(issued)[i] < rateRequestId
      ensures rateRequestId !in outstanding && rateRequestId !in reading
    {
      rateRequestId := rateRequestId + 1;
      issued := issued + [rateRequestId];
    }

    /** `calculateEasyParcelShippingRate`: takes a fresh request id, then
        clears the quote for an incomplete or unknown destination, gives up
        quietly for a weightless parcel, or returns the body to post while
        `isCalculating` stays set until the answer. */
    method CalculateShippingRate(sendPostcode: string, sendState: string, sendCountry: string)
      returns (requestId: nat, request: Option<RateRequest>)
      requires Valid()
      modifies this`rateRequestId, this`issued, this`isCalculating, this`shippingError,
        this`shippingFee, this`selectedServiceId, this`outstanding
      ensures Valid()
      ensures requestId == rateRequestId == old(rateRequestId) + 1 && issued == old(issued) + [requestId]
      ensures forall i :: 0 <= i < |old(issued)| ==> old(issued)[i] < requestId
      ensures !shippingError
      ensures var plan := PlanQuote(sendPostcode, sendState, sendCountry, states, items);
        && (plan.ClearQuote? ==> request.None? && shippingFee == 0.0 && selectedServiceId.None? && !isCalculating)
        && (plan.NoWeight? ==> request.None? && shippingFee == old(shippingFee) && selectedServiceId == old(selectedServiceId) && !isCalculating)
        && (plan.Ask? ==> request == Some(plan.body) && shippingFee == old(shippingFee) && selectedServiceId == old(selectedServiceId) && isCalculating)
        && outstanding == (if plan.Ask? then old(outstanding) + {requestId} else old(outstanding))
    {
      var plan := PlanQuote(sendPostcode, sendState, sendCountry, states, items);
      TakeRequestId();
      requestId := rateRequestId;
      StartCalculating();
      request := ApplyQuotePlan(plan);
    }

    /** `setIsCalculating(true)` and `setShippingError(null)`. */
    method StartCalculating()
      requires Valid()
      modifies this`isCalculating, this`shippingError
      ensures Valid() && isCalculating && !shippingError
    {
      isCalculating, shippingError := true, false;
    }

    /** The part of `calculateEasyParcelShippingRate` after the id is taken
        and `isCalculating` set: act on the plan. */
    method ApplyQuotePlan(plan: QuotePlan) returns (request: Option<RateRequest>)
      requires Valid() && 0 < rateRequestId && rateRequestId !in outstanding && rateRequestId !in reading
      modifies this`shippingFee, this`selectedServiceId, this`isCalculating, this`outstanding
      ensures Valid()
      ensures outstanding == (if plan.Ask? then old(outstanding) + {rateRequestId} else old(outstanding))
      ensures plan.ClearQuote? ==> request.None? && shippingFee == 0.0 && selectedServiceId.None? && !isCalculating
      ensures plan.NoWeight? ==>
        request.None? && shippingFee == old(shippingFee) && selectedServiceId == old(selectedServiceId) && !isCalculating
      ensures plan.Ask? ==>
        request == Some(plan.body) && shippingFee == old(shippingFee) && selectedServiceId == old(selectedServiceId)
        && isCalculating == old(isCalculating)
    {
      match plan {
        case ClearQuote =>
          shippingFee := 0.0;
          selectedServiceId := None;
          isCalculating := false;
          request := None;
        case NoWeight =>
          isCalculating := false;
          request := None;
        case Ask(body) =>
          outstanding := outstanding + {rateRequestId};
          request := Some(body);
      }
    }

    /** The armed debounce timer elapses and calls `CalculateShippingRate`
        with the address it was armed for; with no timer armed, nothing
        happens. */
    method DebounceElapsed() returns (requestId: nat, request: Option<RateRequest>)
      requires Valid()
      modifies this`debounceTimer, this`rateRequestId, this`issued, this`isCalculating, this`shippingError,
        this`shippingFee, this`selectedServiceId, this`outstanding
      ensures Valid() && debounceTimer.None?
      ensures old(debounceTimer).None? ==>
        && request.None? && rateRequestId == old(rateRequestId) && issued == old(issued) && outstanding == old(outstanding)
        && shippingFee == old(shippingFee) && selectedServiceId == old(selectedServiceId)
        && isCalculating == old(isCalculating) && shippingError == old(shippingError)
      ensures old(debounceTimer).Some? ==>
        requestId == rateRequestId == old(rateRequestId) + 1 && issued == old(issued) + [requestId]
      ensures old(debounceTimer).Some? ==>
        var a := old(debounceTimer).value;
        var plan := PlanQuote(a.postcode, a.state, a.country, states, items);
        && a == QuoteArgs(watchedPostcode, watchedState, watchedCountryIso)
        && !shippingError
        && (plan.ClearQuote? ==> request.None? && shippingFee == 0.0 && selectedServiceId.None? && !isCalculating)
        && (plan.NoWeight? ==> request.None? && shippingFee == old(shippingFee) && selectedServiceId == old(selectedServiceId) && !isCalculating)
        && (plan.Ask? ==> request == Some(plan.body) && shippingFee == old(shippingFee) && selectedServiceId == old(selectedServiceId) && isCalculating)
        && outstanding == (if plan.Ask? then old(outstanding) + {requestId} else old(outstanding))
      ensures request.Some? ==> request.value.sendPostcode == old(watchedPostcode) && |request.value.sendPostcode| == 5
    {
      requestId, request := 0, None;
      match debounceTimer {
        case None =>
        case Some(args) =>
          debounceTimer := None;
          requestId, request := CalculateShippingRate(args.postcode, args.state, args.country);
      }
    }

    /** The fetch for a posted request `requestId` threw (page.tsx:224-228
        failing), before its headers or while its body was read: whatever
        the id, the error is recorded and, by `finally`, the calculation
        ends. The request is then settled. */
    method RateFailed(requestId: nat)
      requires Valid() && (requestId in outstanding || requestId in reading)
      modifies this`isCalculating, this`shippingError, this`outstanding, this`reading
      ensures Valid() && shippingError && !isCalculating
      ensures outstanding == old(outstanding) - {requestId} && reading == old(reading) - {requestId}
    {
      shippingError := true;
      isCalculating := false;
      outstanding, reading := outstanding - {requestId}, reading - {requestId};
    }

    /** The headers of the answer to request `requestId` arrive. This is the
        one place the id is compared with the counter: a superseded answer
        returns here, and `finally` still clears `isCalculating`, even while
        the newer request is pending. The latest answer goes on to have its
        body read. Only a posted request that has not been answered yet can
        have its headers arrive, and only once. */
    method RateHeadersArrived(requestId: nat) returns (proceeds: bool)
      requires Valid() && requestId in outstanding
      modifies this`isCalculating, this`outstanding, this`reading
      ensures Valid()
      ensures outstanding == old(outstanding) - {requestId}
      ensures proceeds <==> requestId == rateRequestId
      ensures proceeds ==> reading == old(reading) + {requestId} && isCalculating == old(isCalculating)
      ensures !proceeds ==> reading == old(reading) && !isCalculating
    {
      proceeds := requestId == rateRequestId;
      outstanding := outstanding - {requestId};
      if proceeds {
        reading := reading + {requestId};
      } else {
        isCalculating := false;
      }
    }

    /** The body of an answer whose headers passed the id check has been
        read (page.tsx:230-252). The id is not compared again, so a newer
        request issued meanwhile does not stop this body from being used.
        An unreadable body or an error status records the error; an empty
        list clears the fee and the service; otherwise the list is stored
        and its first quote selected, not the cheapest: the list is not
        sorted. The calculation ends in every case. */
    method RateBodyRead(requestId: nat, body: RateBody)
      requires Valid() && requestId in reading
      modifies this`availableRates, this`shippingFee, this`selectedServiceId, this`isCalculating,
        this`shippingError, this`reading
      ensures Valid() && !isCalculating && reading == old(reading) - {requestId}
      ensures shippingError == (old(shippingError) || body.NotJson? || !body.ok)
      ensures body.NotJson? || !body.ok ==>
        availableRates == old(availableRates) && shippingFee == old(shippingFee) && selectedServiceId == old(selectedServiceId)
      ensures body.Parsed? && body.ok && body.rates == [] ==>
        availableRates == old(availableRates) && shippingFee == 0.0 && selectedServiceId.None?
      ensures body.Parsed? && body.ok && body.rates != [] ==>
        availableRates == body.rates && shippingFee == body.rates[0].shipmentTotalRates
        && selectedServiceId == Some(body.rates[0].serviceId)
    {
      if body.NotJson? || !body.ok {
        shippingError := true;
      } else if body.rates == [] {
        shippingFee, selectedServiceId := 0.0, None;
      } else {
        SelectFirstQuote(body.rates);
      }
      EndRead(requestId);
    }

    /** The request's `finally`: the read is over and the calculation ends. */
    method EndRead(requestId: nat)
      requires Valid()
      modifies this`reading, this`isCalculating
      ensures Valid() && reading == old(reading) - {requestId} && !isCalculating
    {
      reading, isCalculating := reading - {requestId}, false;
    }

    /** Store the quotes and select the first one, with its fee. */
    method SelectFirstQuote(rates: seq<RateItem>)
      requires Valid() && rates != []
      modifies this`availableRates, this`selectedServiceId, this`shippingFee
      ensures Valid()
      ensures availableRates == rates && selectedServiceId == Some(rates[0].serviceId)
        && shippingFee == rates[0].shipmentTotalRates
    {
      availableRates := rates;
      selectedServiceId := Some(rates[0].serviceId);
      shippingFee := rates[0].shipmentTotalRates;
      assert rates[0] in availableRates;
    }

    /** `onSubmit`, reached through `form.handleSubmit` only once the schema
        reports nothing: without a selected service it shows the refusal
        message and sends nothing; otherwise it clears the message, marks the
        order as submitting and returns the body to post, whose address has
        passed the schema. */
    method Submit(values: FormValues, isEmail: string -> bool, subTotalPrice: real, totalPrice: real)
      returns (result: Result<OrderPayload>)
      requires Valid()
      requires FormErrors(values, countries, isEmail) == {}
      modifies this`errorMessage, this`submitting
      ensures Valid()
      ensures result == AssembleOrder(values, selectedServiceId, availableRates, items, subTotalPrice, shippingFee, totalPrice)
      ensures result.Err? ==> errorMessage == Some(NoServiceMessage) && submitting == old(submitting)
      ensures result.Ok? ==> errorMessage.None? && submitting
      ensures result.Ok? ==>
        && result.value.easyparcel.serviceId == selectedServiceId.value
        && exists r :: r in availableRates && r.serviceId == selectedServiceId.value
      ensures result.Ok? ==>
        && |result.value.postcode| == 5 && result.value.state != "" && result.value.fullName != ""
        && isEmail(result.value.email)
    {
      FormAcceptedIff(values, countries, isEmail);
      result := AssembleOrder(values, selectedServiceId, availableRates, items, subTotalPrice, shippingFee, totalPrice);
      if result.Err? {
        errorMessage := Some(result.message);
      } else {
        submitting := true;
        errorMessage := None;
      }
    }

    /** The order endpoint refused the order, or answered without a
        payment link: the message is shown and the form can be sent again. */
    method OrderFailed(message: string)
      requires Valid()
      modifies this`errorMessage, this`submitting
      ensures Valid() && errorMessage == Some(message) && !submitting
    {
      errorMessage := Some(message);
      submitting := false;
    }
  }

  /** A page for the Malaysian state Johor and one 1 kg item, with postcode
      81200 entered and the debounce timer armed for it. */
  method Armed81200() returns (page: CheckoutPage)
    ensures fresh(page) && page.Valid()
    ensures page.countries == [CountryInfo("Malaysia", "MY", [StateInfo("Johor", "JHR", [])])]
    ensures page.states == [StateInfo("Johor", "JHR", [])]
    ensures page.items == [CartItem("1", "p1", None, None, "", "Serum", Some(1.0), None, None, None, None, 10.0, 1)]
    ensures page.debounceTimer == Some(QuoteArgs("81200", "Johor", "MY")) && page.watchedPostcode == "81200"
    ensures page.rateRequestId == 0 && page.outstanding == {} && page.reading == {}
  {
    var johor := StateInfo("Johor", "JHR", []);
    var malaysia := CountryInfo("Malaysia", "MY", [johor]);
    var item := CartItem("1", "p1", None, None, "", "Serum", Some(1.0), None, None, None, None, 10.0, 1);
    page := new CheckoutPage([malaysia], [item]);
    assert CountryIso([malaysia], "Malaysia") == "MY";
    page.AddressEdited("81200", "Johor", "Malaysia");
  }

  /** The same page after the timer elapsed: the quote for 81200 was asked
      for as request 1 and the headers of its answer passed the id check. */
  method HeadersPassedFor81200() returns (page: CheckoutPage)
    ensures fresh(page) && page.Valid()
    ensures page.countries == [CountryInfo("Malaysia", "MY", [StateInfo("Johor", "JHR", [])])]
    ensures page.watchedPostcode == "81200" && page.rateRequestId == 1 && 1 in page.reading
  {
    page := Armed81200();
    assert WeightOf(page.items) == 1.0;
    assert PlanQuote("81200", "Johor", "MY", page.states, page.items).Ask?;
    var id1, request1 := page.DebounceElapsed();
    var proceeds := page.RateHeadersArrived(id1);
  }

  /** The race the single id check leaves open, played out. Request 1's
      headers have passed the check. The customer then changes the postcode
      to 81300, and request 2 is sent. Then body 1 is read: the page shows
      81200's fee and service while the counter is at 2 and the address is
      81300. */
  method SupersededBodyApplied() returns (page: CheckoutPage)
    ensures page.watchedPostcode == "81300" && page.rateRequestId == 2
    ensures page.shippingFee == 7.0 && page.selectedServiceId == Some("svc-81200")
    ensures !page.isCalculating
  {
    page := HeadersPassedFor81200();
    assert CountryIso(page.countries, "Malaysia") == "MY";
    page.AddressEdited("81300", "Johor", "Malaysia");
    assert page.debounceTimer.Some? && 1 in page.reading;
    var id2, request2 := page.DebounceElapsed();
    assert page.rateRequestId == 2 && page.watchedPostcode == "81300" && 1 in page.reading;
    page.RateBodyRead(1, Parsed(true, [RateItem("r1", "svc-81200", "Standard", "c1", "Courier", 7.0)]));
  }
}
