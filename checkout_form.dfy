/** The pure parts of the checkout page (app/checkout/page.tsx): the address
    form's validation schema and the order body that `onSubmit` assembles.
    Country, state and city data come from a geography library that is not
    part of this model; it is passed in as a list of countries. */
module CheckoutForm {
  import opened Util
  import opened Cart
  import Navbar

  // ---------------------------------------------------------------------
  // Geography (the country-state-city lookups)

  datatype StateInfo = StateInfo(name: string, isoCode: string, cities: seq<string>)
  datatype CountryInfo = CountryInfo(name: string, isoCode: string, states: seq<StateInfo>)

  /** `Country.getAllCountries().find((c) => c.name === name)` */
  function FindCountry(countries: seq<CountryInfo>, name: string): Option<CountryInfo> {
    Find(countries, (c: CountryInfo) => c.name == name)
  }

  /** `states.find((s) => s.name === name)` */
  function FindState(states: seq<StateInfo>, name: string): Option<StateInfo> {
    Find(states, (s: StateInfo) => s.name == name)
  }

  /** The cities the schema's refinement looks at: those of the first state
      called `stateName` of the first country called `countryName`, or none
      when either is not found. */
  function CitiesOf(countries: seq<CountryInfo>, countryName: string, stateName: string): seq<string> {
    match FindCountry(countries, countryName)
    case None => []
    case Some(c) =>
      match FindState(c.states, stateName)
      case None => []
      case Some(s) => s.cities
  }

  /** The cities named by `CitiesOf` belong to a state of that name in a
      country of that name, and when either name is unknown there are none. */
  lemma CitiesOfSpec(countries: seq<CountryInfo>, countryName: string, stateName: string)
    ensures CitiesOf(countries, countryName, stateName) != [] ==>
      exists c, s :: c in countries && c.name == countryName && s in c.states && s.name == stateName
                  && s.cities == CitiesOf(countries, countryName, stateName)
    ensures (forall c :: c in countries ==> c.name != countryName) ==> CitiesOf(countries, countryName, stateName) == []
    ensures (forall c, s :: c in countries && s in c.states ==> c.name != countryName || s.name != stateName)
        ==> CitiesOf(countries, countryName, stateName) == []
  {
    match FindCountry(countries, countryName)
    case None =>
    case Some(c) =>
      match FindState(c.states, stateName)
      case None =>
      case Some(s) =>
        assert c in countries && s in c.states;
  }

  /** The converse: when the first country called `countryName` is at
      position `i` and its first state called `stateName` is at position `j`,
      the cities consulted are exactly that state's cities. */
  lemma CitiesOfFound(countries: seq<CountryInfo>, countryName: string, stateName: string, i: nat, j: nat)
    requires i < |countries| && countries[i].name == countryName
    requires forall k :: 0 <= k < i ==> countries[k].name != countryName
    requires j < |countries[i].states| && countries[i].states[j].name == stateName
    requires forall k :: 0 <= k < j ==> countries[i].states[k].name != stateName
    ensures CitiesOf(countries, countryName, stateName) == countries[i].states[j].cities
  {
    assert FirstIndex(countries, (c: CountryInfo) => c.name == countryName) == Some(i);
    assert FirstIndex(countries[i].states, (s: StateInfo) => s.name == stateName) == Some(j);
  }

  /** `allCountries.find((c) => c.name === name)?.isoCode || "MY"` */
  function CountryIso(countries: seq<CountryInfo>, name: string): (iso: string)
    ensures iso != ""
    ensures FindCountry(countries, name).Some? && FindCountry(countries, name).value.isoCode != ""
        ==> iso == FindCountry(countries, name).value.isoCode
    ensures FindCountry(countries, name).None? ==> iso == "MY"
    ensures FindCountry(countries, name).Some? && FindCountry(countries, name).value.isoCode == "" ==> iso == "MY"
  {
    match FindCountry(countries, name)
    case Some(c) => if c.isoCode != "" then c.isoCode else "MY"
    case None => "MY"
  }

  // ---------------------------------------------------------------------
  // The form schema

  /** The form's values as react-hook-form hands them to the schema. */
  datatype FormValues = FormValues(
    fullName: string,
    email: string,
    countryCode: string,
    phoneNumber: string,
    addressLine1: string,
    addressLine2: Option<string>,
    state: string,
    city: Option<string>,
    postcode: string,
    country: string)

  /** One message the schema can report, by field. */
  datatype FormError =
    | FullNameRequired      // "Full name is required"
    | InvalidEmail          // "Invalid email address"
    | CountryCodeRequired   // "Select country code"
    | PhoneTooShort         // "Enter valid phone number"
    | AddressLine1Required  // "Address line 1 is required"
    | StateRequired         // "Please select your state"
    | PostcodeNotNumeric    // "Postcode must be numeric"
    | PostcodeNotFiveDigits // "Postcode must be 5 digits"
    | CountryRequired       // "Please select your country"
    | CityRequired          // "Please select your city"

  predicate IsDigit(c: char) {
    '0' <= c <= '9'
  }

  /** `/^[0-9]+$/` */
  predicate Numeric(s: string) {
    |s| > 0 && forall i :: 0 <= i < |s| ==> IsDigit(s[i])
  }

  /** Every message the schema reports for `v`. The refinement on the city
      runs even when field checks fail, since every field is a string. The
      e-mail syntax check belongs to the validation library and is the
      parameter `isEmail`. */
  function FormErrors(v: FormValues, countries: seq<CountryInfo>, isEmail: string -> bool): set<FormError> {
    (if |v.fullName| < 1 then {FullNameRequired} else {})
    + (if !isEmail(v.email) then {InvalidEmail} else {})
    + (if |v.countryCode| < 1 then {CountryCodeRequired} else {})
    + (if |v.phoneNumber| < 6 then {PhoneTooShort} else {})
    + (if |v.addressLine1| < 1 then {AddressLine1Required} else {})
    + (if |v.state| < 1 then {StateRequired} else {})
    + (if !Numeric(v.postcode) then {PostcodeNotNumeric} else {})
    + (if |v.postcode| != 5 then {PostcodeNotFiveDigits} else {})
    + (if |v.country| < 1 then {CountryRequired} else {})
    + (if |CitiesOf(countries, v.country, v.state)| > 0 && !Truthy(v.city) then {CityRequired} else {})
  }

  /** A postcode passes exactly when it is five characters, all of them
      digits. */
  lemma PostcodeRule(v: FormValues, countries: seq<CountryInfo>, isEmail: string -> bool)
    ensures PostcodeNotNumeric !in FormErrors(v, countries, isEmail) && PostcodeNotFiveDigits !in FormErrors(v, countries, isEmail)
        <==> |v.postcode| == 5 && forall i :: 0 <= i < 5 ==> '0' <= v.postcode[i] <= '9'
  {
  }

  /** The form is accepted, with no message at all, exactly when every
      field rule holds: the required fields are non-empty, the e-mail is
      well formed, the phone number has at least six characters, the
      postcode is five digits and a city is picked whenever the chosen state
      has cities. */
  lemma FormAcceptedIff(v: FormValues, countries: seq<CountryInfo>, isEmail: string -> bool)
    ensures FormErrors(v, countries, isEmail) == {} <==>
      && v.fullName != "" && isEmail(v.email) && v.countryCode != ""
      && |v.phoneNumber| >= 6 && v.addressLine1 != "" && v.state != ""
      && |v.postcode| == 5 && (forall i :: 0 <= i < 5 ==> IsDigit(v.postcode[i]))
      && v.country != ""
      && (CitiesOf(countries, v.country, v.state) == [] || Truthy(v.city))
  {
    var e := FormErrors(v, countries, isEmail);
    if e == {} {
      assert FullNameRequired !in e && PostcodeNotNumeric !in e && CityRequired !in e;
    }
  }

  /** The city is demanded exactly when the chosen state of the chosen
      country has at least one city and no city was picked; a state with no
      cities, or an unknown state or country, never demands one. */
  lemma CityRule(v: FormValues, countries: seq<CountryInfo>, isEmail: string -> bool)
    ensures CityRequired in FormErrors(v, countries, isEmail)
        <==> CitiesOf(countries, v.country, v.state) != [] && (v.city.None? || v.city.value == "")
    ensures (forall c :: c in countries ==> c.name != v.country) ==> CityRequired !in FormErrors(v, countries, isEmail)
  {
    CitiesOfSpec(countries, v.country, v.state);
  }

  // ---------------------------------------------------------------------
  // The order body

  /** One shipping quote returned by the courier rate lookup. */
  datatype RateItem = RateItem(
    rateId: string,
    serviceId: string,
    serviceName: string,
    courierId: string,
    courierName: string,
    shipmentTotalRates: real)

  datatype CourierChoice = CourierChoice(rateId: string, serviceId: string, serviceName: string, courierId: string, courierName: string)

  datatype ItemPayload = ItemPayload(
    productId: string,
    variantId: Option<string>,
    variantOptionId: Option<string>,
    itemSrc: string,
    itemName: string,
    itemWeight: Option<real>,
    itemWidth: Option<real>,
    itemLength: Option<real>,
    itemHeight: Option<real>,
    itemCurrency: string,
    itemUnitPrice: real,
    itemQuantity: int,
    itemTotalPrice: real)

  datatype OrderPayload = OrderPayload(
    fullName: string,
    email: string,
    phoneNumber: string,
    addressLine1: string,
    addressLine2: string,
    city: string,
    state: string,
    postcode: string,
    country: string,
    subTotalPrice: real,
    shippingFee: real,
    totalPrice: real,
    easyparcel: CourierChoice,
    items: seq<ItemPayload>)

  const NoServiceMessage: string := "Please select a shipping service before placing your order."

  /** `x || null` for an optional identifier. */
  function OrNone(x: Option<string>): Option<string> {
    if Truthy(x) then x else None
  }

  /** The entry `items.map` builds for one cart line. */
  function ItemEntry(item: CartItem): ItemPayload {
    ItemPayload(item.productId, OrNone(item.variantId), OrNone(item.variantOptionId), item.src, item.name,
      item.weight, item.width, item.length, item.height, "RM",
      PayPrice(item), item.quantity, LineTotal(item))
  }

  function ItemEntries(items: seq<CartItem>): (r: seq<ItemPayload>)
    ensures |r| == |items|
    ensures forall i :: 0 <= i < |items| ==> r[i] == ItemEntry(items[i])
  {
    if items == [] then [] else [ItemEntry(items[0])] + ItemEntries(items[1..])
  }

  /** The courier fields: those of the first stored quote with the selected
      service, each `|| ""`. */
  function Courier(serviceId: string, rates: seq<RateItem>): CourierChoice {
    match Find(rates, (r: RateItem) => r.serviceId == serviceId)
    case Some(r) => CourierChoice(r.rateId, serviceId, r.serviceName, r.courierId, r.courierName)
    case None => CourierChoice("", serviceId, "", "", "")
  }

  /** What `onSubmit` posts to the order endpoint, or the message it shows
      instead when no shipping service is selected. */
  function AssembleOrder(values: FormValues, selectedServiceId: Option<string>, rates: seq<RateItem>,
                         items: seq<CartItem>, subTotalPrice: real, shippingFee: real, totalPrice: real): Result<OrderPayload>
  {
    if !Truthy(selectedServiceId) then Err(NoServiceMessage)
    else Ok(OrderPayload(
      values.fullName, values.email, values.countryCode + values.phoneNumber,
      values.addressLine1, OrEmpty(values.addressLine2), OrEmpty(values.city),
      values.state, values.postcode, "MY",
      subTotalPrice, shippingFee, totalPrice,
      Courier(selectedServiceId.value, rates),
      ItemEntries(items)))
  }

  /** Submission is refused, with its message, exactly when no service is
      selected; otherwise the body carries the phone number after its
      country code, "" for a missing second address line or city, country
      "MY", the selected service, and one entry per cart line in cart
      order. The fields copied unchanged are stated by
      `OrderBodyCarriesForm`. */
  lemma AssembleOrderSpec(values: FormValues, selectedServiceId: Option<string>, rates: seq<RateItem>,
                          items: seq<CartItem>, subTotalPrice: real, shippingFee: real, totalPrice: real)
    ensures var r := AssembleOrder(values, selectedServiceId, rates, items, subTotalPrice, shippingFee, totalPrice);
      && (r.Err? <==> selectedServiceId.None? || selectedServiceId.value == "")
      && (r.Err? ==> r.message == NoServiceMessage)
      && (r.Ok? ==>
        && r.value.phoneNumber == values.countryCode + values.phoneNumber
        && r.value.phoneNumber[..|values.countryCode|] == values.countryCode
        && (values.addressLine2.None? ==> r.value.addressLine2 == "")
        && (values.city.None? ==> r.value.city == "")
        && (values.city.Some? ==> r.value.city == values.city.value)
        && r.value.country == "MY"
        && r.value.easyparcel.serviceId == selectedServiceId.value
        && |r.value.items| == |items|
        && forall i :: 0 <= i < |items| ==>
             && r.value.items[i].productId == items[i].productId
             && r.value.items[i].itemQuantity == items[i].quantity
             && r.value.items[i].itemUnitPrice == (if items[i].currentPrice.Some? then items[i].currentPrice.value else items[i].unitPrice)
             && r.value.items[i].itemTotalPrice == r.value.items[i].itemUnitPrice * items[i].quantity as real)
  {
  }

  /** An accepted body carries the name, e-mail, address lines, state,
      postcode and the three prices exactly as given. */
  lemma OrderBodyCarriesForm(values: FormValues, selectedServiceId: Option<string>, rates: seq<RateItem>,
                             items: seq<CartItem>, subTotalPrice: real, shippingFee: real, totalPrice: real)
    ensures var r := AssembleOrder(values, selectedServiceId, rates, items, subTotalPrice, shippingFee, totalPrice);
      r.Ok? ==>
        && r.value.fullName == values.fullName && r.value.email == values.email
        && r.value.addressLine1 == values.addressLine1
        && (values.addressLine2.Some? ==> r.value.addressLine2 == values.addressLine2.value)
        && r.value.state == values.state && r.value.postcode == values.postcode
        && r.value.subTotalPrice == subTotalPrice && r.value.shippingFee == shippingFee
        && r.value.totalPrice == totalPrice
  {
  }

  /** The courier details come from the first stored quote for the selected
      service; a service with no stored quote sends empty details. */
  lemma CourierSpec(serviceId: string, rates: seq<RateItem>)
    ensures Courier(serviceId, rates).serviceId == serviceId
    ensures (forall r :: r in rates ==> r.serviceId != serviceId) ==>
      Courier(serviceId, rates) == CourierChoice("", serviceId, "", "", "")
    ensures forall i :: 0 <= i < |rates| && rates[i].serviceId == serviceId
                        && (forall j :: 0 <= j < i ==> rates[j].serviceId != serviceId) ==>
      Courier(serviceId, rates) == CourierChoice(rates[i].rateId, serviceId, rates[i].serviceName, rates[i].courierId, rates[i].courierName)
  {
    var p := (r: RateItem) => r.serviceId == serviceId;
    match FirstIndex(rates, p)
    case None =>
    case Some(k) =>
      forall i | 0 <= i < |rates| && rates[i].serviceId == serviceId && (forall j :: 0 <= j < i ==> rates[j].serviceId != serviceId)
        ensures i == k
      {
      }
  }

  /** `entries` summed by their `itemTotalPrice`. */
  function ItemTotals(entries: seq<ItemPayload>): real {
    if entries == [] then 0.0 else entries[0].itemTotalPrice + ItemTotals(entries[1..])
  }

  /** The first cart line's total, then the rest's. */
  lemma ItemTotalsCons(items: seq<CartItem>)
    requires items != []
    ensures ItemTotals(ItemEntries(items)) == LineTotal(items[0]) + ItemTotals(ItemEntries(items[1..]))
  {
    var entries := ItemEntries(items);
    assert entries == [ItemEntry(items[0])] + ItemEntries(items[1..]);
    assert entries[1..] == ItemEntries(items[1..]);
  }

  /** The navbar's total, split after the first line. */
  lemma CartTotalFirst(items: seq<CartItem>)
    requires items != []
    ensures Navbar.CartTotal(items) == LineTotal(items[0]) + Navbar.CartTotal(items[1..])
  {
    Navbar.CartTotalCons(items[0], items[1..]);
    assert [items[0]] + items[1..] == items;
  }

  /** The order's item totals add up to the cart total the navbar showed;
      so when checkout received that total as its subtotal (the navbar's
      checkout link passes both), the body's subtotal is the sum of its
      lines. */
  lemma {:induction false} ItemTotalsMatchCart(items: seq<CartItem>)
    ensures ItemTotals(ItemEntries(items)) == Navbar.CartTotal(items)
  {
    if items != [] {
      ItemTotalsCons(items);
      ItemTotalsMatchCart(items[1..]);
      CartTotalFirst(items);
    }
  }

  lemma SubtotalIsSumOfLines(values: FormValues, serviceId: string, rates: seq<RateItem>,
                             items: seq<CartItem>, shippingFee: real, totalPrice: real)
    requires serviceId != ""
    ensures var r := AssembleOrder(values, Some(serviceId), rates, items, Navbar.CartTotal(items), shippingFee, totalPrice);
      r.Ok? && ItemTotals(r.value.items) == r.value.subTotalPrice
  {
    ItemTotalsMatchCart(items);
  }
}
