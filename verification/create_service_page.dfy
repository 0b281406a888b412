/** The create-service page: the defaults it loads, how a chosen cargo
    fills the measures, the checks before submitting, and the request it
    sends, set against the endpoint's own required-field gate. parseFloat
    and the number-to-text conversion are oracles; the clock's date is an
    input. */
module CreateServicePage {
  import opened Common
  import ServicesController

  /** The form's inputs, all texts. */
  datatype CreateForm = CreateForm(
    origin: string, destination: string, serviceTypeId: string, date: string,
    price: string, currencyId: string, notes: string,
    weight: string, length: string, width: string, height: string)

  datatype Currency = Currency(id: int, code: string)

  // ---------------------------------------------------------------------
  // Defaults

  /** The index of the first currency with the code, if any. */
  function FindCode(currencies: seq<Currency>, code: string): (i: Option<nat>)
    ensures i.Some? ==> i.value < |currencies| && currencies[i.value].code == code
    ensures i.Some? ==> forall j :: 0 <= j < i.value ==> currencies[j].code != code
    ensures i.None? ==> forall j :: 0 <= j < |currencies| ==> currencies[j].code != code
  {
    if currencies == [] then None
    else if currencies[0].code == code then Some(0)
    else
      match FindCode(currencies[1..], code)
      case None => None
      case Some(k) => Some(k + 1)
  }

  /** The default service type: the first loaded type, else "". */
  function DefaultServiceTypeId(typeIds: seq<int>): (t: string)
    ensures typeIds == [] <==> t == ""
    ensures typeIds != [] ==> ParseInt(t) == Some(typeIds[0])
  {
    if typeIds != [] then ParseIntOfIntToString(typeIds[0]); IntToString(typeIds[0]) else ""
  }

  /** The default currency: the first with code PEN, else the first, else "". */
  function DefaultCurrencyId(currencies: seq<Currency>): (c: string)
    ensures currencies == [] <==> c == ""
    ensures FindCode(currencies, "PEN").Some? ==>
              ParseInt(c) == Some(currencies[FindCode(currencies, "PEN").value].id)
    ensures currencies != [] && FindCode(currencies, "PEN").None? ==> ParseInt(c) == Some(currencies[0].id)
  {
    match FindCode(currencies, "PEN")
    case Some(i) => ParseIntOfIntToString(currencies[i].id); IntToString(currencies[i].id)
    case None =>
      if currencies != [] then ParseIntOfIntToString(currencies[0].id); IntToString(currencies[0].id) else ""
  }

  /** PEN wins wherever it stands in the list. */
  lemma PenPreferred(others: seq<Currency>, pen: Currency, rest: seq<Currency>)
    requires pen.code == "PEN"
    requires forall j :: 0 <= j < |others| ==> others[j].code != "PEN"
    ensures ParseInt(DefaultCurrencyId(others + [pen] + rest)) == Some(pen.id)
  {
    var all := others + [pen] + rest;
    assert all[|others|] == pen;
    var i := FindCode(all, "PEN");
    assert i.Some?;
    assert i.value == |others|;
  }

  // ---------------------------------------------------------------------
  // Cargo measures

  /** details.x ? details.x.toString() : '': zero, NaN and absent measures
      leave the input blank. show stands for Number.prototype.toString. */
  function MeasureText(m: Option<JsNumber>, show: real -> string): (t: string)
    ensures m.None? || m == Some(NaN) || m == Some(Finite(0.0)) ==> t == ""
    ensures m.Some? && m.value.Finite? && m.value.x != 0.0 ==> t == show(m.value.x)
  {
    if m.Some? && m.value.Finite? && m.value.x != 0.0 then show(m.value.x) else ""
  }

  datatype CargoDetails = CargoDetails(length: Option<JsNumber>, width: Option<JsNumber>,
                                       height: Option<JsNumber>, weight: Option<JsNumber>)

  // ---------------------------------------------------------------------
  // Submitting

  /** The checks before sending: client and cargo chosen; origin,
      destination, service type, currency and weight filled; price and
      weight parse to positive numbers. */
  predicate Acceptable(form: CreateForm, clientId: Option<int>, cargoTypeId: Option<int>,
                       parseFloat: string -> JsNumber)
  {
    && clientId.Some? && cargoTypeId.Some?
    && form.origin != "" && form.destination != "" && form.serviceTypeId != ""
    && form.currencyId != "" && form.weight != ""
    && parseFloat(form.price).Finite? && parseFloat(form.price).x > 0.0
    && parseFloat(form.weight).Finite? && parseFloat(form.weight).x > 0.0
  }

  /** A number as JSON carries it: NaN becomes null. */
  function JsonNumber(n: JsNumber): (v: JsValue)
    ensures n.Finite? ==> v == Num(n.x)
    ensures n.NaN? ==> v == Null
  {
    match n
    case Finite(x) => Num(x)
    case NaN => Null
  }

  /** parseInt on an id text, as JSON carries it. */
  function JsonInt(text: string): (v: JsValue)
    ensures ParseInt(text).Some? ==> v == Num(ParseInt(text).value as real)
    ensures ParseInt(text).None? ==> v == Null
  {
    match ParseInt(text)
    case Some(i) => Num(i as real)
    case None => Null
  }

  /** parseFloat(x) || undefined: a measure that parses to zero or NaN is
      left out. */
  function OptionalMeasure(text: string, parseFloat: string -> JsNumber): (v: JsValue)
    ensures v.Undefined? <==> parseFloat(text).NaN? || parseFloat(text) == Finite(0.0)
    ensures !v.Undefined? ==> v == Num(parseFloat(text).x) && v.x != 0.0
  {
    var n := parseFloat(text);
    if n.Finite? && n.x != 0.0 then Num(n.x) else Undefined
  }

  /** The body sent to the create endpoint, in the endpoint's terms, with
      the service type the endpoint does not read kept beside it. */
  datatype SentRequest = SentRequest(body: ServicesController.CreateServiceRequest, serviceTypeId: JsValue)

  function RequestFor(form: CreateForm, clientId: int, cargoTypeId: int, parseFloat: string -> JsNumber): SentRequest {
    SentRequest(
      ServicesController.CreateServiceRequest(
        Num(clientId as real), Str(form.origin), Str(form.destination), Str(form.date),
        Num(cargoTypeId as real), JsonNumber(parseFloat(form.weight)),
        OptionalMeasure(form.length, parseFloat), OptionalMeasure(form.width, parseFloat),
        OptionalMeasure(form.height, parseFloat), Str(form.notes),
        JsonNumber(parseFloat(form.price)), JsonInt(form.currencyId)),
      JsonInt(form.serviceTypeId))
  }

  const IncompleteMessage: string := "Por favor complete todos los campos obligatorios."

  datatype SubmitOutcome = Incomplete(toast: string) | Sent(request: SentRequest)

  /** The number fields the page checks reach the endpoint truthy. */
  lemma CheckedNumbersTruthy(form: CreateForm, clientId: int, cargoTypeId: int, parseFloat: string -> JsNumber)
    requires Acceptable(form, Some(clientId), Some(cargoTypeId), parseFloat)
    requires clientId != 0 && cargoTypeId != 0
    ensures var body := RequestFor(form, clientId, cargoTypeId, parseFloat).body;
            Truthy(body.clientId) && Truthy(body.cargoTypeId) && Truthy(body.weight) && Truthy(body.price)
  {
  }

  lemma CurrencyTruthy(text: string)
    requires ParseInt(text).Some? && ParseInt(text).value != 0
    ensures Truthy(JsonInt(text))
  {
  }

  /** A form the page sends passes the endpoint's gate as long as the date
      is filled, the chosen client, cargo type and currency ids are not 0. */
  lemma AcceptedFormPassesEndpoint(form: CreateForm, clientId: int, cargoTypeId: int, parseFloat: string -> JsNumber)
    requires Acceptable(form, Some(clientId), Some(cargoTypeId), parseFloat)
    requires form.date != "" && clientId != 0 && cargoTypeId != 0
    requires ParseInt(form.currencyId).Some? && ParseInt(form.currencyId).value != 0
    ensures ServicesController.HasRequiredFields(RequestFor(form, clientId, cargoTypeId, parseFloat).body)
  {
    var body := RequestFor(form, clientId, cargoTypeId, parseFloat).body;
    assert Truthy(body.clientId) && Truthy(body.cargoTypeId) && Truthy(body.weight) && Truthy(body.price) by {
      CheckedNumbersTruthy(form, clientId, cargoTypeId, parseFloat);
    }
    assert Truthy(body.currencyId) by {
      CurrencyTruthy(form.currencyId);
    }
    assert Truthy(body.origin) && Truthy(body.destination) && Truthy(body.tentativeDate);
  }

  /** The page does not check the date: a cleared date input gets past the
      page and is refused by the endpoint. */
  lemma ClearedDateReachesEndpoint(form: CreateForm, clientId: int, cargoTypeId: int, parseFloat: string -> JsNumber)
    requires Acceptable(form, Some(clientId), Some(cargoTypeId), parseFloat) && form.date == ""
    ensures !ServicesController.HasRequiredFields(RequestFor(form, clientId, cargoTypeId, parseFloat).body)
  {
  }

  /** The page's state. */
  class CreateServiceState {
    var formData: CreateForm
    var selectedClient: Option<int>
    var selectedCargo: Option<int>

    /** The empty form dated today (the date part of the clock's ISO
        timestamp). */
    constructor (nowIso: string)
      ensures formData == CreateForm("", "", "", BeforeFirst(nowIso, 'T'), "", "", "", "", "", "", "")
      ensures selectedClient == None && selectedCargo == None
    {
      formData := CreateForm("", "", "", BeforeFirst(nowIso, 'T'), "", "", "", "", "", "", "");
      selectedClient, selectedCargo := None, None;
    }

    /** loadInitialData: the two defaults, the rest of the form kept. */
    method LoadInitialData(typeIds: seq<int>, currencies: seq<Currency>)
      modifies this
      ensures formData == old(formData).(serviceTypeId := DefaultServiceTypeId(typeIds),
                                         currencyId := DefaultCurrencyId(currencies))
      ensures selectedClient == old(selectedClient) && selectedCargo == old(selectedCargo)
    {
      formData := formData.(serviceTypeId := DefaultServiceTypeId(typeIds),
                            currencyId := DefaultCurrencyId(currencies));
    }

    /** handleCargoDetailsChange: the four measures replaced. */
    method CargoDetailsChange(details: CargoDetails, show: real -> string)
      modifies this
      ensures formData == old(formData).(length := MeasureText(details.length, show),
                                         width := MeasureText(details.width, show),
                                         height := MeasureText(details.height, show),
                                         weight := MeasureText(details.weight, show))
      ensures selectedClient == old(selectedClient) && selectedCargo == old(selectedCargo)
    {
      formData := formData.(length := MeasureText(details.length, show),
                            width := MeasureText(details.width, show),
                            height := MeasureText(details.height, show),
                            weight := MeasureText(details.weight, show));
    }

    /** handleSubmit: one toast for every failed check, else the request. */
    method Submit(parseFloat: string -> JsNumber) returns (outcome: SubmitOutcome)
      ensures !Acceptable(formData, selectedClient, selectedCargo, parseFloat) ==> outcome == Incomplete(IncompleteMessage)
      ensures Acceptable(formData, selectedClient, selectedCargo, parseFloat) ==>
                outcome == Sent(RequestFor(formData, selectedClient.value, selectedCargo.value, parseFloat))
      ensures outcome.Sent? ==> outcome.request.body.price.Num? && outcome.request.body.price.x > 0.0
      ensures outcome.Sent? ==> outcome.request.body.weight.Num? && outcome.request.body.weight.x > 0.0
    {
      var weightVal := parseFloat(formData.weight);
      var priceVal := parseFloat(formData.price);
      if selectedClient.None? || selectedCargo.None? || formData.origin == "" || formData.destination == ""
         || formData.serviceTypeId == "" || formData.currencyId == "" || formData.weight == ""
         || priceVal.NaN? || priceVal.x <= 0.0 || weightVal.NaN? || weightVal.x <= 0.0
      {
        return Incomplete(IncompleteMessage);
      }
      outcome := Sent(RequestFor(formData, selectedClient.value, selectedCargo.value, parseFloat));
    }
  }
}
