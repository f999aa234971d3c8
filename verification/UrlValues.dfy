/** Both QueryValues: url.Values filled parameter by parameter, and what the values of a query are. */
module UrlValues {
  import opened Wrappers
  import opened Text
  import opened EisConfig
  import opened SearcherConfigs

  // ---- The query as url.Values -----------------------------------------------------------------------

  datatype Value = Words(s: string) | Amount(n: real)

  /** url.Values, each parameter holding one value. */
  type Values = map<string, Value>

  function Put(vs: Values, name: string, v: Option<string>): Values {
    if v.Some? then vs[name := Words(v.value)] else vs
  }

  function PutAmount(vs: Values, name: string, v: Option<real>): Values {
    if v.Some? then vs[name := Amount(v.value)] else vs
  }

  function SearchValues(text: Option<string>, morphology: Option<string>, strictEqual: Option<string>): Values {
    Put(Put(Put(map[], "searchString", text), "morphology", morphology), "strictEqual", strictEqual)
  }

  function LawValues(vs: Values, fz44: Option<string>, fz223: Option<string>, ppRf615: Option<string>): Values {
    Put(Put(Put(vs, "fz44", fz44), "fz223", fz223), "ppRf615", ppRf615)
  }

  function StageValues(vs: Values, af: Option<string>, ca: Option<string>, pc: Option<string>, pa: Option<string>)
    : Values
  {
    Put(Put(Put(Put(vs, "af", af), "ca", ca), "pc", pc), "pa", pa)
  }

  function OrderValues(vs: Values, sortBy: Option<string>, sortDirection: Option<string>,
                       recordsPerPage: Option<string>, pageNumber: Option<string>): Values
  {
    var sorted := Put(Put(vs, "sortBy", sortBy), "sortDirection", sortDirection);
    Put(Put(sorted, "recordsPerPage", recordsPerPage), "pageNumber", pageNumber)
  }

  function PriceValues(vs: Values, from: Option<real>, to: Option<real>): Values {
    PutAmount(PutAmount(vs, "priceFromGeneral", from), "priceToGeneral", to)
  }

  function DateValues(vs: Values, publishFrom: Option<string>, publishTo: Option<string>,
                      closeFrom: Option<string>, closeTo: Option<string>): Values
  {
    var published := Put(Put(vs, "publishDateFrom", publishFrom), "publishDateTo", publishTo);
    Put(Put(published, "applSubmissionCloseDateFrom", closeFrom), "applSubmissionCloseDateTo", closeTo)
  }

  function CustomerValues(vs: Values, customer: Option<string>): Values {
    Put(vs, "customerTitle", customer)
  }

  function CodeValues(vs: Values, codes: Option<string>, nested: Option<string>, several: Option<string>): Values {
    Put(Put(Put(vs, "okpd2IdsCodes", codes), "okpd2IdsWithNested", nested), "okpd2IdsSeveral", several)
  }

  function PlacingValues(vs: Values, way: Option<string>, smp: Option<string>, joint: Option<string>,
                         currency: Option<string>): Values
  {
    var placed := Put(Put(vs, "placingWayList", way), "procurementSMPAndSONO", smp);
    Put(Put(placed, "jointPurchase", joint), "currencyCodeGeneral", currency)
  }

  /** The parameters that both forms ask for, under their names. */
  function OlderValues(q: Query): Values {
    var search := LawValues(SearchValues(q.searchString, q.morphology, q.strictEqual), q.fz44, q.fz223, q.ppRf615);
    var staged := StageValues(search, q.af, q.ca, q.pc, q.pa);
    var ordered := OrderValues(staged, q.sortBy, q.sortDirection, q.recordsPerPage, q.pageNumber);
    var priced := PriceValues(ordered, q.priceFromGeneral, q.priceToGeneral);
    var dated := DateValues(priced, q.publishDateFrom, q.publishDateTo, q.applSubmissionCloseDateFrom,
                            q.applSubmissionCloseDateTo);
    CustomerValues(dated, q.customerTitle)
  }

  /** All parameters of the query under their names. */
  function ValuesOf(q: Query): Values {
    var coded := CodeValues(OlderValues(q), q.okpd2IdsCodes, q.okpd2IdsWithNested, q.okpd2IdsSeveral);
    PlacingValues(coded, q.placingWayList, q.procurementSMPAndSONO, q.jointPurchase, q.currencyCodeGeneral)
  }

  // ---- What holds of such values -----------------------------------------------------------------------

  /** No parameter is sent without a value. */
  ghost predicate NoneEmpty(vs: Values) {
    forall name :: name in vs && vs[name].Words? ==> vs[name].s != ""
  }

  const OLDER_PARAMETERS: set<string> :=
    {"searchString", "morphology", "strictEqual", "fz44", "fz223", "ppRf615", "af", "ca", "pc", "pa", "sortBy",
      "sortDirection", "recordsPerPage", "pageNumber", "priceFromGeneral", "priceToGeneral", "publishDateFrom",
      "publishDateTo", "applSubmissionCloseDateFrom", "applSubmissionCloseDateTo", "customerTitle"}

  const NEW_PARAMETERS: set<string> :=
    {"okpd2IdsCodes", "okpd2IdsWithNested", "okpd2IdsSeveral", "placingWayList", "procurementSMPAndSONO",
     "jointPurchase", "currencyCodeGeneral"}

  // ---- Filling it, group by group --------------------------------------------------------------------

  method SetSearch(text: string, morphology: bool, strictEqual: bool) returns (q: Values)
    ensures q == SearchValues(NonEmpty(TrimSpace(text)), Flag(UsesMorphology(morphology, strictEqual), "on"),
                              Flag(strictEqual, "true"))
    ensures NoneEmpty(q)
  {
    q := map[];
    var s := TrimSpace(text);
    if s != "" {
      q := q["searchString" := Words(s)];
    }
    if morphology && !strictEqual {
      q := q["morphology" := Words("on")];
    }
    if strictEqual {
      q := q["strictEqual" := Words("true")];
    }
  }

  method SetLaws(vs: Values, fz44: bool, fz223: bool, ppRf615: bool) returns (q: Values)
    requires NoneEmpty(vs)
    ensures q == LawValues(vs, Flag(fz44, "on"), Flag(fz223, "on"), Flag(ppRf615, "on"))
    ensures NoneEmpty(q)
  {
    q := vs;
    if fz44 {
      q := q["fz44" := Words("on")];
    }
    if fz223 {
      q := q["fz223" := Words("on")];
    }
    if ppRf615 {
      q := q["ppRf615" := Words("on")];
    }
  }

  method SetStages(vs: Values, af: bool, ca: bool, pc: bool, pa: bool) returns (q: Values)
    requires NoneEmpty(vs)
    ensures q == StageValues(vs, Flag(af, "on"), Flag(ca, "on"), Flag(pc, "on"), Flag(pa, "on"))
    ensures NoneEmpty(q)
  {
    q := vs;
    if af {
      q := q["af" := Words("on")];
    }
    if ca {
      q := q["ca" := Words("on")];
    }
    if pc {
      q := q["pc" := Words("on")];
    }
    if pa {
      q := q["pa" := Words("on")];
    }
  }

  /** The program's defaults: UPDATE_DATE for the order, page 1. */
  method SetOrder(vs: Values, order: string, direction: bool, pageSize: string) returns (q: Values)
    requires NoneEmpty(vs) && pageSize != ""
    ensures q == OrderValues(vs, Some(OrElse(order, "UPDATE_DATE")), Some(FormatBool(direction)), Some(pageSize),
                             Some("1"))
    ensures NoneEmpty(q)
  {
    var sortBy := order;
    if sortBy == "" {
      sortBy := "UPDATE_DATE";
    }
    q := vs["sortBy" := Words(sortBy)];
    q := q["sortDirection" := Words(if direction then "true" else "false")];
    q := q["recordsPerPage" := Words(pageSize)];
    q := q["pageNumber" := Words("1")];
  }

  method SetPrices(vs: Values, from: Option<real>, to: Option<real>) returns (q: Values)
    requires NoneEmpty(vs)
    ensures q == PriceValues(vs, from, to)
    ensures NoneEmpty(q)
  {
    q := vs;
    if from.Some? {
      q := q["priceFromGeneral" := Amount(from.value)];
    }
    if to.Some? {
      q := q["priceToGeneral" := Amount(to.value)];
    }
  }

  method SetDates(vs: Values, publishFrom: string, publishTo: string, closeFrom: string, closeTo: string)
      returns (q: Values)
    requires NoneEmpty(vs)
    ensures q == DateValues(vs, NonEmpty(publishFrom), NonEmpty(publishTo), NonEmpty(closeFrom), NonEmpty(closeTo))
    ensures NoneEmpty(q)
  {
    q := vs;
    if publishFrom != "" {
      q := q["publishDateFrom" := Words(publishFrom)];
    }
    if publishTo != "" {
      q := q["publishDateTo" := Words(publishTo)];
    }
    if closeFrom != "" {
      q := q["applSubmissionCloseDateFrom" := Words(closeFrom)];
    }
    if closeTo != "" {
      q := q["applSubmissionCloseDateTo" := Words(closeTo)];
    }
  }

  method SetCustomer(vs: Values, customer: string) returns (q: Values)
    requires NoneEmpty(vs)
    ensures q == CustomerValues(vs, NonEmpty(TrimSpace(customer)))
    ensures NoneEmpty(q)
  {
    q := vs;
    var t := TrimSpace(customer);
    if t != "" {
      q := q["customerTitle" := Words(t)];
    }
  }

  // ---- Which parameters there are, and what they say ----------------------------------------------------

  function At(vs: Values, name: string): Option<Value> {
    if name in vs then Some(vs[name]) else None
  }

  function WordsOf(text: Option<string>): Option<Value> {
    if text.Some? then Some(Words(text.value)) else None
  }

  function AmountOf(price: Option<real>): Option<Value> {
    if price.Some? then Some(Amount(price.value)) else None
  }

  lemma SearchAt(text: Option<string>, morphology: Option<string>, strictEqual: Option<string>, name: string)
    ensures At(SearchValues(text, morphology, strictEqual), name) ==
      if name == "strictEqual" && strictEqual.Some? then Some(Words(strictEqual.value))
      else if name == "morphology" && morphology.Some? then Some(Words(morphology.value))
      else if name == "searchString" && text.Some? then Some(Words(text.value))
      else None
  {
  }

  lemma LawAt(vs: Values, a: Option<string>, b: Option<string>, c: Option<string>, name: string)
    ensures At(LawValues(vs, a, b, c), name) ==
      if name == "ppRf615" && c.Some? then Some(Words(c.value))
      else if name == "fz223" && b.Some? then Some(Words(b.value))
      else if name == "fz44" && a.Some? then Some(Words(a.value))
      else At(vs, name)
  {
  }

  lemma StageAt(vs: Values, a: Option<string>, b: Option<string>, c: Option<string>, d: Option<string>, name: string)
    ensures At(StageValues(vs, a, b, c, d), name) ==
      if name == "pa" && d.Some? then Some(Words(d.value))
      else if name == "pc" && c.Some? then Some(Words(c.value))
      else if name == "ca" && b.Some? then Some(Words(b.value))
      else if name == "af" && a.Some? then Some(Words(a.value))
      else At(vs, name)
  {
  }

  lemma OrderAt(vs: Values, a: Option<string>, b: Option<string>, c: Option<string>, d: Option<string>, name: string)
    ensures At(OrderValues(vs, a, b, c, d), name) ==
      if name == "pageNumber" && d.Some? then Some(Words(d.value))
      else if name == "recordsPerPage" && c.Some? then Some(Words(c.value))
      else if name == "sortDirection" && b.Some? then Some(Words(b.value))
      else if name == "sortBy" && a.Some? then Some(Words(a.value))
      else At(vs, name)
  {
  }

  lemma PriceAt(vs: Values, from: Option<real>, to: Option<real>, name: string)
    ensures At(PriceValues(vs, from, to), name) ==
      if name == "priceToGeneral" && to.Some? then Some(Amount(to.value))
      else if name == "priceFromGeneral" && from.Some? then Some(Amount(from.value))
      else At(vs, name)
  {
  }

  lemma DateAt(vs: Values, a: Option<string>, b: Option<string>, c: Option<string>, d: Option<string>, name: string)
    ensures At(DateValues(vs, a, b, c, d), name) ==
      if name == "applSubmissionCloseDateTo" && d.Some? then Some(Words(d.value))
      else if name == "applSubmissionCloseDateFrom" && c.Some? then Some(Words(c.value))
      else if name == "publishDateTo" && b.Some? then Some(Words(b.value))
      else if name == "publishDateFrom" && a.Some? then Some(Words(a.value))
      else At(vs, name)
  {
  }

  lemma CodeAt(vs: Values, a: Option<string>, b: Option<string>, c: Option<string>, name: string)
    ensures At(CodeValues(vs, a, b, c), name) ==
      if name == "okpd2IdsSeveral" && c.Some? then Some(Words(c.value))
      else if name == "okpd2IdsWithNested" && b.Some? then Some(Words(b.value))
      else if name == "okpd2IdsCodes" && a.Some? then Some(Words(a.value))
      else At(vs, name)
  {
  }

  lemma PlacingAt(vs: Values, a: Option<string>, b: Option<string>, c: Option<string>, d: Option<string>, name: string)
    ensures At(PlacingValues(vs, a, b, c, d), name) ==
      if name == "currencyCodeGeneral" && d.Some? then Some(Words(d.value))
      else if name == "jointPurchase" && c.Some? then Some(Words(c.value))
      else if name == "procurementSMPAndSONO" && b.Some? then Some(Words(b.value))
      else if name == "placingWayList" && a.Some? then Some(Words(a.value))
      else At(vs, name)
  {
  }

  /** What the query says for the parameter of this name, if it is one that both forms ask for. */
  function OlderSays(q: Query, name: string): Option<Value> {
    if name == "customerTitle" && q.customerTitle.Some? then Some(Words(q.customerTitle.value))
    else if name == "applSubmissionCloseDateTo" && q.applSubmissionCloseDateTo.Some?
      then Some(Words(q.applSubmissionCloseDateTo.value))
    else if name == "applSubmissionCloseDateFrom" && q.applSubmissionCloseDateFrom.Some?
      then Some(Words(q.applSubmissionCloseDateFrom.value))
    else if name == "publishDateTo" && q.publishDateTo.Some? then Some(Words(q.publishDateTo.value))
    else if name == "publishDateFrom" && q.publishDateFrom.Some? then Some(Words(q.publishDateFrom.value))
    else if name == "priceToGeneral" && q.priceToGeneral.Some? then Some(Amount(q.priceToGeneral.value))
    else if name == "priceFromGeneral" && q.priceFromGeneral.Some? then Some(Amount(q.priceFromGeneral.value))
    else if name == "pageNumber" && q.pageNumber.Some? then Some(Words(q.pageNumber.value))
    else if name == "recordsPerPage" && q.recordsPerPage.Some? then Some(Words(q.recordsPerPage.value))
    else if name == "sortDirection" && q.sortDirection.Some? then Some(Words(q.sortDirection.value))
    else if name == "sortBy" && q.sortBy.Some? then Some(Words(q.sortBy.value))
    else if name == "pa" && q.pa.Some? then Some(Words(q.pa.value))
    else if name == "pc" && q.pc.Some? then Some(Words(q.pc.value))
    else if name == "ca" && q.ca.Some? then Some(Words(q.ca.value))
    else if name == "af" && q.af.Some? then Some(Words(q.af.value))
    else if name == "ppRf615" && q.ppRf615.Some? then Some(Words(q.ppRf615.value))
    else if name == "fz223" && q.fz223.Some? then Some(Words(q.fz223.value))
    else if name == "fz44" && q.fz44.Some? then Some(Words(q.fz44.value))
    else if name == "strictEqual" && q.strictEqual.Some? then Some(Words(q.strictEqual.value))
    else if name == "morphology" && q.morphology.Some? then Some(Words(q.morphology.value))
    else if name == "searchString" && q.searchString.Some? then Some(Words(q.searchString.value))
    else None
  }

  /** The same for all parameters. */
  function Says(q: Query, name: string): Option<Value> {
    if name == "currencyCodeGeneral" && q.currencyCodeGeneral.Some? then Some(Words(q.currencyCodeGeneral.value))
    else if name == "jointPurchase" && q.jointPurchase.Some? then Some(Words(q.jointPurchase.value))
    else if name == "procurementSMPAndSONO" && q.procurementSMPAndSONO.Some?
      then Some(Words(q.procurementSMPAndSONO.value))
    else if name == "placingWayList" && q.placingWayList.Some? then Some(Words(q.placingWayList.value))
    else if name == "okpd2IdsSeveral" && q.okpd2IdsSeveral.Some? then Some(Words(q.okpd2IdsSeveral.value))
    else if name == "okpd2IdsWithNested" && q.okpd2IdsWithNested.Some? then Some(Words(q.okpd2IdsWithNested.value))
    else if name == "okpd2IdsCodes" && q.okpd2IdsCodes.Some? then Some(Words(q.okpd2IdsCodes.value))
    else OlderSays(q, name)
  }

  lemma OlderAt(q: Query, name: string)
    ensures At(OlderValues(q), name) == OlderSays(q, name)
  {
    hide SearchValues, LawValues, StageValues, OrderValues, PriceValues, DateValues, At;
    var search := SearchValues(q.searchString, q.morphology, q.strictEqual);
    SearchAt(q.searchString, q.morphology, q.strictEqual, name);
    LawAt(search, q.fz44, q.fz223, q.ppRf615, name);
    var lawful := LawValues(search, q.fz44, q.fz223, q.ppRf615);
    StageAt(lawful, q.af, q.ca, q.pc, q.pa, name);
    var staged := StageValues(lawful, q.af, q.ca, q.pc, q.pa);
    OrderAt(staged, q.sortBy, q.sortDirection, q.recordsPerPage, q.pageNumber, name);
    var ordered := OrderValues(staged, q.sortBy, q.sortDirection, q.recordsPerPage, q.pageNumber);
    PriceAt(ordered, q.priceFromGeneral, q.priceToGeneral, name);
    var priced := PriceValues(ordered, q.priceFromGeneral, q.priceToGeneral);
    DateAt(priced, q.publishDateFrom, q.publishDateTo, q.applSubmissionCloseDateFrom, q.applSubmissionCloseDateTo,
           name);
    CustomerAt(DateValues(priced, q.publishDateFrom, q.publishDateTo, q.applSubmissionCloseDateFrom,
                          q.applSubmissionCloseDateTo), q.customerTitle, name);
    hide CustomerValues;
  }

  lemma CustomerAt(vs: Values, a: Option<string>, name: string)
    ensures At(CustomerValues(vs, a), name)
         == if name == "customerTitle" && a.Some? then Some(Words(a.value)) else At(vs, name)
  {
  }

  lemma ValuesSay(q: Query, name: string)
    ensures At(ValuesOf(q), name) == Says(q, name)
  {
    hide OlderValues, CodeValues, PlacingValues, OlderSays, At;
    OlderAt(q, name);
    CodeAt(OlderValues(q), q.okpd2IdsCodes, q.okpd2IdsWithNested, q.okpd2IdsSeveral, name);
    PlacingAt(CodeValues(OlderValues(q), q.okpd2IdsCodes, q.okpd2IdsWithNested, q.okpd2IdsSeveral),
              q.placingWayList, q.procurementSMPAndSONO, q.jointPurchase, q.currencyCodeGeneral, name);
  }

  /** No name of the newer form's is one of the older form's. */
  lemma NewNamesAreNew(q: Query, name: string)
    requires name in NEW_PARAMETERS
    ensures OlderSays(q, name) == None
  {
  }

  /** Each parameter says what the query has for it. */
  lemma SearchSaid(q: Query)
    ensures At(ValuesOf(q), "searchString") == WordsOf(q.searchString)
    ensures At(ValuesOf(q), "morphology") == WordsOf(q.morphology)
    ensures At(ValuesOf(q), "strictEqual") == WordsOf(q.strictEqual)
  {
    hide ValuesOf, At;
    ValuesSay(q, "searchString");
    ValuesSay(q, "morphology");
    ValuesSay(q, "strictEqual");
  }

  lemma SearchAlsoSaid(q: Query)
    ensures At(ValuesOf(q), "fz44") == WordsOf(q.fz44)
    ensures At(ValuesOf(q), "fz223") == WordsOf(q.fz223)
    ensures At(ValuesOf(q), "ppRf615") == WordsOf(q.ppRf615)
  {
    hide ValuesOf, At;
    ValuesSay(q, "fz44");
    ValuesSay(q, "fz223");
    ValuesSay(q, "ppRf615");
  }

  lemma StagesSaid(q: Query)
    ensures At(ValuesOf(q), "af") == WordsOf(q.af)
    ensures At(ValuesOf(q), "ca") == WordsOf(q.ca)
  {
    hide ValuesOf, At;
    ValuesSay(q, "af");
    ValuesSay(q, "ca");
  }

  lemma StagesAlsoSaid(q: Query)
    ensures At(ValuesOf(q), "pc") == WordsOf(q.pc)
    ensures At(ValuesOf(q), "pa") == WordsOf(q.pa)
  {
    hide ValuesOf, At;
    ValuesSay(q, "pc");
    ValuesSay(q, "pa");
  }

  lemma OrderSaid(q: Query)
    ensures At(ValuesOf(q), "sortBy") == WordsOf(q.sortBy)
    ensures At(ValuesOf(q), "sortDirection") == WordsOf(q.sortDirection)
    ensures At(ValuesOf(q), "recordsPerPage") == WordsOf(q.recordsPerPage)
  {
    hide ValuesOf, At;
    ValuesSay(q, "sortBy");
    ValuesSay(q, "sortDirection");
    ValuesSay(q, "recordsPerPage");
  }

  lemma OrderAlsoSaid(q: Query)
    ensures At(ValuesOf(q), "pageNumber") == WordsOf(q.pageNumber)
    ensures At(ValuesOf(q), "priceFromGeneral") == AmountOf(q.priceFromGeneral)
    ensures At(ValuesOf(q), "priceToGeneral") == AmountOf(q.priceToGeneral)
  {
    hide ValuesOf, At;
    ValuesSay(q, "pageNumber");
    ValuesSay(q, "priceFromGeneral");
    ValuesSay(q, "priceToGeneral");
  }

  lemma DatesSaid(q: Query)
    ensures At(ValuesOf(q), "publishDateFrom") == WordsOf(q.publishDateFrom)
    ensures At(ValuesOf(q), "publishDateTo") == WordsOf(q.publishDateTo)
    ensures At(ValuesOf(q), "applSubmissionCloseDateFrom") == WordsOf(q.applSubmissionCloseDateFrom)
  {
    hide ValuesOf, At;
    ValuesSay(q, "publishDateFrom");
    ValuesSay(q, "publishDateTo");
    ValuesSay(q, "applSubmissionCloseDateFrom");
  }

  lemma DatesAlsoSaid(q: Query)
    ensures At(ValuesOf(q), "applSubmissionCloseDateTo") == WordsOf(q.applSubmissionCloseDateTo)
    ensures At(ValuesOf(q), "customerTitle") == WordsOf(q.customerTitle)
  {
    hide ValuesOf, At;
    ValuesSay(q, "applSubmissionCloseDateTo");
    ValuesSay(q, "customerTitle");
  }

  lemma CodesSaid(q: Query)
    ensures At(ValuesOf(q), "okpd2IdsCodes") == WordsOf(q.okpd2IdsCodes)
    ensures At(ValuesOf(q), "okpd2IdsWithNested") == WordsOf(q.okpd2IdsWithNested)
  {
    hide ValuesOf, At;
    ValuesSay(q, "okpd2IdsCodes");
    ValuesSay(q, "okpd2IdsWithNested");
  }

  lemma CodesAlsoSaid(q: Query)
    ensures At(ValuesOf(q), "okpd2IdsSeveral") == WordsOf(q.okpd2IdsSeveral)
  {
    hide ValuesOf, At;
    ValuesSay(q, "okpd2IdsSeveral");
  }

  lemma PlacingSaid(q: Query)
    ensures At(ValuesOf(q), "placingWayList") == WordsOf(q.placingWayList)
    ensures At(ValuesOf(q), "procurementSMPAndSONO") == WordsOf(q.procurementSMPAndSONO)
  {
    hide ValuesOf, At;
    ValuesSay(q, "placingWayList");
    ValuesSay(q, "procurementSMPAndSONO");
  }

  lemma PlacingAlsoSaid(q: Query)
    ensures At(ValuesOf(q), "jointPurchase") == WordsOf(q.jointPurchase)
    ensures At(ValuesOf(q), "currencyCodeGeneral") == WordsOf(q.currencyCodeGeneral)
  {
    hide ValuesOf, At;
    ValuesSay(q, "jointPurchase");
    ValuesSay(q, "currencyCodeGeneral");
  }

  const ALL_PARAMETERS: set<string> := OLDER_PARAMETERS + NEW_PARAMETERS

  lemma NoOthers(q: Query)
    ensures OlderValues(q).Keys <= OLDER_PARAMETERS && ValuesOf(q).Keys <= ALL_PARAMETERS
  {
    forall name | name in OlderValues(q) ensures name in OLDER_PARAMETERS {
      OlderAt(q, name);
    }
    forall name | name in ValuesOf(q) ensures name in ALL_PARAMETERS {
      ValuesSay(q, name);
    }
    hide OlderValues, CodeValues, PlacingValues;
  }

  lemma NewOnesAside(vs: Values, a: Option<string>, b: Option<string>, c: Option<string>, d: Option<string>)
    ensures CodeValues(vs, a, b, c) - NEW_PARAMETERS == vs - NEW_PARAMETERS
    ensures PlacingValues(vs, a, b, c, d) - NEW_PARAMETERS == vs - NEW_PARAMETERS
  {
  }

  /** Dropping the seven parameters from the query drops these seven from its values, and nothing else. */
  lemma ValuesWithoutNewParams(q: Query)
    ensures ValuesOf(WithoutNewParams(q)) == ValuesOf(q) - NEW_PARAMETERS
  {
    hide OlderValues, CodeValues, PlacingValues, NEW_PARAMETERS, OlderSays;
    var older := OlderValues(q);
    SameOlderValues(q);
    NothingPlaced(older);
    NewOnesAside(older, q.okpd2IdsCodes, q.okpd2IdsWithNested, q.okpd2IdsSeveral, None);
    NewOnesAside(CodeValues(older, q.okpd2IdsCodes, q.okpd2IdsWithNested, q.okpd2IdsSeveral),
                 q.placingWayList, q.procurementSMPAndSONO, q.jointPurchase, q.currencyCodeGeneral);
    forall name | name in NEW_PARAMETERS ensures name !in older {
      NewNamesAreNew(q, name);
      OlderAt(q, name);
    }
    assert older - NEW_PARAMETERS == older;
  }

  lemma SameOlderValues(q: Query)
    ensures OlderValues(WithoutNewParams(q)) == OlderValues(q)
  {
    hide SearchValues, LawValues, StageValues, OrderValues, PriceValues, DateValues, CustomerValues;
  }

  lemma NothingPlaced(vs: Values)
    ensures CodeValues(vs, None, None, None) == vs && PlacingValues(vs, None, None, None, None) == vs
  {
  }

  /** The groups of the older form's query, one after another. */
  lemma OlderGroups(c: EISSearchConfig)
    ensures
      var search := SearchValues(
        NonEmpty(TrimSpace(c.searchString)), Flag(UsesMorphology(c.morphology, c.strictEqual), "on"),
        Flag(c.strictEqual, "true"));
      var lawful := LawValues(search, Flag(c.fz44, "on"), Flag(c.fz223, "on"), Flag(c.ppRf615, "on"));
      var staged := StageValues(
        lawful, Flag(c.stageAF, "on"), Flag(c.stageCA, "on"), Flag(c.stagePC, "on"), Flag(c.stagePA, "on"));
      var ordered := OrderValues(
        staged, Some(OrElse(c.sortBy, "UPDATE_DATE")), Some(FormatBool(c.sortDirection)),
        Some(OrElse(c.recordsPerPage, "_10")), Some("1"));
      var dated := DateValues(
        PriceValues(ordered, c.priceFrom, c.priceTo), NonEmpty(c.publishDateFrom), NonEmpty(c.publishDateTo),
        NonEmpty(c.applCloseFrom), NonEmpty(c.applCloseTo));
      ValuesOf(EISQuery(c)) == CustomerValues(dated, NonEmpty(TrimSpace(c.customerTitle)))
  {
    hide SearchValues, LawValues, StageValues, OrderValues, PriceValues, DateValues, CustomerValues, CodeValues,
      PlacingValues, NonEmpty, Flag, UsesMorphology, OrElse, FormatBool, TrimSpace;
    NothingPlaced(OlderValues(EISQuery(c)));
  }

  lemma OlderHasNoOthers(c: EISSearchConfig)
    ensures ValuesOf(EISQuery(c)).Keys <= OLDER_PARAMETERS
  {
    NoOthers(EISQuery(c));
    NothingPlaced(OlderValues(EISQuery(c)));
    hide OlderValues, CodeValues, PlacingValues, OLDER_PARAMETERS, TrimSpace;
  }

  lemma OlderSearch(c: EISSearchConfig)
    ensures At(ValuesOf(EISQuery(c)), "searchString")
         == (if TrimSpace(c.searchString) == "" then None else Some(Words(TrimSpace(c.searchString))))
    ensures At(ValuesOf(EISQuery(c)), "morphology")
         == (if c.morphology && !c.strictEqual then Some(Words("on")) else None)
    ensures At(ValuesOf(EISQuery(c)), "strictEqual") == (if c.strictEqual then Some(Words("true")) else None)
    ensures At(ValuesOf(EISQuery(c)), "fz44") == (if c.fz44 then Some(Words("on")) else None)
    ensures At(ValuesOf(EISQuery(c)), "fz223") == (if c.fz223 then Some(Words("on")) else None)
    ensures At(ValuesOf(EISQuery(c)), "ppRf615") == (if c.ppRf615 then Some(Words("on")) else None)
  {
    hide ValuesOf, At, TrimSpace;
    SearchSaid(EISQuery(c));
    SearchAlsoSaid(EISQuery(c));
  }

  lemma OlderStages(c: EISSearchConfig)
    ensures At(ValuesOf(EISQuery(c)), "af") == (if c.stageAF then Some(Words("on")) else None)
    ensures At(ValuesOf(EISQuery(c)), "ca") == (if c.stageCA then Some(Words("on")) else None)
    ensures At(ValuesOf(EISQuery(c)), "pc") == (if c.stagePC then Some(Words("on")) else None)
    ensures At(ValuesOf(EISQuery(c)), "pa") == (if c.stagePA then Some(Words("on")) else None)
  {
    hide ValuesOf, At, TrimSpace;
    StagesSaid(EISQuery(c));
    StagesAlsoSaid(EISQuery(c));
  }

  lemma OlderOrder(c: EISSearchConfig)
    ensures At(ValuesOf(EISQuery(c)), "sortBy") == Some(Words(if c.sortBy == "" then "UPDATE_DATE" else c.sortBy))
    ensures At(ValuesOf(EISQuery(c)), "sortDirection") == Some(Words(if c.sortDirection then "true" else "false"))
    ensures At(ValuesOf(EISQuery(c)), "recordsPerPage")
         == Some(Words(if c.recordsPerPage == "" then "_10" else c.recordsPerPage))
    ensures At(ValuesOf(EISQuery(c)), "pageNumber") == Some(Words("1"))
    ensures At(ValuesOf(EISQuery(c)), "priceFromGeneral")
         == (if c.priceFrom.Some? then Some(Amount(c.priceFrom.value)) else None)
    ensures At(ValuesOf(EISQuery(c)), "priceToGeneral")
         == (if c.priceTo.Some? then Some(Amount(c.priceTo.value)) else None)
  {
    hide ValuesOf, At, TrimSpace;
    OrderSaid(EISQuery(c));
    OrderAlsoSaid(EISQuery(c));
  }

  lemma OlderDates(c: EISSearchConfig)
    ensures At(ValuesOf(EISQuery(c)), "publishDateFrom")
         == (if c.publishDateFrom == "" then None else Some(Words(c.publishDateFrom)))
    ensures At(ValuesOf(EISQuery(c)), "publishDateTo")
         == (if c.publishDateTo == "" then None else Some(Words(c.publishDateTo)))
    ensures At(ValuesOf(EISQuery(c)), "applSubmissionCloseDateFrom")
         == (if c.applCloseFrom == "" then None else Some(Words(c.applCloseFrom)))
    ensures At(ValuesOf(EISQuery(c)), "applSubmissionCloseDateTo")
         == (if c.applCloseTo == "" then None else Some(Words(c.applCloseTo)))
    ensures At(ValuesOf(EISQuery(c)), "customerTitle")
         == (if TrimSpace(c.customerTitle) == "" then None else Some(Words(TrimSpace(c.customerTitle))))
  {
    hide ValuesOf, At, TrimSpace;
    DatesSaid(EISQuery(c));
    DatesAlsoSaid(EISQuery(c));
  }

  method OlderQueryValues(c: EISSearchConfig) returns (q: Values)
    ensures q == ValuesOf(EISQuery(c)) && NoneEmpty(q) && q.Keys <= OLDER_PARAMETERS
    ensures At(q, "searchString")
         == (if TrimSpace(c.searchString) == "" then None else Some(Words(TrimSpace(c.searchString))))
    ensures At(q, "morphology") == (if c.morphology && !c.strictEqual then Some(Words("on")) else None)
    ensures At(q, "strictEqual") == (if c.strictEqual then Some(Words("true")) else None)
    ensures At(q, "fz44") == (if c.fz44 then Some(Words("on")) else None)
    ensures At(q, "fz223") == (if c.fz223 then Some(Words("on")) else None)
    ensures At(q, "ppRf615") == (if c.ppRf615 then Some(Words("on")) else None)
    ensures At(q, "af") == (if c.stageAF then Some(Words("on")) else None)
    ensures At(q, "ca") == (if c.stageCA then Some(Words("on")) else None)
    ensures At(q, "pc") == (if c.stagePC then Some(Words("on")) else None)
    ensures At(q, "pa") == (if c.stagePA then Some(Words("on")) else None)
    ensures At(q, "sortBy") == Some(Words(if c.sortBy == "" then "UPDATE_DATE" else c.sortBy))
    ensures At(q, "sortDirection") == Some(Words(if c.sortDirection then "true" else "false"))
    ensures At(q, "recordsPerPage") == Some(Words(if c.recordsPerPage == "" then "_10" else c.recordsPerPage))
    ensures At(q, "pageNumber") == Some(Words("1"))
    ensures At(q, "priceFromGeneral") == (if c.priceFrom.Some? then Some(Amount(c.priceFrom.value)) else None)
    ensures At(q, "priceToGeneral") == (if c.priceTo.Some? then Some(Amount(c.priceTo.value)) else None)
    ensures At(q, "publishDateFrom") == (if c.publishDateFrom == "" then None else Some(Words(c.publishDateFrom)))
    ensures At(q, "publishDateTo") == (if c.publishDateTo == "" then None else Some(Words(c.publishDateTo)))
    ensures At(q, "applSubmissionCloseDateFrom")
         == (if c.applCloseFrom == "" then None else Some(Words(c.applCloseFrom)))
    ensures At(q, "applSubmissionCloseDateTo") == (if c.applCloseTo == "" then None else Some(Words(c.applCloseTo)))
    ensures At(q, "customerTitle")
         == (if TrimSpace(c.customerTitle) == "" then None else Some(Words(TrimSpace(c.customerTitle))))
  {
    hide *;
    OlderHasNoOthers(c);
    OlderSearch(c);
    OlderStages(c);
    OlderOrder(c);
    OlderDates(c);
    OlderGroups(c);
    var pageSize := PageSizeOrDefault(c.recordsPerPage);
    q := SetSearch(c.searchString, c.morphology, c.strictEqual);
    q := SetLaws(q, c.fz44, c.fz223, c.ppRf615);
    q := SetStages(q, c.stageAF, c.stageCA, c.stagePC, c.stagePA);
    q := SetOrder(q, c.sortBy, c.sortDirection, pageSize);
    q := SetPrices(q, c.priceFrom, c.priceTo);
    q := SetDates(q, c.publishDateFrom, c.publishDateTo, c.applCloseFrom, c.applCloseTo);
    q := SetCustomer(q, c.customerTitle);
  }

  method PageSizeOrDefault(recordsPerPage: string) returns (rpp: string)
    ensures rpp == OrElse(recordsPerPage, "_10") && rpp != ""
  {
    rpp := recordsPerPage;
    if rpp == "" {
      rpp := "_10";
    }
  }

  // ---- The newer form ------------------------------------------------------------------------------------

  method SetCodes(vs: Values, codes: string, nested: bool, several: bool) returns (q: Values)
    requires NoneEmpty(vs)
    ensures q == CodeValues(vs, NonEmpty(TrimSpace(codes)), Flag(nested, "on"), Flag(several, "on"))
    ensures NoneEmpty(q)
  {
    q := vs;
    var text := TrimSpace(codes);
    if text != "" {
      q := q["okpd2IdsCodes" := Words(text)];
    }
    if nested {
      q := q["okpd2IdsWithNested" := Words("on")];
    }
    if several {
      q := q["okpd2IdsSeveral" := Words("on")];
    }
  }

  method SetPlacing(vs: Values, way: string, smp: bool, joint: bool, currency: string) returns (q: Values)
    requires NoneEmpty(vs)
    ensures q == PlacingValues(vs, NonEmpty(TrimSpace(way)), Flag(smp, "on"), Flag(joint, "on"),
                               CurrencyParam(currency))
    ensures NoneEmpty(q)
  {
    q := vs;
    var p := TrimSpace(way);
    if p != "" {
      q := q["placingWayList" := Words(p)];
    }
    if smp {
      q := q["procurementSMPAndSONO" := Words("on")];
    }
    if joint {
      q := q["jointPurchase" := Words("on")];
    }
    var cur := TrimSpace(currency);
    if cur != "" && cur != "RUB" {
      q := q["currencyCodeGeneral" := Words(cur)];
    }
  }

  /** recordsPerPageParam */
  method RecordsPerPageParam(c: SearcherConfig) returns (text: string)
    ensures text == if c.recordsPerPage == 10 then "_10" else if c.recordsPerPage == 20 then "_20" else "_50"
    ensures text == PageSizeParam(c)
  {
    var n := c.recordsPerPage;
    if n != 10 && n != 20 && n != 50 {
      n := 50;
    }
    PrintedSizes();
    text := "_" + Itoa(n);
  }

  lemma PrintedSizes()
    ensures Itoa(10) == "10" && Itoa(20) == "20" && Itoa(50) == "50"
  {
    assert Itoa(1) == "1" && Itoa(2) == "2" && Itoa(5) == "5";
  }

  /** strPtrVal */
  method StrPtrVal(p: Option<string>) returns (text: string)
    ensures text == if p.Some? then TrimSpace(p.value) else ""
    ensures text == TextOf(p)
  {
    if p.None? {
      return "";
    }
    text := TrimSpace(p.value);
  }

  lemma NewerGroups(c: SearcherConfig)
    ensures
      var search := SearchValues(
        NonEmpty(TrimSpace(c.searchString)), Flag(UsesMorphology(c.morphology, c.strictEqual), "on"),
        Flag(c.strictEqual, "true"));
      var lawful := LawValues(search, Flag(c.fz44, "on"), Flag(c.fz223, "on"), Flag(c.ppRf615, "on"));
      var staged := StageValues(
        lawful, Flag(c.stageAF, "on"), Flag(c.stageCA, "on"), Flag(c.stagePC, "on"), Flag(c.stagePA, "on"));
      var ordered := OrderValues(
        staged, Some(OrElse(c.sortBy, "UPDATE_DATE")), Some(FormatBool(c.sortDirection)), Some(PageSizeParam(c)),
        Some("1"));
      var dated := DateValues(
        PriceValues(ordered, c.priceFrom, c.priceTo), NonEmpty(TextOf(c.publishDateFrom)),
        NonEmpty(TextOf(c.publishDateTo)), NonEmpty(TextOf(c.applCloseFrom)), NonEmpty(TextOf(c.applCloseTo)));
      OlderValues(SearcherQuery(c)) == CustomerValues(dated, NonEmpty(TrimSpace(c.customerTitle)))
  {
    hide SearchValues, LawValues, StageValues, OrderValues, PriceValues, DateValues, CustomerValues, CodeValues,
      PlacingValues, NonEmpty, Flag, UsesMorphology, OrElse, FormatBool, TrimSpace, TextOf, PageSizeParam,
      CurrencyParam;
  }

  lemma NewestGroups(c: SearcherConfig)
    ensures
      var coded := CodeValues(
        OlderValues(SearcherQuery(c)), NonEmpty(TrimSpace(c.okpd2Codes)), Flag(c.okpd2WithNested, "on"),
        Flag(c.okpd2Several, "on"));
      ValuesOf(SearcherQuery(c)) == PlacingValues(
        coded, NonEmpty(TrimSpace(c.placingWayList)), Flag(c.smpSono, "on"), Flag(c.jointPurchase, "on"),
        CurrencyParam(c.currencyCode))
  {
    hide OlderValues, CodeValues, PlacingValues, NonEmpty, Flag, UsesMorphology, OrElse, FormatBool, TrimSpace, TextOf,
      PageSizeParam, CurrencyParam;
  }

  /** The parameters that the newer form shares with the older one. */
  method SetShared(c: SearcherConfig) returns (q: Values)
    ensures q == OlderValues(SearcherQuery(c)) && NoneEmpty(q)
  {
    hide *;
    NewerGroups(c);
    q := SetSearch(c.searchString, c.morphology, c.strictEqual);
    q := SetLaws(q, c.fz44, c.fz223, c.ppRf615);
    q := SetStages(q, c.stageAF, c.stageCA, c.stagePC, c.stagePA);
    var pageSize := RecordsPerPageParam(c);
    q := SetOrder(q, c.sortBy, c.sortDirection, pageSize);
    q := SetPrices(q, c.priceFrom, c.priceTo);
    var publishFrom := StrPtrVal(c.publishDateFrom);
    var publishTo := StrPtrVal(c.publishDateTo);
    var closeFrom := StrPtrVal(c.applCloseFrom);
    var closeTo := StrPtrVal(c.applCloseTo);
    q := SetDates(q, publishFrom, publishTo, closeFrom, closeTo);
    q := SetCustomer(q, c.customerTitle);
  }

  lemma NewerSearch(c: SearcherConfig)
    ensures At(ValuesOf(SearcherQuery(c)), "searchString")
         == (if TrimSpace(c.searchString) == "" then None else Some(Words(TrimSpace(c.searchString))))
    ensures At(ValuesOf(SearcherQuery(c)), "morphology")
         == (if c.morphology && !c.strictEqual then Some(Words("on")) else None)
    ensures At(ValuesOf(SearcherQuery(c)), "strictEqual") == (if c.strictEqual then Some(Words("true")) else None)
    ensures At(ValuesOf(SearcherQuery(c)), "fz44") == (if c.fz44 then Some(Words("on")) else None)
    ensures At(ValuesOf(SearcherQuery(c)), "fz223") == (if c.fz223 then Some(Words("on")) else None)
    ensures At(ValuesOf(SearcherQuery(c)), "ppRf615") == (if c.ppRf615 then Some(Words("on")) else None)
  {
    hide ValuesOf, At, TrimSpace;
    SearchSaid(SearcherQuery(c));
    SearchAlsoSaid(SearcherQuery(c));
  }

  lemma NewerStages(c: SearcherConfig)
    ensures At(ValuesOf(SearcherQuery(c)), "af") == (if c.stageAF then Some(Words("on")) else None)
    ensures At(ValuesOf(SearcherQuery(c)), "ca") == (if c.stageCA then Some(Words("on")) else None)
    ensures At(ValuesOf(SearcherQuery(c)), "pc") == (if c.stagePC then Some(Words("on")) else None)
    ensures At(ValuesOf(SearcherQuery(c)), "pa") == (if c.stagePA then Some(Words("on")) else None)
  {
    hide ValuesOf, At, TrimSpace;
    StagesSaid(SearcherQuery(c));
    StagesAlsoSaid(SearcherQuery(c));
  }

  lemma NewerOrder(c: SearcherConfig)
    ensures At(ValuesOf(SearcherQuery(c)), "sortBy") == Some(Words(if c.sortBy == "" then "UPDATE_DATE" else c.sortBy))
    ensures At(ValuesOf(SearcherQuery(c)), "sortDirection") == Some(Words(if c.sortDirection then "true" else "false"))
    ensures At(ValuesOf(SearcherQuery(c)), "recordsPerPage")
         == Some(Words(if c.recordsPerPage == 10 then "_10" else if c.recordsPerPage == 20 then "_20" else "_50"))
    ensures At(ValuesOf(SearcherQuery(c)), "pageNumber") == Some(Words("1"))
    ensures At(ValuesOf(SearcherQuery(c)), "priceFromGeneral")
         == (if c.priceFrom.Some? then Some(Amount(c.priceFrom.value)) else None)
    ensures At(ValuesOf(SearcherQuery(c)), "priceToGeneral")
         == (if c.priceTo.Some? then Some(Amount(c.priceTo.value)) else None)
  {
    hide ValuesOf, At, TrimSpace;
    OrderSaid(SearcherQuery(c));
    OrderAlsoSaid(SearcherQuery(c));
  }

  lemma NewerDates(c: SearcherConfig)
    ensures At(ValuesOf(SearcherQuery(c)), "publishDateFrom")
         == (if c.publishDateFrom.Some? && TrimSpace(c.publishDateFrom.value) != ""
             then Some(Words(TrimSpace(c.publishDateFrom.value))) else None)
    ensures At(ValuesOf(SearcherQuery(c)), "publishDateTo")
         == (if c.publishDateTo.Some? && TrimSpace(c.publishDateTo.value) != ""
             then Some(Words(TrimSpace(c.publishDateTo.value))) else None)
    ensures At(ValuesOf(SearcherQuery(c)), "applSubmissionCloseDateFrom")
         == (if c.applCloseFrom.Some? && TrimSpace(c.applCloseFrom.value) != ""
             then Some(Words(TrimSpace(c.applCloseFrom.value))) else None)
    ensures At(ValuesOf(SearcherQuery(c)), "applSubmissionCloseDateTo")
         == (if c.applCloseTo.Some? && TrimSpace(c.applCloseTo.value) != ""
             then Some(Words(TrimSpace(c.applCloseTo.value))) else None)
    ensures At(ValuesOf(SearcherQuery(c)), "customerTitle")
         == (if TrimSpace(c.customerTitle) == "" then None else Some(Words(TrimSpace(c.customerTitle))))
  {
    hide ValuesOf, At, TrimSpace;
    DatesSaid(SearcherQuery(c));
    DatesAlsoSaid(SearcherQuery(c));
  }

  lemma NewerCodes(c: SearcherConfig)
    ensures At(ValuesOf(SearcherQuery(c)), "okpd2IdsCodes")
         == (if TrimSpace(c.okpd2Codes) == "" then None else Some(Words(TrimSpace(c.okpd2Codes))))
    ensures At(ValuesOf(SearcherQuery(c)), "okpd2IdsWithNested")
         == (if c.okpd2WithNested then Some(Words("on")) else None)
    ensures At(ValuesOf(SearcherQuery(c)), "okpd2IdsSeveral") == (if c.okpd2Several then Some(Words("on")) else None)
  {
    hide ValuesOf, At, TrimSpace;
    CodesSaid(SearcherQuery(c));
    CodesAlsoSaid(SearcherQuery(c));
  }

  lemma NewerPlacing(c: SearcherConfig)
    ensures At(ValuesOf(SearcherQuery(c)), "placingWayList")
         == (if TrimSpace(c.placingWayList) == "" then None else Some(Words(TrimSpace(c.placingWayList))))
    ensures At(ValuesOf(SearcherQuery(c)), "procurementSMPAndSONO") == (if c.smpSono then Some(Words("on")) else None)
    ensures At(ValuesOf(SearcherQuery(c)), "jointPurchase") == (if c.jointPurchase then Some(Words("on")) else None)
    ensures At(ValuesOf(SearcherQuery(c)), "currencyCodeGeneral")
         == (if TrimSpace(c.currencyCode) in {"", "RUB"} then None else Some(Words(TrimSpace(c.currencyCode))))
  {
    hide ValuesOf, At, TrimSpace;
    PlacingSaid(SearcherQuery(c));
    PlacingAlsoSaid(SearcherQuery(c));
  }

  method QueryValues(c: SearcherConfig) returns (q: Values)
    ensures q == ValuesOf(SearcherQuery(c)) && NoneEmpty(q) && q.Keys <= ALL_PARAMETERS
    ensures At(q, "searchString")
         == (if TrimSpace(c.searchString) == "" then None else Some(Words(TrimSpace(c.searchString))))
    ensures At(q, "morphology") == (if c.morphology && !c.strictEqual then Some(Words("on")) else None)
    ensures At(q, "strictEqual") == (if c.strictEqual then Some(Words("true")) else None)
    ensures At(q, "fz44") == (if c.fz44 then Some(Words("on")) else None)
    ensures At(q, "fz223") == (if c.fz223 then Some(Words("on")) else None)
    ensures At(q, "ppRf615") == (if c.ppRf615 then Some(Words("on")) else None)
    ensures At(q, "af") == (if c.stageAF then Some(Words("on")) else None)
    ensures At(q, "ca") == (if c.stageCA then Some(Words("on")) else None)
    ensures At(q, "pc") == (if c.stagePC then Some(Words("on")) else None)
    ensures At(q, "pa") == (if c.stagePA then Some(Words("on")) else None)
    ensures At(q, "sortBy") == Some(Words(if c.sortBy == "" then "UPDATE_DATE" else c.sortBy))
    ensures At(q, "sortDirection") == Some(Words(if c.sortDirection then "true" else "false"))
    ensures At(q, "recordsPerPage")
         == Some(Words(if c.recordsPerPage == 10 then "_10" else if c.recordsPerPage == 20 then "_20" else "_50"))
    ensures At(q, "pageNumber") == Some(Words("1"))
    ensures At(q, "priceFromGeneral") == (if c.priceFrom.Some? then Some(Amount(c.priceFrom.value)) else None)
    ensures At(q, "priceToGeneral") == (if c.priceTo.Some? then Some(Amount(c.priceTo.value)) else None)
    ensures At(q, "publishDateFrom")
         == (if c.publishDateFrom.Some? && TrimSpace(c.publishDateFrom.value) != ""
             then Some(Words(TrimSpace(c.publishDateFrom.value))) else None)
    ensures At(q, "publishDateTo")
         == (if c.publishDateTo.Some? && TrimSpace(c.publishDateTo.value) != ""
             then Some(Words(TrimSpace(c.publishDateTo.value))) else None)
    ensures At(q, "applSubmissionCloseDateFrom")
         == (if c.applCloseFrom.Some? && TrimSpace(c.applCloseFrom.value) != ""
             then Some(Words(TrimSpace(c.applCloseFrom.value))) else None)
    ensures At(q, "applSubmissionCloseDateTo")
         == (if c.applCloseTo.Some? && TrimSpace(c.applCloseTo.value) != ""
             then Some(Words(TrimSpace(c.applCloseTo.value))) else None)
    ensures At(q, "customerTitle")
         == (if TrimSpace(c.customerTitle) == "" then None else Some(Words(TrimSpace(c.customerTitle))))
    ensures At(q, "okpd2IdsCodes")
         == (if TrimSpace(c.okpd2Codes) == "" then None else Some(Words(TrimSpace(c.okpd2Codes))))
    ensures At(q, "okpd2IdsWithNested") == (if c.okpd2WithNested then Some(Words("on")) else None)
    ensures At(q, "okpd2IdsSeveral") == (if c.okpd2Several then Some(Words("on")) else None)
    ensures At(q, "placingWayList")
         == (if TrimSpace(c.placingWayList) == "" then None else Some(Words(TrimSpace(c.placingWayList))))
    ensures At(q, "procurementSMPAndSONO") == (if c.smpSono then Some(Words("on")) else None)
    ensures At(q, "jointPurchase") == (if c.jointPurchase then Some(Words("on")) else None)
    ensures At(q, "currencyCodeGeneral")
         == (if TrimSpace(c.currencyCode) in {"", "RUB"} then None else Some(Words(TrimSpace(c.currencyCode))))
  {
    hide *;
    NoOthers(SearcherQuery(c));
    NewerSearch(c);
    NewerStages(c);
    NewerOrder(c);
    NewerDates(c);
    NewerCodes(c);
    NewerPlacing(c);
    NewestGroups(c);
    q := SetShared(c);
    q := SetCodes(q, c.okpd2Codes, c.okpd2WithNested, c.okpd2Several);
    q := SetPlacing(q, c.placingWayList, c.smpSono, c.jointPurchase, c.currencyCode);
  }
}
