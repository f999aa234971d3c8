/** The query parameters of the extended search, and the older configuration form that produces them. */
module EisConfig {
  import opened Wrappers
  import opened Text
  import opened Json

  /** What a query asks for: every parameter is absent or holds one text. Prices stay numbers here: their decimal
      print is taken to be faithful. */
  datatype Query = Query(
    searchString: Option<string>, morphology: Option<string>, strictEqual: Option<string>,
    fz44: Option<string>, fz223: Option<string>, ppRf615: Option<string>,
    af: Option<string>, ca: Option<string>, pc: Option<string>, pa: Option<string>,
    sortBy: Option<string>, sortDirection: Option<string>,
    recordsPerPage: Option<string>, pageNumber: Option<string>,
    priceFromGeneral: Option<real>, priceToGeneral: Option<real>,
    publishDateFrom: Option<string>, publishDateTo: Option<string>,
    applSubmissionCloseDateFrom: Option<string>, applSubmissionCloseDateTo: Option<string>,
    customerTitle: Option<string>,
    okpd2IdsCodes: Option<string>, okpd2IdsWithNested: Option<string>, okpd2IdsSeveral: Option<string>,
    placingWayList: Option<string>, procurementSMPAndSONO: Option<string>,
    jointPurchase: Option<string>, currencyCodeGeneral: Option<string>)

  datatype EISSearchConfig = EISSearchConfig(
    searchString: string, morphology: bool, strictEqual: bool,
    fz44: bool, fz223: bool, ppRf615: bool,
    stageAF: bool, stageCA: bool, stagePC: bool, stagePA: bool,
    sortBy: string, sortDirection: bool, recordsPerPage: string,
    priceFrom: Option<real>, priceTo: Option<real>,
    publishDateFrom: string, publishDateTo: string, applCloseFrom: string, applCloseTo: string,
    regions: seq<string>, okpd2: seq<string>, customerTitle: string)

  function DefaultEISSearchConfig(): EISSearchConfig {
    EISSearchConfig(
      "", true, false, true, true, false, true, true, false, false,
      "UPDATE_DATE", false, "_10", None, None, "", "", "", "", [], [], "")
  }

  // ---- Its query ------------------------------------------------------------------------------------

  function Flag(wanted: bool, text: string): Option<string> {
    if wanted then Some(text) else None
  }

  /** Strict equality switches morphology off. */
  predicate UsesMorphology(morphology: bool, strictEqual: bool) {
    morphology && !strictEqual
  }

  function NonEmpty(s: string): Option<string> {
    if s == "" then None else Some(s)
  }

  function OrElse(s: string, default: string): string {
    if s == "" then default else s
  }

  function FormatBool(b: bool): string {
    if b then "true" else "false"
  }

  /** What the older form asks for: a parameter is present exactly when its filter says something. */
  function EISQuery(c: EISSearchConfig): Query {
    Query(
      searchString := NonEmpty(TrimSpace(c.searchString)),
      morphology := Flag(UsesMorphology(c.morphology, c.strictEqual), "on"),
      strictEqual := Flag(c.strictEqual, "true"),
      fz44 := Flag(c.fz44, "on"), fz223 := Flag(c.fz223, "on"), ppRf615 := Flag(c.ppRf615, "on"),
      af := Flag(c.stageAF, "on"), ca := Flag(c.stageCA, "on"),
      pc := Flag(c.stagePC, "on"), pa := Flag(c.stagePA, "on"),
      sortBy := Some(OrElse(c.sortBy, "UPDATE_DATE")),
      sortDirection := Some(FormatBool(c.sortDirection)),
      recordsPerPage := Some(OrElse(c.recordsPerPage, "_10")),
      pageNumber := Some("1"),
      priceFromGeneral := c.priceFrom, priceToGeneral := c.priceTo,
      publishDateFrom := NonEmpty(c.publishDateFrom), publishDateTo := NonEmpty(c.publishDateTo),
      applSubmissionCloseDateFrom := NonEmpty(c.applCloseFrom),
      applSubmissionCloseDateTo := NonEmpty(c.applCloseTo),
      customerTitle := NonEmpty(TrimSpace(c.customerTitle)),
      okpd2IdsCodes := None, okpd2IdsWithNested := None, okpd2IdsSeveral := None,
      placingWayList := None, procurementSMPAndSONO := None, jointPurchase := None,
      currencyCodeGeneral := None)
  }

  /** The query without the parameters that only the newer form can ask for. */
  function WithoutNewParams(q: Query): Query {
    q.(okpd2IdsCodes := None, okpd2IdsWithNested := None, okpd2IdsSeveral := None, placingWayList := None,
       procurementSMPAndSONO := None, jointPurchase := None, currencyCodeGeneral := None)
  }

  // ---- The JSON form ----------------------------------------------------------------------------------

  /** omitempty */
  function TextMember(s: string): Json {
    if s == "" then Absent else String(s)
  }

  function PriceMember(p: Option<real>): Json {
    match p case None => Absent case Some(v) => Number(v)
  }

  function TextsMember(items: seq<string>): Json {
    if items == [] then Absent
    else Array(seq(|items|, i requires 0 <= i < |items| => String(items[i])))
  }

  /** json.Marshal of the older form. */
  function EncodeEIS(c: EISSearchConfig): Json {
    Object(Members(
      search_string := String(c.searchString), morphology := Bool(c.morphology),
      strict_equal := Bool(c.strictEqual), fz44 := Bool(c.fz44), fz223 := Bool(c.fz223),
      pp_rf615 := Absent, pp_rf_615 := Bool(c.ppRf615),
      stage_af := Bool(c.stageAF), stage_ca := Bool(c.stageCA),
      stage_pc := Bool(c.stagePC), stage_pa := Bool(c.stagePA),
      publish_date_from := TextMember(c.publishDateFrom), publish_date_to := TextMember(c.publishDateTo),
      appl_submission_close_date_from := Absent, appl_submission_close_date_to := Absent,
      appl_close_from := TextMember(c.applCloseFrom), appl_close_to := TextMember(c.applCloseTo),
      price_from := PriceMember(c.priceFrom), price_to := PriceMember(c.priceTo), currency_code := Absent,
      okpd2_codes := Absent, okpd2_with_nested := Absent, okpd2_several := Absent,
      okpd2 := TextsMember(c.okpd2), regions := TextsMember(c.regions),
      customer_title := TextMember(c.customerTitle), placing_way_list := Absent,
      smp_sono := Absent, joint_purchase := Absent,
      sort_by := String(c.sortBy), sort_direction := Bool(c.sortDirection),
      records_per_page := String(c.recordsPerPage), others := map[]))
  }
}
