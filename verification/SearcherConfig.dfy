/** The configuration form of the user interface: its JSON decoder, which also reads the older form, and its
    query. */
module SearcherConfigs {
  import opened Wrappers
  import opened Text
  import opened Json
  import opened EisConfig

  datatype SearcherConfig = SearcherConfig(
    searchString: string, morphology: bool, strictEqual: bool,
    fz44: bool, fz223: bool, ppRf615: bool,
    stageAF: bool, stageCA: bool, stagePC: bool, stagePA: bool,
    publishDateFrom: Option<string>, publishDateTo: Option<string>,
    applCloseFrom: Option<string>, applCloseTo: Option<string>,
    priceFrom: Option<real>, priceTo: Option<real>, currencyCode: string,
    okpd2Codes: string, okpd2WithNested: bool, okpd2Several: bool,
    customerTitle: string, placingWayList: string, smpSono: bool, jointPurchase: bool,
    sortBy: string, sortDirection: bool, recordsPerPage: int)

  function DefaultSearcherConfig(): SearcherConfig {
    SearcherConfig(
      "", true, false, true, true, false, true, true, false, false, None, None, None, None,
      None, None, "RUB", "", true, false, "", "", false, false, "UPDATE_DATE", false, 50)
  }

  // ---- The JSON form -----------------------------------------------------------------------

  /** json.Marshal */
  function Encode(c: SearcherConfig): Json {
    Object(Members(
      search_string := String(c.searchString), morphology := Bool(c.morphology),
      strict_equal := Bool(c.strictEqual), fz44 := Bool(c.fz44), fz223 := Bool(c.fz223),
      pp_rf615 := Bool(c.ppRf615), pp_rf_615 := Absent,
      stage_af := Bool(c.stageAF), stage_ca := Bool(c.stageCA),
      stage_pc := Bool(c.stagePC), stage_pa := Bool(c.stagePA),
      publish_date_from := FromOption(c.publishDateFrom), publish_date_to := FromOption(c.publishDateTo),
      appl_submission_close_date_from := FromOption(c.applCloseFrom),
      appl_submission_close_date_to := FromOption(c.applCloseTo),
      appl_close_from := Absent, appl_close_to := Absent,
      price_from := FromNumber(c.priceFrom), price_to := FromNumber(c.priceTo),
      currency_code := String(c.currencyCode), okpd2_codes := String(c.okpd2Codes),
      okpd2_with_nested := Bool(c.okpd2WithNested), okpd2_several := Bool(c.okpd2Several),
      okpd2 := Absent, regions := Absent,
      customer_title := String(c.customerTitle), placing_way_list := String(c.placingWayList),
      smp_sono := Bool(c.smpSono), joint_purchase := Bool(c.jointPurchase),
      sort_by := String(c.sortBy), sort_direction := Bool(c.sortDirection),
      records_per_page := Number(c.recordsPerPage as real), others := map[]))
  }

  /** parseRecordsPerPage; None stands for a text that is not JSON. */
  function ParseRecordsPerPage(raw: Option<Json>): int {
    match raw
    case Some(Number(_)) =>
      var n := IntValue(raw.value);
      if n.Some? && n.value > 0 then n.value else 50
    case Some(String(s)) => PageSizeText(s)
    case _ => 50
  }

  function PageSizeText(s: string): int {
    match Atoi(TrimPrefix(TrimSpace(s), "_"))
    case Some(v) => v
    case None => 50
  }

  function NonZero(n: int): int {
    if n == 0 then 50 else n
  }

  /** The members that must have their field's type for the decoder to accept an object. */
  predicate WellTyped(m: Members) {
    && IsString(m.search_string) && IsBool(m.morphology) && IsBool(m.strict_equal)
    && IsBool(m.fz44) && IsBool(m.fz223) && IsBool(m.pp_rf615) && IsBool(m.pp_rf_615)
    && IsBool(m.stage_af) && IsBool(m.stage_ca) && IsBool(m.stage_pc) && IsBool(m.stage_pa)
    && IsString(m.publish_date_from) && IsString(m.publish_date_to)
    && IsString(m.appl_submission_close_date_from) && IsString(m.appl_submission_close_date_to)
    && IsString(m.appl_close_from) && IsString(m.appl_close_to)
    && IsNumber(m.price_from) && IsNumber(m.price_to) && IsString(m.currency_code)
    && IsString(m.okpd2_codes) && IsStrings(m.okpd2)
    && IsBool(m.okpd2_with_nested) && IsBool(m.okpd2_several)
    && IsString(m.customer_title) && IsString(m.placing_way_list)
    && IsBool(m.smp_sono) && IsBool(m.joint_purchase)
    && IsString(m.sort_by) && IsBool(m.sort_direction)
  }

  // The older names count only where the new ones say nothing.

  function FlagOr(flag: bool, legacy: Option<bool>): bool {
    flag || legacy == Some(true)
  }

  function CodesOr(codes: string, legacy: seq<string>): string {
    if codes == "" && legacy != [] then Join(legacy, ",") else codes
  }

  function PageSizeOr(n: int, raw: Option<Json>): int {
    NonZero(if raw.Some? then ParseRecordsPerPage(raw) else n)
  }

  function Present(j: Json): Option<Json> {
    if j.Absent? then None else Some(j)
  }

  /** A date of the new form unless it is missing or empty, then that of the older form. */
  function DateOr(date: Option<string>, legacy: string): Option<string> {
    if (date == None || date == Some("")) && legacy != "" then Some(legacy) else date
  }

  /** What the members of a well-typed object mean. */
  function Decoded(m: Members): SearcherConfig {
    SearcherConfig(
      StringOr(m.search_string, ""), BoolOr(m.morphology, true),
      BoolOr(m.strict_equal, false),
      BoolOr(m.fz44, true), BoolOr(m.fz223, true),
      FlagOr(BoolOr(m.pp_rf615, false), OptionalBool(m.pp_rf_615)),
      BoolOr(m.stage_af, true), BoolOr(m.stage_ca, true),
      BoolOr(m.stage_pc, false), BoolOr(m.stage_pa, false),
      OptionalString(m.publish_date_from), OptionalString(m.publish_date_to),
      DateOr(OptionalString(m.appl_submission_close_date_from), StringOr(m.appl_close_from, "")),
      DateOr(OptionalString(m.appl_submission_close_date_to), StringOr(m.appl_close_to, "")),
      OptionalNumber(m.price_from), OptionalNumber(m.price_to),
      StringOr(m.currency_code, "RUB"),
      CodesOr(StringOr(m.okpd2_codes, ""), Strings(m.okpd2)),
      BoolOr(m.okpd2_with_nested, true), BoolOr(m.okpd2_several, false),
      StringOr(m.customer_title, ""), StringOr(m.placing_way_list, ""),
      BoolOr(m.smp_sono, false), BoolOr(m.joint_purchase, false),
      StringOr(m.sort_by, "UPDATE_DATE"), BoolOr(m.sort_direction, false),
      PageSizeOr(50, Present(m.records_per_page)))
  }

  /** What UnmarshalJSON makes of a value; None where it reports an error. */
  function Decode(j: Json): Option<SearcherConfig> {
    match j
    case Null => Some(DefaultSearcherConfig())
    case Object(m) => if WellTyped(m) then Some(Decoded(m)) else None
    case _ => None
  }

  /** What the embedded decoder leaves behind before the older names are looked at: its own members, with the
      page size untouched, and the older ones. */
  datatype Aux = Aux(alias: SearcherConfig, legacyPP: Option<bool>, legacyRPP: Option<Json>,
                     legacyApplFrom: string, legacyApplTo: string, legacyOKPD2: seq<string>)

  function DecodeAux(j: Json): Option<Aux> {
    if j.Null? then Some(Aux(DefaultSearcherConfig(), None, None, "", "", []))
    else if !j.Object? || !WellTyped(j.members) then None
    else
      var m := j.members;
      var own := m.(pp_rf_615 := Absent, records_per_page := Absent,
                    appl_close_from := Absent, appl_close_to := Absent, okpd2 := Absent);
      Some(Aux(Decoded(own), OptionalBool(m.pp_rf_615),
               Present(m.records_per_page),
               StringOr(m.appl_close_from, ""), StringOr(m.appl_close_to, ""),
               Strings(m.okpd2)))
  }

  lemma OlderNamesAbsent()
    ensures OptionalBool(Absent) == None
    ensures forall flag :: FlagOr(flag, None) == flag
    ensures forall codes :: CodesOr(codes, []) == codes
    ensures PageSizeOr(50, None) == 50
    ensures forall date :: DateOr(date, "") == date
  {
  }

  // ---- Member by member ----------------------------------------------------------------------------------

  /** Every member that an object has, if not null, is of its field's type; others may be of any. */
  ghost predicate MembersFit(m: Members) {
    && (forall j :: j in {m.search_string, m.publish_date_from, m.publish_date_to, m.appl_submission_close_date_from,
                          m.appl_submission_close_date_to, m.appl_close_from, m.appl_close_to}
          ==> j.Absent? || j.Null? || j.String?)
    && (forall j :: j in {m.currency_code, m.okpd2_codes, m.customer_title, m.placing_way_list, m.sort_by}
          ==> j.Absent? || j.Null? || j.String?)
    && (forall j :: j in {m.morphology, m.strict_equal, m.fz44, m.fz223, m.pp_rf615, m.pp_rf_615, m.stage_af}
          ==> j.Absent? || j.Null? || j.Bool?)
    && (forall j :: j in {m.stage_ca, m.stage_pc, m.stage_pa, m.okpd2_with_nested, m.okpd2_several, m.smp_sono,
                          m.joint_purchase, m.sort_direction}
          ==> j.Absent? || j.Null? || j.Bool?)
    && (forall j :: j in {m.price_from, m.price_to} ==> j.Absent? || j.Null? || j.Number?)
    && (m.okpd2.Absent? || m.okpd2.Null?
        || (m.okpd2.Array? && forall i :: 0 <= i < |m.okpd2.items| ==>
              m.okpd2.items[i].Absent? || m.okpd2.items[i].Null? || m.okpd2.items[i].String?))
  }

  /** Each flag is what its member says; without one, it is what the interface starts with. */
  ghost predicate FiltersRead(m: Members, c: SearcherConfig) {
    && c.morphology == (if m.morphology.Bool? then m.morphology.b else true)
    && c.strictEqual == (if m.strict_equal.Bool? then m.strict_equal.b else false)
    && c.fz44 == (if m.fz44.Bool? then m.fz44.b else true)
    && c.fz223 == (if m.fz223.Bool? then m.fz223.b else true)
    && c.stageAF == (if m.stage_af.Bool? then m.stage_af.b else true)
    && c.stageCA == (if m.stage_ca.Bool? then m.stage_ca.b else true)
    && c.stagePC == (if m.stage_pc.Bool? then m.stage_pc.b else false)
    && c.stagePA == (if m.stage_pa.Bool? then m.stage_pa.b else false)
    && c.okpd2WithNested == (if m.okpd2_with_nested.Bool? then m.okpd2_with_nested.b else true)
    && c.okpd2Several == (if m.okpd2_several.Bool? then m.okpd2_several.b else false)
    && c.smpSono == (if m.smp_sono.Bool? then m.smp_sono.b else false)
    && c.jointPurchase == (if m.joint_purchase.Bool? then m.joint_purchase.b else false)
  }

  ghost predicate OrderRead(m: Members, c: SearcherConfig) {
    && c.sortBy == (if m.sort_by.String? then m.sort_by.s else "UPDATE_DATE")
    && c.sortDirection == (if m.sort_direction.Bool? then m.sort_direction.b else false)
    && c.priceFrom == (if m.price_from.Number? then Some(m.price_from.n) else None)
    && c.priceTo == (if m.price_to.Number? then Some(m.price_to.n) else None)
    && c.recordsPerPage == PageSizeRead(m.records_per_page)
  }

  ghost predicate TextsRead(m: Members, c: SearcherConfig) {
    && c.searchString == (if m.search_string.String? then m.search_string.s else "")
    && c.currencyCode == (if m.currency_code.String? then m.currency_code.s else "RUB")
    && c.customerTitle == (if m.customer_title.String? then m.customer_title.s else "")
    && c.placingWayList == (if m.placing_way_list.String? then m.placing_way_list.s else "")
    && c.publishDateFrom == (if m.publish_date_from.String? then Some(m.publish_date_from.s) else None)
    && c.publishDateTo == (if m.publish_date_to.String? then Some(m.publish_date_to.s) else None)
  }

  /** The fields that have an older name too: the newer one wins where it says something. */
  ghost predicate OlderRead(m: Members, c: SearcherConfig) {
    && c.ppRf615 == (m.pp_rf615 == Bool(true) || m.pp_rf_615 == Bool(true))
    && DateRead(m.appl_submission_close_date_from, m.appl_close_from, c.applCloseFrom)
    && DateRead(m.appl_submission_close_date_to, m.appl_close_to, c.applCloseTo)
    && (m.okpd2_codes.String? && m.okpd2_codes.s != "" ==> c.okpd2Codes == m.okpd2_codes.s)
    && (!m.okpd2_codes.String? || m.okpd2_codes.s == "" ==>
          if m.okpd2.Array? then
            exists codes ::
              && |codes| == |m.okpd2.items| && c.okpd2Codes == Join(codes, ",")
              && forall i :: 0 <= i < |codes| ==>
                   codes[i] == if m.okpd2.items[i].String? then m.okpd2.items[i].s else ""
          else c.okpd2Codes == "")
  }

  ghost predicate DateRead(newer: Json, older: Json, date: Option<string>) {
    if newer.String? && newer.s != "" then date == Some(newer.s)
    else if older.String? && older.s != "" then date == Some(older.s)
    else date == if newer.String? then Some("") else None
  }

  /** A page size is a positive 64-bit number, or a text that holds one other than zero, with or without the
      underscore; everything else means 50. */
  ghost function PageSizeRead(j: Json): int {
    match j
    case Number(n) => if n == n.Floor as real && 0 < n.Floor <= 0x7FFF_FFFF_FFFF_FFFF then n.Floor else 50
    case String(s) =>
      var text := TrimSpace(s);
      var digits := if text != "" && text[0] == '_' then text[1..] else text;
      if Atoi(digits).Some? && Atoi(digits).value != 0 then Atoi(digits).value else 50
    case _ => 50
  }

  lemma PageSizeMeans(j: Json)
    ensures PageSizeOr(50, Present(j)) == PageSizeRead(j)
  {
    if j.String? {
      var text := TrimSpace(j.s);
      if text != "" && text[0] == '_' {
        assert text[..1] == "_";
      } else if text != "" {
        assert text[..1][0] == text[0];
      }
    }
    hide TrimSpace, Atoi;
  }

  lemma StringsMean(j: Json)
    requires j.Array?
    ensures |Strings(j)| == |j.items|
    ensures forall i :: 0 <= i < |j.items| ==> Strings(j)[i] == if j.items[i].String? then j.items[i].s else ""
  {
  }

  lemma OlderMeans(m: Members)
    ensures OlderRead(m, Decoded(m))
  {
    if m.okpd2.Array? {
      StringsMean(m.okpd2);
    }
    assert Join([], ",") == "";
    hide Join, Strings, PageSizeOr;
  }

  lemma WellTypedMeans(m: Members)
    ensures WellTyped(m) <==> MembersFit(m)
  {
  }

  /** What the decoder makes of a value, in terms of the members themselves. */
  lemma DecodedMeans(b: Json)
    ensures Decode(b).Some? <==> b.Null? || (b.Object? && MembersFit(b.members))
    ensures Decode(b).Some? && b.Object? ==>
      var m, c := b.members, Decode(b).value;
      FiltersRead(m, c) && OrderRead(m, c) && TextsRead(m, c) && OlderRead(m, c)
    ensures b.Null? ==> Decode(b) == Some(DefaultSearcherConfig())
  {
    if b.Object? {
      WellTypedMeans(b.members);
      PageSizeMeans(b.members.records_per_page);
      OlderMeans(b.members);
    }
    hide WellTyped, MembersFit, OlderRead, PageSizeOr, PageSizeRead, FlagOr, DateOr, CodesOr, Strings;
  }

  predicate Silent(j: Json) {
    j.Absent? || j.Null?
  }

  /** An object that has none of the members, or only nulls. */
  ghost predicate AllSilent(m: Members) {
    && Silent(m.search_string) && Silent(m.morphology) && Silent(m.strict_equal) && Silent(m.fz44)
    && Silent(m.fz223) && Silent(m.pp_rf615) && Silent(m.pp_rf_615) && Silent(m.stage_af) && Silent(m.stage_ca)
    && Silent(m.stage_pc) && Silent(m.stage_pa) && Silent(m.publish_date_from) && Silent(m.publish_date_to)
    && Silent(m.appl_submission_close_date_from) && Silent(m.appl_submission_close_date_to)
    && Silent(m.appl_close_from) && Silent(m.appl_close_to) && Silent(m.price_from) && Silent(m.price_to)
    && Silent(m.currency_code) && Silent(m.okpd2_codes) && Silent(m.okpd2_with_nested) && Silent(m.okpd2_several)
    && Silent(m.okpd2) && Silent(m.customer_title) && Silent(m.placing_way_list) && Silent(m.smp_sono)
    && Silent(m.joint_purchase) && Silent(m.sort_by) && Silent(m.sort_direction) && Silent(m.records_per_page)
  }

  /** Such an object means what the interface starts with, and that is this. */
  lemma NoMembersMeanDefaults(m: Members)
    requires AllSilent(m)
    ensures Decode(Object(m)) == Some(DefaultSearcherConfig())
    ensures DefaultSearcherConfig() == SearcherConfig(
      "", true, false, true, true, false, true, true, false, false, None, None, None, None,
      None, None, "RUB", "", true, false, "", "", false, false, "UPDATE_DATE", false, 50)
  {
  }

  /** UnmarshalJSON: the receiver keeps its value when an error is reported. */
  method UnmarshalJSON(receiver: SearcherConfig, b: Json) returns (ok: bool, c: SearcherConfig)
    ensures ok <==> Decode(b).Some?
    ensures c == if ok then Decode(b).value else receiver
    ensures ok <==> b.Null? || (b.Object? && MembersFit(b.members))
    ensures ok && b.Object? ==>
      FiltersRead(b.members, c) && OrderRead(b.members, c) && TextsRead(b.members, c) && OlderRead(b.members, c)
    ensures ok && b.Null? ==> c == DefaultSearcherConfig()
  {
    DecodedMeans(b);
    hide MembersFit, FiltersRead, OrderRead, TextsRead, OlderRead;
    EncodedValuesReadBack();
    OlderNamesAbsent();
    hide WellTyped, PageSizeOr, BoolOr, StringOr, OptionalString, OptionalNumber, OptionalBool,
      FromOption, FromNumber, DateOr, FlagOr, CodesOr, Strings;
    c := receiver;
    var decoded := DecodeAux(b);
    ok := decoded.Some?;
    if !ok {
      return;
    }
    var aux := decoded.value;
    c := aux.alias;
    c := c.(ppRf615 := FlagOr(c.ppRf615, aux.legacyPP));
    c := c.(recordsPerPage := PageSizeOr(c.recordsPerPage, aux.legacyRPP));
    c := c.(applCloseFrom := DateOr(c.applCloseFrom, aux.legacyApplFrom));
    c := c.(applCloseTo := DateOr(c.applCloseTo, aux.legacyApplTo));
    c := c.(okpd2Codes := CodesOr(c.okpd2Codes, aux.legacyOKPD2));
  }

  // ---- The query -----------------------------------------------------------------------------

  function PageSizeParam(c: SearcherConfig): string {
    match c.recordsPerPage
    case 10 => "_10"
    case 20 => "_20"
    case _ => "_50"
  }

  /** strPtrVal */
  function TextOf(p: Option<string>): string {
    match p case None => "" case Some(s) => TrimSpace(s)
  }

  function CurrencyParam(code: string): Option<string> {
    if TrimSpace(code) == "RUB" then None else NonEmpty(TrimSpace(code))
  }

  function SearcherQuery(c: SearcherConfig): Query {
    Query(
      searchString := NonEmpty(TrimSpace(c.searchString)),
      morphology := Flag(UsesMorphology(c.morphology, c.strictEqual), "on"),
      strictEqual := Flag(c.strictEqual, "true"),
      fz44 := Flag(c.fz44, "on"), fz223 := Flag(c.fz223, "on"), ppRf615 := Flag(c.ppRf615, "on"),
      af := Flag(c.stageAF, "on"), ca := Flag(c.stageCA, "on"),
      pc := Flag(c.stagePC, "on"), pa := Flag(c.stagePA, "on"),
      sortBy := Some(OrElse(c.sortBy, "UPDATE_DATE")),
      sortDirection := Some(FormatBool(c.sortDirection)),
      recordsPerPage := Some(PageSizeParam(c)),
      pageNumber := Some("1"),
      priceFromGeneral := c.priceFrom, priceToGeneral := c.priceTo,
      publishDateFrom := NonEmpty(TextOf(c.publishDateFrom)), publishDateTo := NonEmpty(TextOf(c.publishDateTo)),
      applSubmissionCloseDateFrom := NonEmpty(TextOf(c.applCloseFrom)),
      applSubmissionCloseDateTo := NonEmpty(TextOf(c.applCloseTo)),
      customerTitle := NonEmpty(TrimSpace(c.customerTitle)),
      okpd2IdsCodes := NonEmpty(TrimSpace(c.okpd2Codes)),
      okpd2IdsWithNested := Flag(c.okpd2WithNested, "on"), okpd2IdsSeveral := Flag(c.okpd2Several, "on"),
      placingWayList := NonEmpty(TrimSpace(c.placingWayList)),
      procurementSMPAndSONO := Flag(c.smpSono, "on"), jointPurchase := Flag(c.jointPurchase, "on"),
      currencyCodeGeneral := CurrencyParam(c.currencyCode))
  }

  // ---- Reading back what was written ----------------------------------------------------------------

  lemma EncodedIsWellTyped(c: SearcherConfig)
    ensures WellTyped(Encode(c).members)
  {
    EncodedValuesReadBack();
    hide IsBool, IsString, IsNumber, IsStrings, FromOption, FromNumber;
  }

  /** What a stored page size is read back as. */
  function ReadablePageSize(n: int): int {
    if n > 0 then n else 50
  }

  lemma EncodedPageSize(n: int)
    requires -MAX_INT64 - 1 <= n <= MAX_INT64
    ensures PageSizeOr(50, Present(Number(n as real))) == ReadablePageSize(n)
  {
  }

  /** Every configuration that the service stores is read back as it was, except that a page size that is
      not positive becomes 50. */
  lemma DecodeEncode(c: SearcherConfig)
    requires -MAX_INT64 - 1 <= c.recordsPerPage <= MAX_INT64
    ensures Decode(Encode(c)) == Some(c.(recordsPerPage := ReadablePageSize(c.recordsPerPage)))
  {
    hide WellTyped, PageSizeOr, BoolOr, StringOr, OptionalString, OptionalNumber, OptionalBool,
      FromOption, FromNumber, DateOr, FlagOr, CodesOr, Strings, ReadablePageSize, Present;
    EncodedIsWellTyped(c);
    EncodedPageSize(c.recordsPerPage);
    EncodedValuesReadBack();
    OlderNamesAbsent();
  }

  /** Reading back is exact precisely for positive page sizes. */
  lemma DecodeEncodeExact(c: SearcherConfig)
    requires -MAX_INT64 - 1 <= c.recordsPerPage <= MAX_INT64
    ensures Decode(Encode(c)) == Some(c) <==> c.recordsPerPage > 0
  {
    DecodeEncode(c);
  }

  /** A decoded page size is a 64-bit number other than zero; it is negative only when it came as a text. */
  lemma DecodedPageSize(j: Json)
    requires Decode(j).Some?
    ensures var n := Decode(j).value.recordsPerPage;
      && n != 0 && -MAX_INT64 - 1 <= n <= MAX_INT64
      && (n < 0 ==> j.Object? && j.members.records_per_page.String?)
  {
  }
}
