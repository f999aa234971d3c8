/** The two configuration forms turned into each other, and what that does to the query. */
module Conversions {
  import opened Wrappers
  import opened Text
  import opened Json
  import opened EisConfig
  import opened SearcherConfigs
  import opened UrlValues

  // ---- OKPD2 codes -----------------------------------------------------------------------------

  /** The parts that are more than spaces, trimmed. */
  function NonBlank(parts: seq<string>): seq<string> {
    if parts == [] then []
    else
      var p := TrimSpace(parts[|parts| - 1]);
      NonBlank(parts[..|parts| - 1]) + if p == "" then [] else [p]
  }

  /** The codes that a comma-separated text lists. */
  function Codes(text: string): seq<string> {
    if TrimSpace(text) == "" then [] else NonBlank(Split(TrimSpace(text), ","))
  }

  /** The text that both conversions together make of a list of codes. */
  function NormalCodes(text: string): string {
    Join(Codes(text), ",")
  }

  predicate IsCode(s: string) {
    s != "" && Trimmed(s) && ',' !in s
  }

  lemma {:induction false} TrimKeepsFree(s: string, c: char)
    requires c !in s
    ensures c !in TrimLeft(s) && c !in TrimRight(s)
    decreases |s|
  {
    if s != "" {
      if IsSpace(s[0]) {
        TrimKeepsFree(s[1..], c);
      }
      if IsSpace(s[|s| - 1]) {
        TrimKeepsFree(s[..|s| - 1], c);
      }
    }
  }

  lemma {:induction false} NonBlankGivesCodes(parts: seq<string>)
    requires forall p :: p in parts ==> ',' !in p
    ensures forall p :: p in NonBlank(parts) ==> IsCode(p)
    decreases |parts|
  {
    if parts != [] {
      var last := parts[|parts| - 1];
      NonBlankGivesCodes(parts[..|parts| - 1]);
      TrimSpaceTrims(last);
      TrimKeepsFree(last, ',');
      TrimKeepsFree(TrimLeft(last), ',');
    }
  }

  lemma {:induction false} NonBlankKeepsCodes(parts: seq<string>)
    requires forall p :: p in parts ==> IsCode(p)
    ensures NonBlank(parts) == parts
    decreases |parts|
  {
    if parts != [] {
      hide TrimSpace;
      var front, last := parts[..|parts| - 1], parts[|parts| - 1];
      assert parts == front + [last];
      NonBlankKeepsCodes(front);
      assert IsCode(last);
      TrimSpaceTrims(last);
    }
  }

  lemma {:induction false} JoinOfCodesIsTrimmed(codes: seq<string>)
    requires codes != [] && forall p :: p in codes ==> IsCode(p)
    ensures Join(codes, ",") != "" && Trimmed(Join(codes, ","))
    decreases |codes|
  {
    assert IsCode(codes[0]);
    if |codes| > 1 {
      JoinOfCodesIsTrimmed(codes[1..]);
      var s := Join(codes, ",");
      assert s[0] == codes[0][0];
      assert s[|s| - 1] == Join(codes[1..], ",")[|Join(codes[1..], ",")| - 1];
    }
  }

  /** Codes that were joined are read back one by one. */
  lemma CodesOfJoin(codes: seq<string>)
    requires forall p :: p in codes ==> IsCode(p)
    ensures Codes(Join(codes, ",")) == codes
  {
    if codes == [] {
      assert TrimSpace("") == "";
    } else {
      JoinOfCodesIsTrimmed(codes);
      TrimSpaceTrims(Join(codes, ","));
      SplitJoin(codes, ",");
      NonBlankKeepsCodes(codes);
    }
  }

  /** Whatever the text, its codes are codes. */
  lemma CodesAreCodes(text: string)
    ensures forall p :: p in Codes(text) ==> IsCode(p)
  {
    if TrimSpace(text) != "" {
      SplitPartsFree(TrimSpace(text), ',');
      NonBlankGivesCodes(Split(TrimSpace(text), ","));
    }
  }

  lemma {:induction false} NonBlankMeans(parts: seq<string>, code: string)
    ensures code in NonBlank(parts) <==> code != "" && exists i :: 0 <= i < |parts| && TrimSpace(parts[i]) == code
    decreases |parts|
  {
    hide TrimSpace;
    if parts != [] {
      var front, last := parts[..|parts| - 1], parts[|parts| - 1];
      NonBlankMeans(front, code);
      if code != "" && exists i :: 0 <= i < |parts| && TrimSpace(parts[i]) == code {
        var i :| 0 <= i < |parts| && TrimSpace(parts[i]) == code;
        assert i < |front| ==> front[i] == parts[i];
      }
      if i :| 0 <= i < |front| && TrimSpace(front[i]) == code {
        assert parts[i] == front[i];
      }
    }
  }

  /** The codes of a text are what its comma-separated parts hold between their spaces, but for blank ones. */
  lemma CodesMean(text: string, code: string)
    ensures var parts := Split(TrimSpace(text), ",");
      code in Codes(text) <==> code != "" && exists i :: 0 <= i < |parts| && TrimSpace(parts[i]) == code
  {
    hide TrimSpace, Split, NonBlank, Codes;
    NonBlankMeans(Split(TrimSpace(text), ","), code);
    CodesAreNonBlank(text);
  }

  lemma CodesAreNonBlank(text: string)
    ensures Codes(text) == NonBlank(Split(TrimSpace(text), ","))
  {
    BlankHasNoCodes();
    hide TrimSpace, Split, NonBlank;
    if TrimSpace(text) == "" {
      assert Split(TrimSpace(text), ",") == Split("", ",");
    }
  }

  lemma BlankHasNoCodes()
    ensures NonBlank(Split("", ",")) == []
  {
    assert Split("", ",") == [""] && TrimSpace("") == "";
    assert [""][..0] == [];
  }

  /** Normalising a text twice is normalising it once, and never changes which codes it lists. */
  lemma NormalCodesIdempotent(text: string)
    ensures Codes(NormalCodes(text)) == Codes(text)
    ensures NormalCodes(NormalCodes(text)) == NormalCodes(text)
    ensures TrimSpace(NormalCodes(text)) == NormalCodes(text)
  {
    CodesAreCodes(text);
    CodesOfJoin(Codes(text));
    if Codes(text) != [] {
      JoinOfCodesIsTrimmed(Codes(text));
    }
    TrimSpaceTrims(NormalCodes(text));
  }

  // ---- From the new form to the older one --------------------------------------------------------

  function ToEIS(c: SearcherConfig): EISSearchConfig {
    EISSearchConfig(
      searchString := c.searchString, morphology := c.morphology, strictEqual := c.strictEqual,
      fz44 := c.fz44, fz223 := c.fz223, ppRf615 := c.ppRf615,
      stageAF := c.stageAF, stageCA := c.stageCA, stagePC := c.stagePC, stagePA := c.stagePA,
      sortBy := c.sortBy, sortDirection := c.sortDirection, recordsPerPage := PageSizeParam(c),
      priceFrom := c.priceFrom, priceTo := c.priceTo,
      publishDateFrom := TextOf(c.publishDateFrom), publishDateTo := TextOf(c.publishDateTo),
      applCloseFrom := TextOf(c.applCloseFrom), applCloseTo := TextOf(c.applCloseTo),
      regions := [], okpd2 := Codes(c.okpd2Codes), customerTitle := c.customerTitle)
  }

  /** The older form asks for the same values, without the seven parameters that it lacks, and lists the same codes
      in normal form. */
  method ToEISSearchConfig(c: SearcherConfig) returns (out: EISSearchConfig)
    ensures out == ToEIS(c)
    ensures ValuesOf(EISQuery(out)) == ValuesOf(SearcherQuery(c)) - NEW_PARAMETERS
    ensures Join(out.okpd2, ",") == NormalCodes(c.okpd2Codes) && forall code :: code in out.okpd2 ==> IsCode(code)
    ensures out.regions == []
  {
    ConvertedMeans(c);
    hide TextOf, PageSizeParam, Codes, ValuesOf, EISQuery, SearcherQuery, NormalCodes, IsCode, Join;
    out := DefaultEISSearchConfig();
    out := out.(searchString := c.searchString, morphology := c.morphology, strictEqual := c.strictEqual);
    out := out.(fz44 := c.fz44, fz223 := c.fz223, ppRf615 := c.ppRf615);
    out := out.(stageAF := c.stageAF, stageCA := c.stageCA, stagePC := c.stagePC, stagePA := c.stagePA);
    var pageSize := RecordsPerPageParam(c);
    out := out.(sortBy := c.sortBy, sortDirection := c.sortDirection, recordsPerPage := pageSize);
    var publishFrom := StrPtrVal(c.publishDateFrom);
    var publishTo := StrPtrVal(c.publishDateTo);
    var closeFrom := StrPtrVal(c.applCloseFrom);
    var closeTo := StrPtrVal(c.applCloseTo);
    out := out.(priceFrom := c.priceFrom, priceTo := c.priceTo, publishDateFrom := publishFrom,
                publishDateTo := publishTo, applCloseFrom := closeFrom, applCloseTo := closeTo);
    var codes := CollectCodes(c.okpd2Codes);
    out := out.(customerTitle := c.customerTitle, okpd2 := codes);
  }

  lemma ConvertedMeans(c: SearcherConfig)
    ensures ValuesOf(EISQuery(ToEIS(c))) == ValuesOf(SearcherQuery(c)) - NEW_PARAMETERS
    ensures var codes := ToEIS(c).okpd2;
      Join(codes, ",") == NormalCodes(c.okpd2Codes) && forall code :: code in codes ==> IsCode(code)
  {
    QuerySurvivesConversion(c);
    CodesAreCodes(c.okpd2Codes);
    hide ValuesOf, EISQuery, SearcherQuery, IsCode, WithoutNewParams, NEW_PARAMETERS;
    ValuesWithoutNewParams(SearcherQuery(c));
  }

  method CollectCodes(text: string) returns (codes: seq<string>)
    ensures codes == Codes(text)
  {
    codes := [];
    var trimmed := TrimSpace(text);
    if trimmed != "" {
      var parts := Split(trimmed, ",");
      for i := 0 to |parts|
        invariant codes == NonBlank(parts[..i])
      {
        assert parts[..i + 1][..i] == parts[..i];
        var p := TrimSpace(parts[i]);
        if p != "" {
          codes := codes + [p];
        }
      }
      assert parts[..|parts|] == parts;
    }
  }

  // ---- From the older form to the new one --------------------------------------------------------

  /** strconv.Quote writes `c` with an escape that JSON does not know: a bell, a vertical tab, a hexadecimal byte
      or an eight-digit code point. What it takes for printable beyond the basic plane is a parameter. */
  predicate BreaksJson(c: char, printable: char -> bool) {
    || c == '\U{7}' || c == '\U{B}' || c == '\U{7F}'
    || (c < ' ' && c !in "\U{8}\t\n\U{C}\r")
    || (c > '\U{FFFF}' && !printable(c))
  }

  /** The quoted text is JSON and says the same. */
  predicate QuotesAsJson(s: string, printable: char -> bool) {
    forall i :: 0 <= i < |s| ==> !BreaksJson(s[i], printable)
  }

  function QuotedJson(s: string, printable: char -> bool): Option<Json> {
    if QuotesAsJson(s, printable) then Some(String(s)) else None
  }

  function DateOption(s: string): Option<string> {
    if s == "" then None else Some(s)
  }

  /** SearcherConfigFromEIS */
  function FromEIS(e: EISSearchConfig, printable: char -> bool): SearcherConfig {
    SearcherConfig(
      searchString := e.searchString, morphology := e.morphology, strictEqual := e.strictEqual,
      fz44 := e.fz44, fz223 := e.fz223, ppRf615 := e.ppRf615,
      stageAF := e.stageAF, stageCA := e.stageCA, stagePC := e.stagePC, stagePA := e.stagePA,
      publishDateFrom := DateOption(e.publishDateFrom), publishDateTo := DateOption(e.publishDateTo),
      applCloseFrom := DateOption(e.applCloseFrom), applCloseTo := DateOption(e.applCloseTo),
      priceFrom := e.priceFrom, priceTo := e.priceTo, currencyCode := "RUB",
      okpd2Codes := Join(e.okpd2, ","), okpd2WithNested := true, okpd2Several := false,
      customerTitle := e.customerTitle, placingWayList := "", smpSono := false, jointPurchase := false,
      sortBy := e.sortBy, sortDirection := e.sortDirection,
      recordsPerPage := NonZero(ParseRecordsPerPage(QuotedJson(e.recordsPerPage, printable))))
  }

  // ---- Two ways for an older configuration ---------------------------------------------------------

  lemma OlderIsWellTyped(e: EISSearchConfig)
    ensures WellTyped(EncodeEIS(e).members)
  {
    EncodedValuesReadBack();
    assert forall s :: IsString(TextMember(s));
    assert forall p :: IsNumber(PriceMember(p));
    assert forall l :: IsStrings(TextsMember(l));
    hide IsBool, IsString, IsNumber, IsStrings, TextMember, PriceMember, TextsMember;
  }

  lemma OlderTextRead(s: string)
    ensures OptionalString(TextMember(s)) == DateOption(s) && StringOr(TextMember(s), "") == s
    ensures DateOr(OptionalString(Absent), s) == DateOption(s)
  {
  }

  lemma OlderPriceRead(p: Option<real>)
    ensures OptionalNumber(PriceMember(p)) == p
  {
  }

  lemma OlderFlagRead(b: bool)
    ensures FlagOr(false, OptionalBool(Bool(b))) == b
  {
  }

  lemma OlderCodesRead(l: seq<string>)
    ensures CodesOr("", Strings(TextsMember(l))) == Join(l, ",")
  {
    assert Strings(TextsMember(l)) == l;
  }

  lemma OlderPageSizeRead(s: string)
    ensures PageSizeOr(50, Present(String(s))) == NonZero(PageSizeText(s))
  {
  }

  /** An older configuration, decoded from its own JSON, is the one that the direct conversion makes of it;
      only the page size may differ. */
  lemma OlderDecoded(e: EISSearchConfig, printable: char -> bool)
    ensures Decode(EncodeEIS(e))
         == Some(FromEIS(e, printable).(recordsPerPage := NonZero(PageSizeText(e.recordsPerPage))))
  {
    hide WellTyped, PageSizeOr, BoolOr, StringOr, OptionalString, OptionalNumber, OptionalBool, DateOr,
      FlagOr, CodesOr, Strings, Present, NonZero, PageSizeText, ParseRecordsPerPage, TextMember, PriceMember,
      TextsMember, DateOption, QuotedJson, Join;
    OlderIsWellTyped(e);
    EncodedValuesReadBack();
    OlderFlagRead(e.ppRf615);
    OlderPriceRead(e.priceFrom);
    OlderPriceRead(e.priceTo);
    OlderTextRead(e.publishDateFrom);
    OlderTextRead(e.publishDateTo);
    OlderTextRead(e.applCloseFrom);
    OlderTextRead(e.applCloseTo);
    OlderTextRead(e.customerTitle);
    OlderCodesRead(e.okpd2);
    OlderPageSizeRead(e.recordsPerPage);
  }

  lemma PageSizesAgree(s: string, printable: char -> bool)
    ensures NonZero(ParseRecordsPerPage(QuotedJson(s, printable))) == NonZero(PageSizeText(s))
       <==> QuotesAsJson(s, printable) || PageSizeText(s) in {0, 50}
  {
    hide PageSizeText;
  }

  /** The two ways agree precisely when the page size survives quoting or means 50 anyway. */
  lemma LegacyPathsCommute(e: EISSearchConfig, printable: char -> bool)
    ensures Decode(EncodeEIS(e)) == Some(FromEIS(e, printable))
       <==> QuotesAsJson(e.recordsPerPage, printable) || PageSizeText(e.recordsPerPage) in {0, 50}
  {
    hide EncodeEIS, Decode, PageSizeText, ParseRecordsPerPage, NonZero, QuotedJson, QuotesAsJson;
    OlderDecoded(e, printable);
    PageSizesAgree(e.recordsPerPage, printable);
  }

  // ---- The query ------------------------------------------------------------------------------------

  /** Conversion keeps the meaning: the older form asks for exactly the same, minus those seven parameters. */
  lemma QuerySurvivesConversion(c: SearcherConfig)
    ensures EISQuery(ToEIS(c)) == WithoutNewParams(SearcherQuery(c))
  {
    assert OrElse(PageSizeParam(c), "_10") == PageSizeParam(c);
    hide NonEmpty, Flag, UsesMorphology, OrElse, FormatBool, PageSizeParam, TextOf, TrimSpace, Codes, CurrencyParam;
  }

  lemma PageSizeSurvives(c: SearcherConfig, printable: char -> bool)
    ensures NonZero(ParseRecordsPerPage(QuotedJson(PageSizeParam(c), printable)))
         == if c.recordsPerPage in {10, 20} then c.recordsPerPage else 50
  {
    var s := PageSizeParam(c);
    assert |s| == 3 && s[0] == '_' && AllDigits(s[1..]) && s[2] == '0';
    assert forall i :: 0 <= i < |s| ==> s[i] == '_' || IsDigit(s[i]);
    TrimSpaceTrims(s);
    assert DigitsValue(s[1..]) == 10 * DigitsValue(s[1..][..1]) + (s[2] - '0') as int;
    assert DigitsValue(s[1..][..1]) == 10 * DigitsValue(s[1..][..1][..0]) + (s[1] - '0') as int;
  }

  lemma DateSurvives(date: Option<string>)
    ensures TextOf(DateOption(TextOf(date))) == TextOf(date)
  {
    if date.Some? {
      TrimSpaceTrims(date.value);
      TrimSpaceTrims(TrimSpace(date.value));
    }
  }

  /** What a query becomes when its configuration goes to the older form and back. */
  function AfterRoundTrip(c: SearcherConfig): Query {
    SearcherQuery(c).(
      okpd2IdsCodes := NonEmpty(NormalCodes(c.okpd2Codes)), okpd2IdsWithNested := Some("on"),
      okpd2IdsSeveral := None, placingWayList := None, procurementSMPAndSONO := None, jointPurchase := None,
      currencyCodeGeneral := None)
  }

  lemma NewFieldsHoldDefaults(e: EISSearchConfig, printable: char -> bool)
    ensures var q := SearcherQuery(FromEIS(e, printable));
      && q.okpd2IdsWithNested == Some("on")
      && q.okpd2IdsSeveral == q.placingWayList == q.procurementSMPAndSONO == q.jointPurchase == None
      && q.currencyCodeGeneral == None
      && q.okpd2IdsCodes == NonEmpty(TrimSpace(Join(e.okpd2, ",")))
  {
    TrimSpaceTrims("RUB");
    TrimSpaceTrims("");
  }

  lemma PageSizeParamSurvives(c: SearcherConfig, printable: char -> bool)
    ensures PageSizeParam(FromEIS(ToEIS(c), printable)) == PageSizeParam(c)
  {
    PageSizeSurvives(c, printable);
  }

  lemma QueryAfterRoundTrip(c: SearcherConfig, printable: char -> bool)
    ensures SearcherQuery(FromEIS(ToEIS(c), printable)) == AfterRoundTrip(c)
  {
    NewFieldsHoldDefaults(ToEIS(c), printable);
    PageSizeParamSurvives(c, printable);
    NormalCodesIdempotent(c.okpd2Codes);
    DateSurvives(c.publishDateFrom);
    DateSurvives(c.publishDateTo);
    DateSurvives(c.applCloseFrom);
    DateSurvives(c.applCloseTo);
    hide NonEmpty, Flag, UsesMorphology, OrElse, FormatBool, PageSizeParam, TextOf, TrimSpace, Codes, CurrencyParam,
      NonZero, ParseRecordsPerPage, QuotedJson, DateOption, Join;
  }

  predicate OnlyOlderFilters(c: SearcherConfig) {
    && c.okpd2WithNested && !c.okpd2Several && !c.smpSono && !c.jointPurchase
    && TrimSpace(c.placingWayList) == "" && TrimSpace(c.currencyCode) in {"", "RUB"}
    && NormalCodes(c.okpd2Codes) == TrimSpace(c.okpd2Codes)
  }

  /** Going to the older form and back restores the whole query precisely when the configuration uses no filter
      that the older form lacks and lists its codes in normal form. */
  lemma QueryRestored(c: SearcherConfig, printable: char -> bool)
    ensures SearcherQuery(FromEIS(ToEIS(c), printable)) == SearcherQuery(c) <==> OnlyOlderFilters(c)
  {
    QueryAfterRoundTrip(c, printable);
    var q, r := SearcherQuery(c), AfterRoundTrip(c);
    SameButSeven(q, r);
    hide FromEIS, ToEIS, TrimSpace, NormalCodes;
  }

  lemma SameButSeven(q: Query, r: Query)
    requires WithoutNewParams(q) == WithoutNewParams(r)
    ensures q == r <==>
      && q.okpd2IdsCodes == r.okpd2IdsCodes && q.okpd2IdsWithNested == r.okpd2IdsWithNested
      && q.okpd2IdsSeveral == r.okpd2IdsSeveral && q.placingWayList == r.placingWayList
      && q.procurementSMPAndSONO == r.procurementSMPAndSONO && q.jointPurchase == r.jointPurchase
      && q.currencyCodeGeneral == r.currencyCodeGeneral
  {
  }

  /** A trailing vertical tab: the decoder trims it away, the direct conversion loses the page size. */
  lemma VerticalTabSeparatesTheWays(e: EISSearchConfig, printable: char -> bool)
    requires e.recordsPerPage == "20\U{B}"
    ensures Decode(EncodeEIS(e)) != Some(FromEIS(e, printable))
    ensures Decode(EncodeEIS(e)).value.recordsPerPage == 20 && FromEIS(e, printable).recordsPerPage == 50
  {
    var s := e.recordsPerPage;
    assert BreaksJson(s[2], printable);
    assert TrimLeft(s) == s;
    assert s[..2] == "20";
    assert TrimRight(s) == "20";
    assert "20"[..1] == "2" && "2"[..0] == "";
    assert DigitsValue("2") == 2 && DigitsValue("20") == 20;
    OlderDecoded(e, printable);
    hide EncodeEIS, Decode;
  }
}
