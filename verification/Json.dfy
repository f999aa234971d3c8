/** JSON values as the service stores and exchanges them. A number is its exact value. The members that one of
    the two configuration forms knows are listed under their names on the wire; `others` holds the rest. */
module Json {
  import opened Wrappers
  import opened Text

  datatype Json =
    | Null
    | Bool(b: bool)
    | Number(n: real)
    | String(s: string)
    | Array(items: seq<Json>)
    | Object(members: Members)
    | Absent // stands for a member that an object does not have

  datatype Members = Members(
    search_string: Json, morphology: Json, strict_equal: Json,
    fz44: Json, fz223: Json, pp_rf615: Json, pp_rf_615: Json,
    stage_af: Json, stage_ca: Json, stage_pc: Json, stage_pa: Json,
    publish_date_from: Json, publish_date_to: Json,
    appl_submission_close_date_from: Json, appl_submission_close_date_to: Json,
    appl_close_from: Json, appl_close_to: Json,
    price_from: Json, price_to: Json, currency_code: Json,
    okpd2_codes: Json, okpd2_with_nested: Json, okpd2_several: Json, okpd2: Json, regions: Json,
    customer_title: Json, placing_way_list: Json, smp_sono: Json, joint_purchase: Json,
    sort_by: Json, sort_direction: Json, records_per_page: Json,
    others: map<string, Json>)

  // ---- What encoding/json accepts for a field of each Go type, and the value it leaves there -----------

  predicate IsBool(j: Json) { j.Absent? || j.Null? || j.Bool? }

  predicate IsString(j: Json) { j.Absent? || j.Null? || j.String? }

  predicate IsNumber(j: Json) { j.Absent? || j.Null? || j.Number? }

  predicate IsStrings(j: Json) {
    j.Absent? || j.Null? || (j.Array? && forall i :: 0 <= i < |j.items| ==> IsString(j.items[i]))
  }

  function BoolOr(j: Json, unset: bool): bool {
    if j.Bool? then j.b else unset
  }

  function StringOr(j: Json, unset: string): string {
    if j.String? then j.s else unset
  }

  function OptionalBool(j: Json): Option<bool> {
    if j.Bool? then Some(j.b) else None
  }

  function OptionalString(j: Json): Option<string> {
    if j.String? then Some(j.s) else None
  }

  function OptionalNumber(j: Json): Option<real> {
    if j.Number? then Some(j.n) else None
  }

  function Strings(j: Json): seq<string> {
    if j.Array? then seq(|j.items|, i requires 0 <= i < |j.items| => StringOr(j.items[i], "")) else []
  }

  /** A number that fits Go's int. */
  function IntValue(j: Json): Option<int> {
    if j.Number? && j.n.Floor as real == j.n && -MAX_INT64 - 1 <= j.n.Floor <= MAX_INT64
    then Some(j.n.Floor) else None
  }

  function FromOption(value: Option<string>): Json {
    match value case Some(s) => String(s) case None => Null
  }

  function FromNumber(value: Option<real>): Json {
    match value case Some(n) => Number(n) case None => Null
  }

  // ---- Each encoded value is accepted for its own type and read back -------------------------------------

  lemma EncodedValuesReadBack()
    ensures IsBool(Absent) && forall b :: IsBool(Bool(b))
    ensures IsString(Absent) && (forall s :: IsString(String(s))) && forall o :: IsString(FromOption(o))
    ensures IsNumber(Absent) && forall n :: IsNumber(FromNumber(n))
    ensures IsStrings(Absent) && Strings(Absent) == []
    ensures (forall b, unset :: BoolOr(Bool(b), unset) == b) && forall unset :: BoolOr(Absent, unset) == unset
    ensures (forall s, unset :: StringOr(String(s), unset) == s) && forall unset :: StringOr(Absent, unset) == unset
    ensures forall o :: OptionalString(FromOption(o)) == o
    ensures forall n :: OptionalNumber(FromNumber(n)) == n
  {
  }
}
