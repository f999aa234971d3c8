/** What any run of store operations keeps: the version of a profile tells its stored filters. */
module ProfileLaws {
  import opened Wrappers
  import opened Text
  import opened Json
  import opened SearcherConfigs
  import opened Profiles

  datatype Op =
    | Create(user: UserId, p: Profile, id: Id, now: int)
    | Update(user: UserId, path: PathId, p: Profile, now: int)
    | SetAutoAI(user: UserId, path: PathId, enabled: bool, now: int)
    | Touch(user: UserId, path: PathId, at: int, now: int)
    | Delete(user: UserId, path: PathId)

  function Apply(t: Table, op: Op): Table {
    match op
    case Create(user, p, id, now) => CreateOutcome(t, user, p, id, now).table
    case Update(user, path, p, now) => UpdateOutcome(t, user, path, p, now).table
    case SetAutoAI(user, path, enabled, now) => AutoAIOutcome(t, user, path, enabled, now).table
    case Touch(user, path, at, now) => TouchOutcome(t, user, path, at, now).table
    case Delete(user, path) => DeletedTable(t, user, path)
  }

  function Run(t: Table, ops: seq<Op>): Table {
    if ops == [] then t else Apply(Run(t, ops[..|ops| - 1]), ops[|ops| - 1])
  }

  /** The stored filters of a profile differ before and after. */
  predicate ConfigChanged(t: Table, t': Table, id: Id) {
    id in t.rows && id in t'.rows && t.rows[id].eisConfig != t'.rows[id].eisConfig
  }

  function Rises(t: Table, t': Table, id: Id): nat {
    if ConfigChanged(t, t', id) then 1 else 0
  }

  /** What one table may be to an earlier one: ids are never reused, a new row starts at version 1, a version is
      never lowered, and an unchanged version means unchanged filters and owner. */
  ghost predicate Follows(t: Table, t': Table) {
    && ValidTable(t')
    && t.used <= t'.used
    && forall id :: id in t'.rows && id in t.used ==>
         && id in t.rows
         && t.rows[id].userID == t'.rows[id].userID
         && t.rows[id].configVersion <= t'.rows[id].configVersion
         && (t.rows[id].configVersion == t'.rows[id].configVersion ==> t.rows[id].eisConfig == t'.rows[id].eisConfig)
  }

  /** One operation: the version rises by one exactly when the stored filters change. */
  lemma ApplyVersions(t: Table, op: Op, id: Id)
    requires ValidTable(t) && id in Apply(t, op).rows
    ensures id in t.rows ==>
      Apply(t, op).rows[id].configVersion == t.rows[id].configVersion + Rises(t, Apply(t, op), id)
    ensures id !in t.rows ==> id !in t.used && Apply(t, op).rows[id].configVersion == 1
  {
    hide Encode, Scan, NameFree;
  }

  lemma ApplyKeepsOwners(t: Table, op: Op, id: Id)
    requires ValidTable(t) && id in Apply(t, op).rows && id in t.rows
    ensures t.rows[id].userID == Apply(t, op).rows[id].userID
  {
    hide Encode, Scan, NameFree;
  }

  lemma ApplyUses(t: Table, op: Op)
    requires ValidTable(t)
    ensures ValidTable(Apply(t, op)) && t.used <= Apply(t, op).used
  {
    hide Encode, Scan, NameFree;
  }

  lemma ApplyFollows(t: Table, op: Op)
    requires ValidTable(t)
    ensures Follows(t, Apply(t, op))
  {
    hide Apply;
    ApplyUses(t, op);
    forall id | id in Apply(t, op).rows && id in t.used
      ensures id in t.rows && t.rows[id].userID == Apply(t, op).rows[id].userID
      ensures Apply(t, op).rows[id].configVersion == t.rows[id].configVersion + Rises(t, Apply(t, op), id)
    {
      ApplyVersions(t, op, id);
      ApplyKeepsOwners(t, op, id);
    }
  }

  lemma FollowsIsTransitive(t: Table, u: Table, v: Table)
    requires Follows(t, u) && Follows(u, v)
    ensures Follows(t, v)
  {
  }

  lemma {:induction false} RunFollows(t: Table, ops: seq<Op>)
    requires ValidTable(t)
    ensures Follows(t, Run(t, ops))
    decreases |ops|
  {
    if ops != [] {
      hide Apply, Follows;
      var before := ops[..|ops| - 1];
      RunFollows(t, before);
      FollowsValid(t, Run(t, before));
      ApplyFollows(Run(t, before), ops[|ops| - 1]);
      FollowsIsTransitive(t, Run(t, before), Run(t, ops));
    }
  }

  lemma FollowsValid(t: Table, t': Table)
    requires Follows(t, t')
    ensures ValidTable(t')
  {
  }

  lemma {:induction false} RunConcat(t: Table, a: seq<Op>, b: seq<Op>)
    ensures Run(t, a + b) == Run(Run(t, a), b)
    decreases |b|
  {
    if b == [] {
      assert a + b == a;
    } else {
      hide Apply;
      RunConcat(t, a, b[..|b| - 1]);
      assert (a + b)[..|a + b| - 1] == a + b[..|b| - 1];
    }
  }

  /** At any two moments of any run: the later version of a profile is not lower, and equal versions mean equal
      stored filters. */
  lemma VersionDeterminesConfig(t: Table, ops: seq<Op>, i: nat, j: nat, id: Id)
    requires ValidTable(t) && i <= j <= |ops|
    requires id in Run(t, ops[..i]).rows && id in Run(t, ops[..j]).rows
    ensures var early, late := Run(t, ops[..i]).rows[id], Run(t, ops[..j]).rows[id];
      && early.configVersion <= late.configVersion
      && (early.configVersion == late.configVersion ==> early.eisConfig == late.eisConfig)
  {
    RunFollows(t, ops[..i]);
    RunConcat(t, ops[..i], ops[i..j]);
    assert ops[..i] + ops[i..j] == ops[..j];
    RunFollows(Run(t, ops[..i]), ops[i..j]);
  }

  /** How often the stored filters of a profile change along a run. */
  function Changes(t: Table, ops: seq<Op>, id: Id): nat {
    if ops == [] then 0
    else
      var before := ops[..|ops| - 1];
      Changes(t, before, id) + Rises(Run(t, before), Run(t, ops), id)
  }

  /** The version counts the changes, and nothing else moves it. */
  lemma {:induction false} VersionCountsChanges(t: Table, ops: seq<Op>, id: Id)
    requires ValidTable(t) && id in t.rows && id in Run(t, ops).rows
    ensures Run(t, ops).rows[id].configVersion == t.rows[id].configVersion + Changes(t, ops, id)
    decreases |ops|
  {
    if ops != [] {
      hide Apply;
      var before := ops[..|ops| - 1];
      RunFollows(t, before);
      ApplyFollows(Run(t, before), ops[|ops| - 1]);
      assert id in Run(t, before).rows;
      VersionCountsChanges(t, before, id);
      ApplyVersions(Run(t, before), ops[|ops| - 1], id);
    }
  }

  // ---- Writing back what was read ---------------------------------------------------------------------

  datatype Call = Call(req: Request, now: int)

  /** Undisturbed calls of the update handlers, one after another. */
  function Calls(t: Table, user: UserId, path: PathId, calls: seq<Call>): Table {
    if calls == [] then t
    else
      var c := calls[|calls| - 1];
      UpdateCall(Calls(t, user, path, calls[..|calls| - 1]), user, path, c.req, c.now).table
  }

  /** The calls that wrote. */
  function Successes(t: Table, user: UserId, path: PathId, calls: seq<Call>): nat {
    if calls == [] then 0
    else
      var c := calls[|calls| - 1];
      var before := Calls(t, user, path, calls[..|calls| - 1]);
      Successes(t, user, path, calls[..|calls| - 1])
        + if UpdateCall(before, user, path, c.req, c.now).result.Success? then 1 else 0
  }

  function Readable(c: SearcherConfig): SearcherConfig {
    c.(recordsPerPage := ReadablePageSize(c.recordsPerPage))
  }

  /** The filters stored after k write-backs of filters that decode to `c`. */
  function StoredAfter(j: Json, c: SearcherConfig, k: nat): Json {
    if k == 0 then j else if k == 1 then Encode(c) else Encode(Readable(c))
  }

  /** By how much k write-backs raise the version. */
  function Rise(j: Json, c: SearcherConfig, k: nat): nat {
    (if k >= 1 && Encode(c) != j then 1 else 0) + (if k >= 2 && c.recordsPerPage < 0 then 1 else 0)
  }

  lemma EncodeTellsPageSizes(c: SearcherConfig, n: int)
    requires Encode(c) == Encode(c.(recordsPerPage := n))
    ensures n == c.recordsPerPage
  {
    assert (n as real).Floor == n && (c.recordsPerPage as real).Floor == c.recordsPerPage;
  }

  /** Two page sizes are stored alike only if they are equal. */
  lemma ReadableIsStoredAlike(c: SearcherConfig)
    ensures Encode(c) == Encode(Readable(c)) <==> ReadablePageSize(c.recordsPerPage) == c.recordsPerPage
  {
    if Encode(c) == Encode(Readable(c)) {
      EncodeTellsPageSizes(c, ReadablePageSize(c.recordsPerPage));
    } else {
      assert ReadablePageSize(c.recordsPerPage) != c.recordsPerPage by {
        assert ReadablePageSize(c.recordsPerPage) == c.recordsPerPage ==> Readable(c) == c;
      }
    }
  }

  lemma EncodedIsReadable(c: SearcherConfig)
    requires -MAX_INT64 - 1 <= c.recordsPerPage <= MAX_INT64
    ensures Decode(Encode(c)) == Some(Readable(c))
    ensures Decode(Encode(Readable(c))) == Some(Readable(c))
  {
    hide Decode, Encode;
    DecodeEncode(c);
    DecodeEncode(Readable(c));
  }

  lemma SecondWriteBackChanges(j: Json, c: SearcherConfig)
    requires Decode(j) == Some(c)
    ensures Encode(c) != Encode(Readable(c)) <==> c.recordsPerPage < 0
  {
    DecodedPageSize(j);
    ReadableIsStoredAlike(c);
    hide Decode, Encode, Readable;
  }

  lemma StoredAfterIsRead(j: Json, c: SearcherConfig, k: nat)
    requires Decode(j) == Some(c)
    ensures Decode(StoredAfter(j, c, k)).Some?
    ensures Encode(Decode(StoredAfter(j, c, k)).value) == StoredAfter(j, c, k + 1)
    ensures Rise(j, c, k + 1) == Rise(j, c, k) + if StoredAfter(j, c, k) != StoredAfter(j, c, k + 1) then 1 else 0
  {
    hide Decode, Encode, Readable, ReadablePageSize;
    DecodedPageSize(j);
    EncodedIsReadable(c);
    SecondWriteBackChanges(j, c);
  }

  /** What k successful write-backs leave of the row of `id`. */
  predicate Settled(t: Table, t': Table, user: UserId, path: PathId, id: Id, k: nat)
    requires id in t.rows && Decode(t.rows[id].eisConfig).Some?
  {
    var j := t.rows[id].eisConfig;
    var c := Decode(j).value;
    && Locate(t', user, path) == Success(id)
    && t'.rows[id].eisConfig == StoredAfter(j, c, k)
    && t'.rows[id].configVersion == t.rows[id].configVersion + Rise(j, c, k)
  }

  lemma CallsStep(t: Table, user: UserId, path: PathId, calls: seq<Call>)
    requires calls != []
    ensures var front, last := calls[..|calls| - 1], calls[|calls| - 1];
      var o := UpdateCall(Calls(t, user, path, front), user, path, last.req, last.now);
      && Calls(t, user, path, calls) == o.table
      && Successes(t, user, path, calls) == Successes(t, user, path, front) + if o.result.Success? then 1 else 0
  {
    hide UpdateCall;
  }

  lemma NothingSettled(t: Table, user: UserId, path: PathId, id: Id)
    requires Locate(t, user, path) == Success(id) && Decode(t.rows[id].eisConfig).Some?
    ensures Settled(t, Calls(t, user, path, []), user, path, id, Successes(t, user, path, []))
  {
    hide Decode, Encode;
  }

  lemma SettledStep(t: Table, t': Table, user: UserId, path: PathId, call: Call, id: Id, k: nat)
    requires id in t.rows && Decode(t.rows[id].eisConfig).Some? && Settled(t, t', user, path, id, k)
    requires RequestedConfig(call.req) == None
    ensures var o := UpdateCall(t', user, path, call.req, call.now);
      Settled(t, o.table, user, path, id, k + if o.result.Success? then 1 else 0)
  {
    var j := t.rows[id].eisConfig;
    StoredAfterIsRead(j, Decode(j).value, k);
    hide Decode, Encode, StoredAfter, Rise, UpdateCall;
    OneWriteBack(t', user, path, call, id);
  }

  /** Write-backs without new filters settle: whatever decodable filters a row holds, k successful ones leave
      exactly these filters and raise the version by exactly so much. */
  lemma {:induction false} WriteBacksSettle(t: Table, user: UserId, path: PathId, calls: seq<Call>, id: Id)
    requires Locate(t, user, path) == Success(id) && Decode(t.rows[id].eisConfig).Some?
    requires forall c :: c in calls ==> RequestedConfig(c.req) == None
    ensures Settled(t, Calls(t, user, path, calls), user, path, id, Successes(t, user, path, calls))
    decreases |calls|
  {
    hide *;
    if calls == [] {
      NothingSettled(t, user, path, id);
    } else {
      var front, last := calls[..|calls| - 1], calls[|calls| - 1];
      WriteBacksSettle(t, user, path, front, id);
      CallsStep(t, user, path, calls);
      SettledStep(t, Calls(t, user, path, front), user, path, last, id, Successes(t, user, path, front));
    }
  }

  lemma WrittenRow(t: Table, user: UserId, path: PathId, p: Profile, now: int, id: Id)
    requires Locate(t, user, path) == Success(id)
    requires Decode(Encode(p.config)).Some?
    ensures var o, written := UpdateOutcome(t, user, path, p, now), Encode(p.config);
      && Locate(o.table, user, path) == Success(id)
      && (o.result.Failure? ==> o.table == t)
      && (o.result.Success? ==>
            && o.table.rows[id].eisConfig == written
            && o.table.rows[id].configVersion
               == t.rows[id].configVersion + if written != t.rows[id].eisConfig then 1 else 0)
  {
    hide Decode, Encode, NameFree;
  }

  /** One call without new filters writes what it read, or nothing. */
  lemma OneWriteBack(t: Table, user: UserId, path: PathId, call: Call, id: Id)
    requires Locate(t, user, path) == Success(id) && Decode(t.rows[id].eisConfig).Some?
    requires RequestedConfig(call.req) == None
    ensures var o := UpdateCall(t, user, path, call.req, call.now);
      var written := Encode(Decode(t.rows[id].eisConfig).value);
      && Locate(o.table, user, path) == Success(id)
      && (o.result.Failure? ==> o.table == t)
      && (o.result.Success? ==>
            && o.table.rows[id].eisConfig == written
            && o.table.rows[id].configVersion
               == t.rows[id].configVersion + if written != t.rows[id].eisConfig then 1 else 0)
  {
    ReadIsWrittenBack(Decode(t.rows[id].eisConfig).value, t.rows[id].eisConfig);
    hide Decode, Encode, Locate, UpdateOutcome, NameOr, DescriptionOr, TrimSpace;
    var amended := Amended(GetSearchProfile(t, user, path).value, call.req);
    if amended.Some? {
      WrittenRow(t, user, path, amended.value, call.now, id);
    }
  }

  lemma ReadIsWrittenBack(c: SearcherConfig, j: Json)
    requires Decode(j) == Some(c)
    ensures Decode(Encode(c)).Some?
  {
    DecodedPageSize(j);
    DecodeEncode(c);
  }

  /** So the version rises at most twice, and at most once unless the page size was stored as a text that
      holds a negative number. */
  lemma WriteBackRaisesAtMostTwice(j: Json, k: nat)
    requires Decode(j).Some?
    ensures Rise(j, Decode(j).value, k) <= 2
    ensures Rise(j, Decode(j).value, k) == 2 ==>
      j.Object? && j.members.records_per_page.String? && PageSizeText(j.members.records_per_page.s) < 0
  {
    hide PageSizeText;
  }
}
