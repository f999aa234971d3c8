/** The sessions table: logins, lookups, logouts and the removal of expired sessions, on a clock that never goes
    back. Tokens stand here by their hashes. */
module Sessions {
  import opened Wrappers

  datatype Session = Session(user: string, expires: int)

  /** The table, by token hash. */
  type Table = map<string, Session>

  datatype Op =
    | Login(hash: string, user: string, expires: int)
    | Lookup(hash: string, at: int)
    | Logout(hash: string)
    | Cleanup(at: int)

  /** UserByTokenHash */
  function UserAt(t: Table, hash: string, now: int): Option<string> {
    if hash in t && t[hash].expires > now then Some(t[hash].user) else None
  }

  function Unexpired(t: Table, now: int): Table {
    map hash | hash in t && t[hash].expires > now :: t[hash]
  }

  function Apply(t: Table, op: Op): Table {
    match op
    case Login(hash, user, expires) => if hash in t then t else t[hash := Session(user, expires)]
    case Lookup(_, _) => t
    case Logout(hash) => t - {hash}
    case Cleanup(at) => Unexpired(t, at)
  }

  function Run(t: Table, ops: seq<Op>): Table {
    if ops == [] then t else Apply(Run(t, ops[..|ops| - 1]), ops[|ops| - 1])
  }

  /** The answers of the lookups of a run, in order. */
  function Answers(t: Table, ops: seq<Op>): seq<Option<string>> {
    if ops == [] then []
    else
      var before, op := ops[..|ops| - 1], ops[|ops| - 1];
      Answers(t, before) + if op.Lookup? then [UserAt(Run(t, before), op.hash, op.at)] else []
  }

  class SessionStore {
    var rows: map<string, Session>

    constructor ()
      ensures rows == map[]
    {
      rows := map[];
    }

    /** The hash is unique in the table. */
    method CreateSession(user: string, hash: string, expires: int) returns (ok: bool)
      modifies this
      ensures rows == Apply(old(rows), Login(hash, user, expires)) && (ok <==> hash !in old(rows))
      ensures rows == if hash in old(rows) then old(rows) else old(rows)[hash := Session(user, expires)]
    {
      if hash in rows {
        return false;
      }
      rows := rows[hash := Session(user, expires)];
      ok := true;
    }

    method UserByTokenHash(hash: string, now: int) returns (user: Option<string>)
      ensures user == UserAt(rows, hash, now)
      ensures user == if hash in rows && rows[hash].expires > now then Some(rows[hash].user) else None
    {
      if hash !in rows || rows[hash].expires <= now {
        return None;
      }
      user := Some(rows[hash].user);
    }

    method DeleteSession(hash: string)
      modifies this
      ensures rows == Apply(old(rows), Logout(hash)) && rows == old(rows) - {hash}
    {
      rows := rows - {hash};
    }

    method DeleteExpiredSessions(now: int) returns (deleted: nat)
      modifies this
      ensures rows == Apply(old(rows), Cleanup(now))
      ensures forall hash :: hash in rows <==> hash in old(rows) && old(rows)[hash].expires > now
      ensures forall hash :: hash in rows ==> rows[hash] == old(rows)[hash]
      ensures deleted == |old(rows)| - |rows|
    {
      var kept := map hash | hash in rows && rows[hash].expires > now :: rows[hash];
      Fewer(kept, rows);
      deleted := |rows| - |kept|;
      rows := kept;
    }
  }

  lemma Fewer(kept: Table, rows: Table)
    requires kept.Keys <= rows.Keys
    ensures |kept| <= |rows|
  {
    assert rows.Keys == kept.Keys + (rows.Keys - kept.Keys);
    assert |kept.Keys| + |rows.Keys - kept.Keys| == |rows.Keys|;
  }

  // ---- Runs ------------------------------------------------------------------------------------------------

  /** The clock of the operations that read it never goes back, and stays within these bounds. */
  ghost predicate Ticks(ops: seq<Op>, from: int, to: int) {
    && (forall i :: 0 <= i < |ops| && (ops[i].Lookup? || ops[i].Cleanup?) ==> from <= ops[i].at <= to)
    && forall i, j :: 0 <= i < j < |ops| && (ops[i].Lookup? || ops[i].Cleanup?) && (ops[j].Lookup? || ops[j].Cleanup?)
         ==> ops[i].at <= ops[j].at
  }

  /** Every login has a token of its own. */
  ghost predicate FreshTokens(ops: seq<Op>) {
    forall i, j :: 0 <= i < j < |ops| && ops[i].Login? && ops[j].Login? ==> ops[i].hash != ops[j].hash
  }

  /** Login i made this session, and no later logout ended it. */
  ghost predicate LoggedInBy(ops: seq<Op>, i: nat, hash: string, s: Session) {
    && i < |ops|
    && ops[i] == Login(hash, s.user, s.expires)
    && forall j :: i < j < |ops| ==> ops[j] != Logout(hash)
  }

  ghost predicate LoggedIn(ops: seq<Op>, hash: string, s: Session) {
    exists i: nat :: LoggedInBy(ops, i, hash, s)
  }

  /** One operation more. */
  lemma LoggedInStep(ops: seq<Op>, hash: string, s: Session)
    requires ops != [] && FreshTokens(ops)
    ensures var before, op := ops[..|ops| - 1], ops[|ops| - 1];
      LoggedIn(ops, hash, s)
      <==> op == Login(hash, s.user, s.expires) || (LoggedIn(before, hash, s) && op != Logout(hash))
  {
    var before, op := ops[..|ops| - 1], ops[|ops| - 1];
    if LoggedIn(ops, hash, s) {
      var i: nat :| LoggedInBy(ops, i, hash, s);
      if i < |before| {
        assert LoggedInBy(before, i, hash, s);
      }
    }
    if op == Login(hash, s.user, s.expires) {
      assert LoggedInBy(ops, |before|, hash, s);
    } else if LoggedIn(before, hash, s) && op != Logout(hash) {
      var i: nat :| LoggedInBy(before, i, hash, s);
      assert LoggedInBy(ops, i, hash, s);
    }
  }

  lemma {:induction false} TableComesFromLogins(ops: seq<Op>)
    ensures forall hash :: hash in Run(map[], ops) ==>
      exists i :: 0 <= i < |ops| && ops[i].Login? && ops[i].hash == hash
    decreases |ops|
  {
    if ops != [] {
      var before, op := ops[..|ops| - 1], ops[|ops| - 1];
      TableComesFromLogins(before);
      forall hash | hash in Run(map[], ops) ensures exists i :: 0 <= i < |ops| && ops[i].Login? && ops[i].hash == hash {
        if hash in Run(map[], before) {
          var i :| 0 <= i < |before| && before[i].Login? && before[i].hash == hash;
          assert ops[i].hash == hash;
        } else {
          assert ops[|before|].hash == hash;
        }
      }
    }
  }

  lemma LoginFindsNoRow(ops: seq<Op>)
    requires ops != [] && FreshTokens(ops)
    ensures ops[|ops| - 1].Login? ==> ops[|ops| - 1].hash !in Run(map[], ops[..|ops| - 1])
  {
    hide Run;
    TableComesFromLogins(ops[..|ops| - 1]);
  }

  /** A row of the table is a login without a logout, and such a login has its row unless it has expired. */
  lemma {:induction false} RowsAreLogins(ops: seq<Op>, from: int, to: int, hash: string, s: Session)
    requires FreshTokens(ops) && Ticks(ops, from, to)
    ensures var t := Run(map[], ops);
      && (hash in t && t[hash] == s ==> LoggedIn(ops, hash, s))
      && (LoggedIn(ops, hash, s) && s.expires > to ==> hash in t && t[hash] == s)
    decreases |ops|
  {
    if ops == [] {
    } else {
      var before, op := ops[..|ops| - 1], ops[|ops| - 1];
      RowsAreLogins(before, from, to, hash, s);
      LoggedInStep(ops, hash, s);
      LoginFindsNoRow(ops);
      hide LoggedIn;
    }
  }

  /** A token is accepted at a time exactly if a login made it, it expires after that time, and no logout ended
      it, whatever clean-ups took place. */
  lemma TokenAcceptedExactlyWhileLoggedIn(ops: seq<Op>, from: int, now: int, hash: string, user: string)
    requires FreshTokens(ops) && Ticks(ops, from, now)
    ensures UserAt(Run(map[], ops), hash, now) == Some(user)
       <==> exists expires :: LoggedIn(ops, hash, Session(user, expires)) && expires > now
  {
    var t := Run(map[], ops);
    if UserAt(t, hash, now) == Some(user) {
      RowsAreLogins(ops, from, now, hash, t[hash]);
      assert t[hash] == Session(user, t[hash].expires);
    }
    if expires :| LoggedIn(ops, hash, Session(user, expires)) && expires > now {
      RowsAreLogins(ops, from, now, hash, Session(user, expires));
    }
  }

  // ---- Clean-ups are invisible ---------------------------------------------------------------------------

  /** The tables agree on what has not expired, and the lean one has nothing that the other has not. */
  ghost predicate Agree(full: Table, lean: Table, now: int) {
    && lean.Keys <= full.Keys
    && (forall hash :: hash in lean ==> lean[hash] == full[hash])
    && forall hash :: hash in full && full[hash].expires > now ==> hash in lean
  }

  lemma ApplyAgrees(full: Table, lean: Table, now: int, op: Op)
    requires Agree(full, lean, now)
    requires op.Login? ==> op.hash !in full
    requires op.Lookup? || op.Cleanup? ==> op.at >= now
    ensures Agree(Apply(full, op), Apply(lean, op), now)
    ensures op.Lookup? ==> UserAt(full, op.hash, op.at) == UserAt(lean, op.hash, op.at)
  {
  }

  /** From now on, no login finds its token in the table. */
  ghost predicate NewTo(t: Table, ops: seq<Op>) {
    && FreshTokens(ops)
    && forall i :: 0 <= i < |ops| && ops[i].Login? ==> ops[i].hash !in t
  }

  lemma {:induction false} RunAgrees(full: Table, lean: Table, now: int, ops: seq<Op>)
    requires Agree(full, lean, now) && NewTo(full, ops)
    requires forall i :: 0 <= i < |ops| && (ops[i].Lookup? || ops[i].Cleanup?) ==> ops[i].at >= now
    ensures Agree(Run(full, ops), Run(lean, ops), now)
    ensures Answers(full, ops) == Answers(lean, ops)
    ensures forall hash :: hash in Run(full, ops) ==>
      hash in full || exists i :: 0 <= i < |ops| && ops[i].Login? && ops[i].hash == hash
    decreases |ops|
  {
    if ops != [] {
      var before, op := ops[..|ops| - 1], ops[|ops| - 1];
      RunAgrees(full, lean, now, before);
      assert op.Login? ==> op.hash !in Run(full, before);
      ApplyAgrees(Run(full, before), Run(lean, before), now, op);
      forall hash | hash in Run(full, ops) && hash !in full
        ensures exists i :: 0 <= i < |ops| && ops[i].Login? && ops[i].hash == hash
      {
        if hash in Run(full, before) {
          var i :| 0 <= i < |before| && before[i].Login? && before[i].hash == hash;
          assert ops[i].hash == hash;
        } else {
          assert ops[|before|].hash == hash;
        }
      }
      hide Agree, Apply;
    }
  }

  lemma {:induction false} AnswersConcat(t: Table, a: seq<Op>, b: seq<Op>)
    ensures Run(t, a + b) == Run(Run(t, a), b)
    ensures Answers(t, a + b) == Answers(t, a) + Answers(Run(t, a), b)
    decreases |b|
  {
    if b == [] {
      assert a + b == a;
    } else {
      hide Apply;
      AnswersConcat(t, a, b[..|b| - 1]);
      assert (a + b)[..|a + b| - 1] == a + b[..|b| - 1];
    }
  }

  /** A clean-up put anywhere into a run, at the time that it is there, changes no answer of any lookup. */
  lemma CleanupIsInvisible(a: seq<Op>, now: int, b: seq<Op>, from: int, to: int)
    requires FreshTokens(a + b) && Ticks(a + [Cleanup(now)] + b, from, to)
    ensures Answers(map[], a + [Cleanup(now)] + b) == Answers(map[], a + b)
  {
    hide *;
    var t := Run(map[], a);
    AnswersConcat(map[], a, [Cleanup(now)]);
    AnswersConcat(map[], a + [Cleanup(now)], b);
    AnswersConcat(map[], a, b);
    CleanupAlone(t, now);
    WhatFollows(a, now, b, from, to);
    RunAgrees(t, Unexpired(t, now), now, b);
  }

  lemma CleanupAlone(t: Table, now: int)
    ensures Run(t, [Cleanup(now)]) == Unexpired(t, now) && Answers(t, [Cleanup(now)]) == []
    ensures Agree(t, Unexpired(t, now), now)
  {
    var ops := [Cleanup(now)];
    assert ops[..|ops| - 1] == [];
  }

  lemma WhatFollows(a: seq<Op>, now: int, b: seq<Op>, from: int, to: int)
    requires FreshTokens(a + b) && Ticks(a + [Cleanup(now)] + b, from, to)
    ensures NewTo(Run(map[], a), b)
    ensures forall i :: 0 <= i < |b| && (b[i].Lookup? || b[i].Cleanup?) ==> b[i].at >= now
  {
    hide Run;
    var all := a + [Cleanup(now)] + b;
    assert all[|a|] == Cleanup(now);
    assert forall i :: 0 <= i < |b| ==> b[i] == all[|a| + 1 + i] && b[i] == (a + b)[|a| + i];
    assert forall i :: 0 <= i < |a| ==> a[i] == (a + b)[i];
    TableComesFromLogins(a);
  }
}
