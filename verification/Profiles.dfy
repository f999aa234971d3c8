/** The table of search profiles: what each SQL statement does to it, the store that runs them, and the
    handlers that read a row and write it back. */
module Profiles {
  import opened Wrappers
  import opened Text
  import opened Json
  import opened SearcherConfigs

  type Id = string
  type UserId = string

  /** An id as it stands in a request path: one of the spellings that the database reads as this id, number 0
      being the canonical text, or a text that it rejects. */
  datatype PathId = Spelled(id: Id, spelling: nat) | Malformed(text: string)

  /** A row of search_profiles. */
  datatype Row = Row(
    userID: UserId, name: string, description: string, source: string, eisConfig: Json, enabled: bool,
    autoAI: bool, configVersion: int, lastRunAt: Option<int>, createdAt: int, updatedAt: int)

  /** models.SearchProfile as the store returns and takes it. */
  datatype Profile = Profile(
    id: Id, userID: UserId, name: string, description: string, source: string, config: SearcherConfig,
    eisConfig: SearcherConfig, enabled: bool, autoAI: bool, configVersion: int, lastRunAt: Option<int>,
    createdAt: int, updatedAt: int)

  /** The rows, and every id ever given to one: ids are generated and do not come again. */
  datatype Table = Table(rows: map<Id, Row>, used: set<Id>)

  ghost predicate ValidTable(t: Table) {
    t.rows.Keys <= t.used
  }

  datatype Error = NotFound | InvalidId | NameTaken | IdTaken | UndecodableConfig | UnsupportedSource

  /** What a statement leaves behind and what the store returns for it. */
  datatype Outcome = Outcome(table: Table, result: Result<Profile, Error>)

  // ---- The statements ---------------------------------------------------------------------------------

  /** scanProfile */
  function Scan(id: Id, row: Row): Result<Profile, Error> {
    match Decode(row.eisConfig)
    case None => Failure(UndecodableConfig)
    case Some(c) => Success(Profile(
      id, row.userID, row.name, row.description, row.source, c, c, row.enabled, row.autoAI,
      row.configVersion, row.lastRunAt, row.createdAt, row.updatedAt))
  }

  /** WHERE id = $1 AND user_id = $2 */
  function Locate(t: Table, user: UserId, path: PathId): (r: Result<Id, Error>)
    ensures r.Success? ==> path.Spelled? && path.id == r.value
    ensures r.Success? ==> r.value in t.rows && t.rows[r.value].userID == user
  {
    if path.Malformed? then Failure(InvalidId)
    else if path.id in t.rows && t.rows[path.id].userID == user then Success(path.id)
    else Failure(NotFound)
  }

  function OrEis(source: string): string {
    if source == "" then "eis" else source
  }

  /** UNIQUE (user_id, name), seen from the row `id`. */
  predicate NameFree(t: Table, user: UserId, name: string, id: Id) {
    forall other :: other in t.rows && other != id ==> t.rows[other].userID != user || t.rows[other].name != name
  }

  function Put(t: Table, id: Id, row: Row): Table {
    Table(t.rows[id := row], t.used + {id})
  }

  function GetSearchProfile(t: Table, user: UserId, path: PathId): Result<Profile, Error> {
    match Locate(t, user, path)
    case Failure(e) => Failure(e)
    case Success(id) => Scan(id, t.rows[id])
  }

  function NewRow(user: UserId, p: Profile, now: int): Row {
    Row(user, p.name, p.description, OrEis(p.source), Encode(p.config), p.enabled, p.autoAI, 1, None, now, now)
  }

  function CreateOutcome(t: Table, user: UserId, p: Profile, id: Id, now: int): Outcome {
    if id in t.used then Outcome(t, Failure(IdTaken))
    else if !NameFree(t, user, p.name, id) then Outcome(t, Failure(NameTaken))
    else
      var row := NewRow(user, p, now);
      Outcome(Put(t, id, row), Scan(id, row))
  }

  function UpdatedRow(row: Row, p: Profile, now: int): Row {
    var written := Encode(p.config);
    row.(name := p.name, description := p.description, source := OrEis(p.source), eisConfig := written,
         enabled := p.enabled, autoAI := p.autoAI,
         configVersion := if row.eisConfig != written then row.configVersion + 1 else row.configVersion,
         updatedAt := now)
  }

  function UpdateOutcome(t: Table, user: UserId, path: PathId, p: Profile, now: int): Outcome {
    match Locate(t, user, path)
    case Failure(e) => Outcome(t, Failure(e))
    case Success(id) =>
      if !NameFree(t, user, p.name, id) then Outcome(t, Failure(NameTaken))
      else
        var row := UpdatedRow(t.rows[id], p, now);
        Outcome(Put(t, id, row), Scan(id, row))
  }

  function AutoAIOutcome(t: Table, user: UserId, path: PathId, enabled: bool, now: int): Outcome {
    match Locate(t, user, path)
    case Failure(e) => Outcome(t, Failure(e))
    case Success(id) =>
      var row := t.rows[id].(autoAI := enabled, updatedAt := now);
      Outcome(Put(t, id, row), Scan(id, row))
  }

  function TouchOutcome(t: Table, user: UserId, path: PathId, at: int, now: int): Outcome {
    match Locate(t, user, path)
    case Failure(e) => Outcome(t, Failure(e))
    case Success(id) =>
      var row := t.rows[id].(lastRunAt := Some(at), updatedAt := now);
      Outcome(Put(t, id, row), Scan(id, row))
  }

  function DeletedTable(t: Table, user: UserId, path: PathId): Table {
    match Locate(t, user, path)
    case Failure(_) => t
    case Success(id) => t.(rows := t.rows - {id})
  }

  // ---- In terms of columns --------------------------------------------------------------------------------

  /** The path names a row of this user. */
  ghost predicate Owns(rows: map<Id, Row>, user: UserId, path: PathId) {
    path.Spelled? && path.id in rows && rows[path.id].userID == user
  }

  /** Another row of this user has the name. */
  ghost predicate TakenName(rows: map<Id, Row>, user: UserId, name: string, id: Id) {
    exists other :: other in rows && other != id && rows[other].userID == user && rows[other].name == name
  }

  /** What the store reports where the path names no row of the user. */
  ghost predicate Found(rows: map<Id, Row>, user: UserId, path: PathId, r: Result<Profile, Error>) {
    && (r == Failure(InvalidId) <==> path.Malformed?)
    && (r == Failure(NotFound) <==> path.Spelled? && !Owns(rows, user, path))
  }

  /** The row as it is returned: column by column, with its filters decoded, or an error if they cannot be. */
  ghost predicate ReadAs(id: Id, row: Row, r: Result<Profile, Error>) {
    && (Decode(row.eisConfig).None? ==> r == Failure(UndecodableConfig))
    && (Decode(row.eisConfig).Some? ==>
          && r.Success? && r.value.id == id && r.value.userID == row.userID && r.value.name == row.name
          && r.value.description == row.description && r.value.source == row.source
          && Some(r.value.config) == Some(r.value.eisConfig) == Decode(row.eisConfig)
          && r.value.enabled == row.enabled && r.value.autoAI == row.autoAI
          && r.value.configVersion == row.configVersion && r.value.lastRunAt == row.lastRunAt
          && r.value.createdAt == row.createdAt && r.value.updatedAt == row.updatedAt)
  }

  /** What a successful update makes of a row: what the request names is stored, everything else is as it was, and
      the version rises by one exactly if the stored filters change. */
  ghost predicate AsAsked(was: Row, row: Row, req: Request, now: int) {
    && (req.config.Some? ==> row.eisConfig == Encode(req.config.value))
    && (req.config.None? && req.ProfileRequest? && req.eisConfig.Some? ==>
          row.eisConfig == Encode(req.eisConfig.value))
    && (req.config.None? && (req.ProfileRequest? ==> req.eisConfig.None?) ==>
          Decode(was.eisConfig).Some? && row.eisConfig == Encode(Decode(was.eisConfig).value))
    && row.configVersion == was.configVersion + (if row.eisConfig == was.eisConfig then 0 else 1)
    && row.name == (if TrimSpace(req.name) == "" then was.name else TrimSpace(req.name))
    && row.autoAI == (if req.autoAI.Some? then req.autoAI.value else was.autoAI)
    && row.enabled == (if req.ProfileRequest? && req.enabled.Some? then req.enabled.value else was.enabled)
    && row.description
       == (if req.ProfileRequest? && (req.description != "" || req.name != "") then TrimSpace(req.description)
           else was.description)
    && row.source
       == (if (req.ProfileRequest? && TrimSpace(req.source) != "") || was.source == "" then "eis" else was.source)
    && row.userID == was.userID && row.createdAt == was.createdAt && row.lastRunAt == was.lastRunAt
    && row.updatedAt == now
  }

  /** When an update succeeds: the row is the user's and readable, the source is none or "eis", the name is not
      taken, and the new filters are readable. */
  ghost predicate CanUpdate(rows: map<Id, Row>, user: UserId, path: PathId, req: Request) {
    && Owns(rows, user, path)
    && Decode(rows[path.id].eisConfig).Some?
    && (req.ProfileRequest? ==> TrimSpace(req.source) in {"", "eis"})
    && !TakenName(rows, user, if TrimSpace(req.name) == "" then rows[path.id].name else TrimSpace(req.name), path.id)
    && (req.config.Some? ==> Decode(Encode(req.config.value)).Some?)
    && (req.config.None? && req.ProfileRequest? && req.eisConfig.Some? ==>
          Decode(Encode(req.eisConfig.value)).Some?)
    && (req.config.None? && (req.ProfileRequest? ==> req.eisConfig.None?) ==>
          Decode(Encode(Decode(rows[path.id].eisConfig).value)).Some?)
  }

  lemma CallStores(t: Table, user: UserId, path: PathId, req: Request, now: int)
    ensures var o := UpdateCall(t, user, path, req, now);
      && (o.result.Success? <==> CanUpdate(t.rows, user, path, req))
      && (o.result.Success? ==>
            && path.id in o.table.rows && o.table.rows == t.rows[path.id := o.table.rows[path.id]]
            && AsAsked(t.rows[path.id], o.table.rows[path.id], req, now)
            && ReadAs(path.id, o.table.rows[path.id], o.result))
      && (o.result.Failure? && o.result.error != UndecodableConfig ==> o.table.rows == t.rows)
  {
    hide Encode, Decode, TrimSpace;
  }

  // ---- The store ------------------------------------------------------------------------------------------

  /** Each statement commits by itself. A row that was written but cannot be decoded is an error to the caller
      and stays written. */
  class Store {
    var rows: map<Id, Row>
    var used: set<Id>

    function Contents(): Table
      reads this
    {
      Table(rows, used)
    }

    constructor (rows: map<Id, Row>)
      ensures Contents() == Table(rows, rows.Keys) && ValidTable(Contents())
    {
      this.rows, this.used := rows, rows.Keys;
    }

    method Write(id: Id, row: Row) returns (r: Result<Profile, Error>)
      modifies this
      ensures Contents() == Put(old(Contents()), id, row)
      ensures rows == old(rows)[id := row] && used == old(used) + {id}
      ensures r == Scan(id, row) && ReadAs(id, row, r) && (r.Failure? ==> r.error == UndecodableConfig)
    {
      rows := rows[id := row];
      used := used + {id};
      r := Scan(id, row);
    }

    method CreateSearchProfile(user: UserId, p: Profile, id: Id, now: int) returns (r: Result<Profile, Error>)
      modifies this
      ensures Outcome(Contents(), r) == CreateOutcome(old(Contents()), user, p, id, now)
      // A new row exactly if neither the id nor the name is taken; the name is taken within a user's own rows.
      ensures r == Failure(IdTaken) <==> id in old(used)
      ensures r == Failure(NameTaken) <==> id !in old(used) && TakenName(old(rows), user, p.name, id)
      ensures id in old(used) || TakenName(old(rows), user, p.name, id) ==> Contents() == old(Contents())
      ensures id !in old(used) && !TakenName(old(rows), user, p.name, id) ==>
        var source := if p.source == "" then "eis" else p.source;
        var row := Row(user, p.name, p.description, source, Encode(p.config), p.enabled, p.autoAI, 1, None, now, now);
        rows == old(rows)[id := row] && used == old(used) + {id} && ReadAs(id, row, r)
    {
      hide Encode, Scan, ReadAs;
      if id in used {
        return Failure(IdTaken);
      }
      if !NameFree(Contents(), user, p.name, id) {
        return Failure(NameTaken);
      }
      r := Write(id, NewRow(user, p, now));
    }

    method UpdateSearchProfile(user: UserId, path: PathId, p: Profile, now: int) returns (r: Result<Profile, Error>)
      modifies this
      ensures Outcome(Contents(), r) == UpdateOutcome(old(Contents()), user, path, p, now)
      ensures Found(old(rows), user, path, r)
      ensures !Owns(old(rows), user, path) || TakenName(old(rows), user, p.name, path.id) ==>
        Contents() == old(Contents()) && (Owns(old(rows), user, path) ==> r == Failure(NameTaken))
      ensures Owns(old(rows), user, path) && !TakenName(old(rows), user, p.name, path.id) ==>
        var was, written := old(rows)[path.id], Encode(p.config);
        var row := was.(
          name := p.name, description := p.description, source := if p.source == "" then "eis" else p.source,
          eisConfig := written, enabled := p.enabled, autoAI := p.autoAI,
          configVersion := was.configVersion + (if was.eisConfig == written then 0 else 1), updatedAt := now);
        rows == old(rows)[path.id := row] && ReadAs(path.id, row, r)
    {
      hide Encode, Scan, ReadAs;
      var found := Locate(Contents(), user, path);
      if found.Failure? {
        return Failure(found.error);
      }
      if !NameFree(Contents(), user, p.name, found.value) {
        return Failure(NameTaken);
      }
      var written := Encode(p.config);
      var row := rows[found.value];
      if row.eisConfig != written {
        row := row.(configVersion := row.configVersion + 1);
      }
      row := row.(name := p.name, description := p.description, source := OrEis(p.source), eisConfig := written,
                  enabled := p.enabled, autoAI := p.autoAI, updatedAt := now);
      r := Write(found.value, row);
    }

    method SetSearcherAutoAI(user: UserId, path: PathId, enabled: bool, now: int) returns (r: Result<Profile, Error>)
      modifies this
      ensures Outcome(Contents(), r) == AutoAIOutcome(old(Contents()), user, path, enabled, now)
      ensures Found(old(rows), user, path, r) && (!Owns(old(rows), user, path) ==> Contents() == old(Contents()))
      ensures Owns(old(rows), user, path) ==>
        var row := old(rows)[path.id].(autoAI := enabled, updatedAt := now);
        rows == old(rows)[path.id := row] && ReadAs(path.id, row, r)
    {
      hide Scan, ReadAs;
      var found := Locate(Contents(), user, path);
      if found.Failure? {
        return Failure(found.error);
      }
      r := Write(found.value, rows[found.value].(autoAI := enabled, updatedAt := now));
    }

    method TouchSearcherRun(user: UserId, path: PathId, at: int, now: int) returns (r: Result<Profile, Error>)
      modifies this
      ensures Outcome(Contents(), r) == TouchOutcome(old(Contents()), user, path, at, now)
      ensures Found(old(rows), user, path, r) && (!Owns(old(rows), user, path) ==> Contents() == old(Contents()))
      ensures Owns(old(rows), user, path) ==>
        var row := old(rows)[path.id].(lastRunAt := Some(at), updatedAt := now);
        rows == old(rows)[path.id := row] && ReadAs(path.id, row, r)
    {
      hide Scan, ReadAs;
      var found := Locate(Contents(), user, path);
      if found.Failure? {
        return Failure(found.error);
      }
      r := Write(found.value, rows[found.value].(lastRunAt := Some(at), updatedAt := now));
    }

    method DeleteSearchProfile(user: UserId, path: PathId) returns (err: Option<Error>)
      modifies this
      ensures Contents() == DeletedTable(old(Contents()), user, path)
      ensures err == match Locate(old(Contents()), user, path) case Success(_) => None case Failure(e) => Some(e)
      ensures Owns(old(rows), user, path) <==> err == None
      ensures rows == if Owns(old(rows), user, path) then old(rows) - {path.id} else old(rows)
      ensures used == old(used)
    {
      var found := Locate(Contents(), user, path);
      if found.Failure? {
        return Some(found.error);
      }
      rows := rows - {found.value};
      err := None;
    }

    /** handleUpdateSearcher, with nothing in between its read and its write. */
    method HandleUpdateSearcher(user: UserId, path: PathId, req: Request, now: int)
        returns (r: Result<Profile, Error>)
      requires req.SearcherRequest?
      modifies this
      ensures Outcome(Contents(), r) == UpdateCall(old(Contents()), user, path, req, now)
      ensures r.Success? <==> CanUpdate(old(rows), user, path, req)
      ensures r.Success? ==>
        && path.id in rows && rows == old(rows)[path.id := rows[path.id]]
        && AsAsked(old(rows)[path.id], rows[path.id], req, now) && ReadAs(path.id, rows[path.id], r)
      ensures r.Failure? && r.error != UndecodableConfig ==> rows == old(rows)
    {
      CallStores(Contents(), user, path, req, now);
      hide AsAsked, CanUpdate, ReadAs;
      var got := GetSearchProfile(Contents(), user, path);
      if got.Failure? {
        return got;
      }
      var existing := got.value;
      if TrimSpace(req.name) != "" {
        existing := existing.(name := TrimSpace(req.name));
      }
      if req.config.Some? {
        existing := existing.(config := req.config.value, eisConfig := req.config.value);
      }
      if req.autoAI.Some? {
        existing := existing.(autoAI := req.autoAI.value);
      }
      r := UpdateSearchProfile(user, path, existing, now);
    }

    /** handleUpdateProfile, likewise. */
    method HandleUpdateProfile(user: UserId, path: PathId, req: Request, now: int)
        returns (r: Result<Profile, Error>)
      requires req.ProfileRequest?
      modifies this
      ensures Outcome(Contents(), r) == UpdateCall(old(Contents()), user, path, req, now)
      ensures r.Success? <==> CanUpdate(old(rows), user, path, req)
      ensures r.Success? ==>
        && path.id in rows && rows == old(rows)[path.id := rows[path.id]]
        && AsAsked(old(rows)[path.id], rows[path.id], req, now) && ReadAs(path.id, rows[path.id], r)
      ensures r.Failure? && r.error != UndecodableConfig ==> rows == old(rows)
    {
      CallStores(Contents(), user, path, req, now);
      hide AsAsked, CanUpdate, ReadAs;
      hide UpdateOutcome, TrimSpace, Decode;
      var got := GetSearchProfile(Contents(), user, path);
      if got.Failure? {
        return got;
      }
      var existing := got.value;
      existing := existing.(name := NameOr(req.name, existing.name));
      existing := existing.(description := DescriptionOr(req, existing.description));
      var config := if req.config.Some? then req.config else req.eisConfig;
      existing := existing.(config := Or(config, existing.config), eisConfig := Or(config, existing.eisConfig));
      existing := existing.(enabled := Or(req.enabled, existing.enabled));
      existing := existing.(autoAI := Or(req.autoAI, existing.autoAI));
      var src := TrimSpace(req.source);
      if src != "" {
        if src != "eis" {
          return Failure(UnsupportedSource);
        }
        existing := existing.(source := src);
      }
      r := UpdateSearchProfile(user, path, existing, now);
    }
  }

  // ---- The read-modify-write handlers ---------------------------------------------------------------------

  /** The bodies of the two update requests. */
  datatype Request =
    | SearcherRequest(name: string, config: Option<SearcherConfig>, autoAI: Option<bool>)
    | ProfileRequest(name: string, config: Option<SearcherConfig>, autoAI: Option<bool>, description: string,
                     source: string, eisConfig: Option<SearcherConfig>, enabled: Option<bool>)

  function Or<T>(wanted: Option<T>, existing: T): T {
    if wanted.Some? then wanted.value else existing
  }

  function NameOr(name: string, existing: string): string {
    if TrimSpace(name) != "" then TrimSpace(name) else existing
  }

  /** A request that names the profile also sets its description, even to nothing. */
  function DescriptionOr(req: Request, existing: string): string
    requires req.ProfileRequest?
  {
    if req.description != "" || req.name != "" then TrimSpace(req.description) else existing
  }

  /** The configuration that a request asks for, if it does. */
  function RequestedConfig(req: Request): Option<SearcherConfig> {
    if req.config.Some? || req.SearcherRequest? then req.config else req.eisConfig
  }

  /** What an update handler makes of the profile that it read; None where it refuses the request. */
  function Amended(p: Profile, req: Request): Option<Profile> {
    var q := p.(name := NameOr(req.name, p.name), config := Or(RequestedConfig(req), p.config),
                eisConfig := Or(RequestedConfig(req), p.eisConfig), autoAI := Or(req.autoAI, p.autoAI));
    if req.SearcherRequest? then Some(q)
    else if TrimSpace(req.source) !in {"", "eis"} then None
    else Some(q.(
      description := DescriptionOr(req, p.description),
      enabled := Or(req.enabled, p.enabled),
      source := if TrimSpace(req.source) == "" then p.source else "eis"))
  }

  /** An undisturbed call of an update handler. */
  function UpdateCall(t: Table, user: UserId, path: PathId, req: Request, now: int): Outcome {
    match GetSearchProfile(t, user, path)
    case Failure(e) => Outcome(t, Failure(e))
    case Success(p) =>
      match Amended(p, req)
      case None => Outcome(t, Failure(UnsupportedSource))
      case Some(q) => UpdateOutcome(t, user, path, q, now)
  }
}
