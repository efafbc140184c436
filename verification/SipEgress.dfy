/**
  Outbound call admissions and one-shot egress permits, as PostgreSQL triggers fence them. Each
  function is one statement: `None` is an exception, which rolls the statement back. A trigger reads
  the clock more than once; `now` is its first reading and `later` its last.
*/
module SipEgress {
  import opened Prelude
  import opened Trails

  type Id = nat
  type Time = int

  /** Clock readings are in microseconds. */
  const SECOND: Time := 1_000_000
  const TTL: Time := 30 * SECOND

  datatype AdmissionState = Pending | Dispatched | Withdrawn

  datatype Admission = Admission(organization: Id, owner: Id, state: AdmissionState, createdAt: Time, expiresAt: Time)

  datatype PermitState = Authorized | Consumed | Ended | Ambiguous | Expired | Revoked

  /** `binding` stands for the columns no statement may change besides those named here. */
  datatype Permit = Permit(organization: Id, call: Id, account: Id, peer: Id, token: string, binding: string,
                           state: PermitState, issuedAt: Time, expiresAt: Time,
                           edge: Option<Id>, boot: Option<Id>, digest: Option<string>)

  datatype EgressRoute = EgressRoute(organization: Id, peer: Id, edge: Id, boot: Id, digest: string, authorizedAt: Time)

  datatype Tables = Tables(admissions: map<Id, Admission>, permits: map<Id, Permit>, routes: map<Id, EgressRoute>,
                           history: seq<Entry<PermitState, ()>>)

  const Empty := Tables(map[], map[], map[], [])

  predicate Hex64(s: string) {
    |s| == 64 && forall i | 0 <= i < |s| :: '0' <= s[i] <= '9' || 'a' <= s[i] <= 'f'
  }

  /** A permit that was consumed at some time. */
  predicate Taken(s: PermitState) {
    s == Consumed || s == Ended || s == Ambiguous
  }

  predicate Admitted(admissions: map<Id, Admission>, organization: Id, call: Id) {
    call in admissions && admissions[call].organization == organization
  }

  // ----- admissions ---------------------------------------------------------------------

  function InsertAdmission(db: Tables, call: Id, row: Admission, now: Time): Option<Tables> {
    if row.state != Pending || call in db.admissions then None
    else Some(db.(admissions := db.admissions[call := row.(createdAt := now, expiresAt := now + TTL)]))
  }

  predicate LivePermit(permits: map<Id, Permit>, organization: Id, call: Id, now: Time) {
    exists p | p in permits :: permits[p].organization == organization && permits[p].call == call
                               && permits[p].state == Authorized && permits[p].expiresAt > now
  }

  function UpdateAdmission(db: Tables, call: Id, row: Admission, now: Time, later: Time): Option<Tables> {
    if call !in db.admissions then Some(db)
    else
      var was := db.admissions[call];
      if row.(state := was.state) != was || was.state != Pending || row.state == Pending then None
      else if row.state == Dispatched && (row.expiresAt <= now
        || !LivePermit(db.permits, row.organization, call, later)) then None
      else Some(db.(admissions := db.admissions[call := row]))
  }

  // ----- permits ------------------------------------------------------------------------

  /** The admission fence, which runs before the permit fence. */
  predicate AdmissionAllows(admissions: map<Id, Admission>, row: Permit, inserting: bool, now: Time) {
    Admitted(admissions, row.organization, row.call) ==>
      var a := admissions[row.call];
      && (inserting ==> a.state == Pending && a.expiresAt > now)
      && (row.state == Consumed ==> a.state == Dispatched)
  }

  predicate PermitTaken(permits: map<Id, Permit>, row: Permit) {
    exists p | p in permits ::
      (permits[p].organization == row.organization && permits[p].call == row.call) || permits[p].token == row.token
  }

  /** `bound` is whether the outbound call row of the permit's account was found. */
  function InsertPermit(db: Tables, id: Id, row: Permit, now: Time, later: Time, bound: bool): Option<Tables> {
    if !AdmissionAllows(db.admissions, row, true, now) then None
    else if row.state != Authorized || row.edge.Some? || row.boot.Some? || row.digest.Some? then None
    else if !bound || id in db.permits || PermitTaken(db.permits, row) then None
    else
      Some(db.(permits := db.permits[id := row.(issuedAt := later, expiresAt := later + TTL)],
               history := db.history + [Entry(id, None, Authorized, ())]))
  }

  predicate PermitEdge(was: Permit, row: Permit, now: Time) {
    || (was.state == Authorized && row.state == Consumed && now <= was.expiresAt
        && row.edge.Some? && row.boot.Some? && row.digest.Some? && Hex64(row.digest.value))
    || (was.state == Authorized && row.state == Expired && now > was.expiresAt)
    || (was.state == Authorized && row.state == Revoked)
    || (was.state == Consumed && (row.state == Ended || row.state == Ambiguous))
  }

  predicate PermitFence(was: Permit, row: Permit, now: Time) {
    && row.(state := was.state, edge := was.edge, boot := was.boot, digest := was.digest) == was
    && PermitEdge(was, row, now)
    && (row.state != Consumed ==> row.edge == was.edge && row.boot == was.boot && row.digest == was.digest)
  }

  predicate TransactionTaken(routes: map<Id, EgressRoute>, peer: Id, digest: string) {
    exists r | r in routes :: routes[r].peer == peer && routes[r].digest == digest
  }

  function UpdatePermit(db: Tables, id: Id, row: Permit, now: Time, later: Time, bound: bool): Option<Tables> {
    if id !in db.permits then Some(db)
    else if !AdmissionAllows(db.admissions, row, false, now) || !PermitFence(db.permits[id], row, now)
      || !bound then None
    else
      var moved := db.(permits := db.permits[id := row],
                       history := db.history + [Entry(id, Some(db.permits[id].state), row.state, ())]);
      if row.state != Consumed then Some(moved)
      else if id in db.routes || TransactionTaken(db.routes, row.peer, row.digest.value) then None
      else
        var route := EgressRoute(row.organization, row.peer, row.edge.value, row.boot.value, row.digest.value, later);
        Some(moved.(routes := db.routes[id := route]))
  }

  // ----- runs -----------------------------------------------------------------------------

  datatype Statement =
    | Admit(call: Id, admission: Admission, now: Time)
    | MoveAdmission(call: Id, admission: Admission, now: Time, later: Time)
    | Issue(id: Id, permit: Permit, now: Time, later: Time, bound: bool)
    | MovePermit(id: Id, permit: Permit, now: Time, later: Time, bound: bool)

  function Execute(db: Tables, s: Statement): Option<Tables> {
    match s
    case Admit(call, row, now) => InsertAdmission(db, call, row, now)
    case MoveAdmission(call, row, now, later) => UpdateAdmission(db, call, row, now, later)
    case Issue(id, row, now, later, bound) => InsertPermit(db, id, row, now, later, bound)
    case MovePermit(id, row, now, later, bound) => UpdatePermit(db, id, row, now, later, bound)
  }

  function Step(db: Tables, s: Statement): Tables {
    match Execute(db, s) case Some(db') => db' case None => db
  }

  /** The tables after the statements, refused ones rolled back. */
  function After(db: Tables, run: seq<Statement>): Tables {
    if run == [] then db else Step(After(db, run[..|run| - 1]), run[|run| - 1])
  }

  function LastReading(s: Statement): Time {
    if s.Admit? then s.now else s.later
  }

  /** Every clock reading is at or after the ones before it. */
  predicate Ordered(run: seq<Statement>) {
    && (forall i | 0 <= i < |run| :: run[i].now <= LastReading(run[i]))
    && (forall i, j | 0 <= i < j < |run| :: LastReading(run[i]) <= run[j].now)
  }
}
