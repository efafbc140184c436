/**
  SIP targets, inbound route authorizations, dialog bindings and the drainage reference table, as
  PostgreSQL triggers fence them. Each function is one statement: `None` is an exception, which
  rolls the statement back.
*/
module SipRoutes {
  import opened Prelude
  import opened Trails

  type Id = nat
  type Time = int

  /** Clock readings are in microseconds. */
  const ISSUE_WINDOW: Time := 5_000_000

  datatype TargetState = Registered | Active | Draining | Retired

  datatype Host = V4(a: nat, b: nat, c: nat, d: nat) | V6(high: nat, rest: nat)

  datatype Transport = Udp | Tcp | Tls

  datatype Target = Target(cell: Id, revision: int, host: Host, port: int, transport: Transport, createdAt: Time,
                           state: TargetState)

  datatype RouteState = Authorized | Issued | Established | Ended | RouteFailed | Ambiguous | RouteExpired

  /** `binding` stands for the columns no statement may change besides those named here. */
  datatype Route = Route(organization: Id, peer: Id, cell: Id, target: Id, targetRevision: int, edge: Id, boot: Id,
                         transaction: string, binding: string, state: RouteState, authorizedAt: Time,
                         issueDeadline: Time, issuedAt: Option<Time>)

  /** A history entry notes the edge and its boot. */
  type HistoryRow = Entry<RouteState, (Id, Id)>

  datatype Binding = Binding(organization: Id, digest: string, establishedAt: Time)

  datatype Tables = Tables(targets: map<Id, Target>, routes: map<Id, Route>, references: map<Id, Id>,
                           bindings: map<Id, Binding>, history: seq<HistoryRow>)

  const Empty := Tables(map[], map[], map[], map[], [])

  predicate PrivateHost(h: Host) {
    match h
    case V4(a, b, _, _) => a == 10 || (a == 172 && 16 <= b < 32) || (a == 192 && b == 168)
    case V6(high, _) => 0xfc00 <= high < 0xfe00
  }

  predicate LiveRoute(s: RouteState) {
    s == Authorized || s == Issued || s == Established || s == Ambiguous
  }

  // ----- targets ------------------------------------------------------------------------

  predicate TargetEdge(a: TargetState, b: TargetState) {
    || (a == Registered && (b == Active || b == Retired))
    || (a == Active && b == Draining)
    || (a == Draining && b == Retired)
  }

  predicate OtherActive(targets: map<Id, Target>, id: Id, cell: Id) {
    exists x | x in targets :: x != id && targets[x].cell == cell && targets[x].state == Active
  }

  predicate RevisionTaken(targets: map<Id, Target>, cell: Id, revision: int) {
    exists x | x in targets :: targets[x].cell == cell && targets[x].revision == revision
  }

  predicate Referenced(references: map<Id, Id>, target: Id) {
    exists r | r in references :: references[r] == target
  }

  function InsertTarget(db: Tables, id: Id, row: Target): Option<Tables> {
    if row.state != Registered || !PrivateHost(row.host) then None
    else if id in db.targets || RevisionTaken(db.targets, row.cell, row.revision) then None
    else if row.revision <= 0 || !(1024 <= row.port <= 65535) then None
    else Some(db.(targets := db.targets[id := row]))
  }

  /** The retirement fence runs before the target fence; the index allows one active target a cell. */
  function UpdateTarget(db: Tables, id: Id, row: Target): Option<Tables> {
    if id !in db.targets then Some(db)
    else if row.state == Retired && Referenced(db.references, id) then None
    else if row.(state := db.targets[id].state) != db.targets[id]
      || !TargetEdge(db.targets[id].state, row.state) then None
    else if !PrivateHost(row.host) then None
    else if row.state == Active && OtherActive(db.targets, id, row.cell) then None
    else Some(db.(targets := db.targets[id := row]))
  }

  // ----- routes -------------------------------------------------------------------------

  predicate TransactionTaken(routes: map<Id, Route>, peer: Id, transaction: string) {
    exists x | x in routes :: routes[x].peer == peer && routes[x].transaction == transaction
  }

  predicate Admits(targets: map<Id, Target>, row: Route) {
    && row.target in targets
    && targets[row.target].cell == row.cell
    && targets[row.target].revision == row.targetRevision
    && targets[row.target].state == Active
  }

  /** Insert: the route fence, then the reference trigger. */
  function InsertRoute(db: Tables, id: Id, row: Route, now: Time): Option<Tables> {
    if row.state != Authorized || row.issuedAt.Some? then None
    else if !Admits(db.targets, row) then None
    else if id in db.routes || TransactionTaken(db.routes, row.peer, row.transaction) then None
    else if id in db.references then None
    else
      var row' := row.(authorizedAt := now, issueDeadline := now + ISSUE_WINDOW);
      Some(db.(routes := db.routes[id := row'], references := db.references[id := row.target],
               history := db.history + [Entry(id, None, Authorized, (row.edge, row.boot))]))
  }

  /** The legal transitions of a route at clock reading `now`. */
  predicate RouteEdge(r: Route, next: Route, now: Time) {
    || (r.state == Authorized && next.state == Issued && now <= r.issueDeadline && next.issuedAt.Some?)
    || (r.state == Authorized && next.state == RouteExpired && now > r.issueDeadline)
    || (r.state == Issued && (next.state == Established || next.state == RouteFailed || next.state == Ambiguous))
    || (r.state == Established && (next.state == Ended || next.state == Ambiguous))
  }

  /** Update: the established fence, the route fence (which reads the clock at `now` and stamps an
      issue at `later`), then the reference trigger. */
  function UpdateRoute(db: Tables, id: Id, row: Route, now: Time, later: Time): Option<Tables> {
    if id !in db.routes then Some(db)
    else
      var r := db.routes[id];
      if (row.state == Established || row.state == Ended) &&
         !(id in db.bindings && db.bindings[id].organization == row.organization) then None
      else if row.(state := r.state, issuedAt := r.issuedAt) != r then None
      else if !RouteEdge(r, row, now) || (r.state != Authorized && row.issuedAt != r.issuedAt)
              || (row.state == RouteExpired && row.issuedAt.Some?) then None
      else
        var row' := if row.state == Issued then row.(issuedAt := Some(later)) else row;
        Some(db.(routes := db.routes[id := row'],
                 references := if LiveRoute(row.state) then db.references else db.references - {id},
                 history := db.history + [Entry(id, Some(r.state), row.state, (row.edge, row.boot))]))
  }

  /** A dialog is bound to an issued route, once. */
  function InsertBinding(db: Tables, id: Id, organization: Id, digest: string, now: Time): Option<Tables> {
    if id !in db.routes || db.routes[id].organization != organization || db.routes[id].state != Issued then None
    else if id in db.bindings then None
    else Some(db.(bindings := db.bindings[id := Binding(organization, digest, now)]))
  }

  // ----- what the row policies let the runtime role do to the reference table directly -------

  function InsertReference(db: Tables, id: Id, target: Id): Option<Tables> {
    if id in db.references then None
    else if id !in db.routes || db.routes[id].target != target || !LiveRoute(db.routes[id].state) then None
    else Some(db.(references := db.references[id := target]))
  }

  function DeleteReference(db: Tables, id: Id): Option<Tables> {
    if id in db.references && id in db.routes && db.routes[id].target == db.references[id]
      && !LiveRoute(db.routes[id].state)
    then Some(db.(references := db.references - {id})) else Some(db)
  }

  // ----- runs -----------------------------------------------------------------------------

  datatype Statement =
    | AddTarget(id: Id, target: Target)
    | MoveTarget(id: Id, target: Target)
    | AddRoute(id: Id, route: Route, now: Time)
    | MoveRoute(id: Id, route: Route, now: Time, later: Time)
    | Bind(id: Id, organization: Id, digest: string, now: Time)
    | AddReference(id: Id, to: Id)
    | DropReference(id: Id)

  function Execute(db: Tables, s: Statement): Option<Tables> {
    match s
    case AddTarget(id, row) => InsertTarget(db, id, row)
    case MoveTarget(id, row) => UpdateTarget(db, id, row)
    case AddRoute(id, row, now) => InsertRoute(db, id, row, now)
    case MoveRoute(id, row, now, later) => UpdateRoute(db, id, row, now, later)
    case Bind(id, organization, digest, now) => InsertBinding(db, id, organization, digest, now)
    case AddReference(id, target) => InsertReference(db, id, target)
    case DropReference(id) => DeleteReference(db, id)
  }

  function Step(db: Tables, s: Statement): Tables {
    match Execute(db, s) case Some(db') => db' case None => db
  }

  /** The tables after the statements, refused ones rolled back. */
  function After(db: Tables, run: seq<Statement>): Tables {
    if run == [] then db else Step(After(db, run[..|run| - 1]), run[|run| - 1])
  }
}
