/**
  What every sequence of statements keeps: the reference table is exactly the live routes, a live
  route's target is not retired, a dialog is bound before a route is established, and the history
  replays to the current state.
*/
module SipRoutesProofs {
  import opened Prelude
  import opened Trails
  import opened SipRoutes

  // ----- the invariant ---------------------------------------------------------------------

  ghost predicate ReferencesOk(routes: map<Id, Route>, references: map<Id, Id>) {
    forall r: Id :: (r in references <==> r in routes && LiveRoute(routes[r].state)) &&
                    (r in references ==> references[r] == routes[r].target)
  }

  ghost predicate RoutesOk(targets: map<Id, Target>, routes: map<Id, Route>) {
    forall r | r in routes ::
      && routes[r].target in targets
      && targets[routes[r].target].cell == routes[r].cell
      && targets[routes[r].target].revision == routes[r].targetRevision
      && (LiveRoute(routes[r].state) ==> targets[routes[r].target].state in {Active, Draining})
  }

  ghost predicate BindingsOk(routes: map<Id, Route>, bindings: map<Id, Binding>) {
    && (forall r | r in bindings :: r in routes && routes[r].organization == bindings[r].organization
                                    && routes[r].state !in {Authorized, RouteExpired})
    && (forall r | r in routes :: routes[r].state in {Established, Ended} ==> r in bindings)
  }

  ghost predicate StampsOk(routes: map<Id, Route>) {
    forall r | r in routes ::
      && routes[r].issueDeadline == routes[r].authorizedAt + ISSUE_WINDOW
      && (routes[r].issuedAt.Some? <==> routes[r].state !in {Authorized, RouteExpired})
  }

  ghost predicate TransactionsOk(routes: map<Id, Route>) {
    forall a, b | a in routes && b in routes && a != b ::
      routes[a].peer != routes[b].peer || routes[a].transaction != routes[b].transaction
  }

  ghost predicate TargetsOk(targets: map<Id, Target>) {
    && (forall a | a in targets :: PrivateHost(targets[a].host) && targets[a].revision > 0)
    && (forall a, b | a in targets && b in targets && a != b && targets[a].cell == targets[b].cell ::
          targets[a].revision != targets[b].revision && !(targets[a].state == targets[b].state == Active))
  }

  /** The transition graph without clocks. */
  const ROUTE_GRAPH: set<(RouteState, RouteState)> := {
    (Authorized, Issued), (Authorized, RouteExpired),
    (Issued, Established), (Issued, RouteFailed), (Issued, Ambiguous),
    (Established, Ended), (Established, Ambiguous)
  }

  ghost function SeenRoute(routes: map<Id, Route>, r: Id): Seen<RouteState, (Id, Id)> {
    if r in routes then Present(routes[r].state, (routes[r].edge, routes[r].boot)) else Absent
  }

  ghost predicate Replays(history: seq<HistoryRow>, routes: map<Id, Route>, r: Id) {
    Tracks(history, r, Authorized, ROUTE_GRAPH, SeenRoute(routes, r))
  }

  ghost predicate HistoryOk(history: seq<HistoryRow>, routes: map<Id, Route>) {
    forall r: Id :: Replays(history, routes, r)
  }

  ghost predicate Links(db: Tables) {
    ReferencesOk(db.routes, db.references) && RoutesOk(db.targets, db.routes) && BindingsOk(db.routes, db.bindings)
  }

  ghost predicate Marks(db: Tables) {
    StampsOk(db.routes) && HistoryOk(db.history, db.routes)
  }

  ghost predicate Uniques(db: Tables) {
    TransactionsOk(db.routes) && TargetsOk(db.targets)
  }

  ghost predicate Inv(db: Tables) {
    Links(db) && Marks(db) && Uniques(db)
  }

  // ----- every statement keeps it -------------------------------------------------------------

  lemma HistoryGrows(history: seq<HistoryRow>, routes: map<Id, Route>, id: Id, row: Route, entry: HistoryRow)
    requires HistoryOk(history, routes)
    requires entry.id == id && entry.state == row.state && entry.note == (row.edge, row.boot)
    requires if id in routes
             then entry.previous == Some(routes[id].state) && (routes[id].state, row.state) in ROUTE_GRAPH
                  && row.edge == routes[id].edge && row.boot == routes[id].boot
             else entry.previous == None && row.state == Authorized
    ensures HistoryOk(history + [entry], routes[id := row])
  {
    var longer, updated := history + [entry], routes[id := row];
    forall r: Id
      ensures Replays(longer, updated, r)
    {
      assert Replays(history, routes, r);
      TracksStep(history, entry, r, Authorized, ROUTE_GRAPH, SeenRoute(routes, r));
    }
  }

  lemma InsertTargetInv(db: Tables, id: Id, row: Target)
    requires Inv(db) && InsertTarget(db, id, row).Some?
    ensures Inv(InsertTarget(db, id, row).value)
  {
    var targets := db.targets[id := row];
    assert forall x | x in db.targets :: x != id && targets[x] == db.targets[x];
  }

  lemma UpdateTargetInv(db: Tables, id: Id, row: Target)
    requires Inv(db) && UpdateTarget(db, id, row).Some?
    ensures Inv(UpdateTarget(db, id, row).value)
  {
    if id in db.targets {
      var targets := db.targets[id := row];
      forall r | r in db.routes && LiveRoute(db.routes[r].state)
        ensures targets[db.routes[r].target].state in {Active, Draining}
      {
        assert r in db.references;
      }
      assert RoutesOk(targets, db.routes);
      assert TargetsOk(targets);
    }
  }

  lemma ReferencesSet(routes: map<Id, Route>, references: map<Id, Id>, id: Id, row: Route)
    requires ReferencesOk(routes, references)
    ensures ReferencesOk(routes[id := row],
              if LiveRoute(row.state) then references[id := row.target] else references - {id})
  {
  }

  lemma TransactionsSet(routes: map<Id, Route>, id: Id, row: Route)
    requires TransactionsOk(routes)
    requires if id in routes then row.peer == routes[id].peer && row.transaction == routes[id].transaction
             else !TransactionTaken(routes, row.peer, row.transaction)
    ensures TransactionsOk(routes[id := row])
  {
  }

  lemma BindingsSet(routes: map<Id, Route>, bindings: map<Id, Binding>, id: Id, row: Route)
    requires BindingsOk(routes, bindings)
    requires id in bindings ==> row.organization == routes[id].organization && row.state !in {Authorized, RouteExpired}
    requires row.state in {Established, Ended} ==> id in bindings
    ensures BindingsOk(routes[id := row], bindings)
  {
  }

  lemma InsertRouteLinks(db: Tables, id: Id, row: Route, now: Time)
    requires Links(db) && InsertRoute(db, id, row, now).Some?
    ensures Links(InsertRoute(db, id, row, now).value)
  {
    var row' := row.(authorizedAt := now, issueDeadline := now + ISSUE_WINDOW);
    ReferencesSet(db.routes, db.references, id, row');
    BindingsSet(db.routes, db.bindings, id, row');
  }

  lemma InsertRouteMarks(db: Tables, id: Id, row: Route, now: Time)
    requires Marks(db) && InsertRoute(db, id, row, now).Some?
    ensures Marks(InsertRoute(db, id, row, now).value)
  {
    var row' := row.(authorizedAt := now, issueDeadline := now + ISSUE_WINDOW);
    HistoryGrows(db.history, db.routes, id, row', Entry(id, None, Authorized, (row.edge, row.boot)));
  }

  lemma InsertRouteInv(db: Tables, id: Id, row: Route, now: Time)
    requires Inv(db) && InsertRoute(db, id, row, now).Some?
    ensures Inv(InsertRoute(db, id, row, now).value)
  {
    InsertRouteLinks(db, id, row, now);
    InsertRouteMarks(db, id, row, now);
    TransactionsSet(db.routes, id, row.(authorizedAt := now, issueDeadline := now + ISSUE_WINDOW));
  }

  /** The row an accepted update of `r` leaves. */
  ghost predicate Moved(r: Route, row: Route) {
    && row.(state := r.state, issuedAt := r.issuedAt) == r
    && (r.state, row.state) in ROUTE_GRAPH
    && (row.issuedAt.Some? <==> row.state !in {Authorized, RouteExpired})
  }

  lemma MovedRoutesOk(targets: map<Id, Target>, routes: map<Id, Route>, id: Id, row: Route)
    requires id in routes && Moved(routes[id], row)
    ensures RoutesOk(targets, routes) ==> RoutesOk(targets, routes[id := row])
  {
  }

  function Stamped(row: Route, later: Time): Route {
    if row.state == Issued then row.(issuedAt := Some(later)) else row
  }

  lemma UpdateRouteLinks(db: Tables, id: Id, row: Route, now: Time, later: Time)
    requires Links(db) && id in db.routes && UpdateRoute(db, id, row, now, later).Some?
    requires Moved(db.routes[id], Stamped(row, later))
    ensures Links(UpdateRoute(db, id, row, now, later).value)
  {
    var row' := Stamped(row, later);
    MovedRoutesOk(db.targets, db.routes, id, row');
    ReferencesSet(db.routes, db.references, id, row');
    if LiveRoute(row.state) {
      assert id in db.references && db.references[id := row'.target] == db.references;
    }
    BindingsSet(db.routes, db.bindings, id, row');
  }

  lemma UpdateRouteMarks(db: Tables, id: Id, row: Route, now: Time, later: Time)
    requires Marks(db) && id in db.routes && UpdateRoute(db, id, row, now, later).Some?
    ensures Moved(db.routes[id], Stamped(row, later))
    ensures Marks(UpdateRoute(db, id, row, now, later).value)
  {
    var r := db.routes[id];
    HistoryGrows(db.history, db.routes, id, Stamped(row, later),
      Entry(id, Some(r.state), row.state, (row.edge, row.boot)));
  }

  lemma UpdateRouteInv(db: Tables, id: Id, row: Route, now: Time, later: Time)
    requires Inv(db) && UpdateRoute(db, id, row, now, later).Some?
    ensures Inv(UpdateRoute(db, id, row, now, later).value)
  {
    if id in db.routes {
      UpdateRouteMarks(db, id, row, now, later);
      UpdateRouteLinks(db, id, row, now, later);
      TransactionsSet(db.routes, id, Stamped(row, later));
    }
  }

  lemma InsertBindingInv(db: Tables, id: Id, organization: Id, digest: string, now: Time)
    requires Inv(db) && InsertBinding(db, id, organization, digest, now).Some?
    ensures Inv(InsertBinding(db, id, organization, digest, now).value)
  {
  }

  /** The row policies let the runtime role change nothing in a reference table that is exact. */
  lemma {:induction false} PoliciesAreInert(db: Tables, id: Id, target: Id)
    requires ReferencesOk(db.routes, db.references)
    ensures InsertReference(db, id, target) == None
    ensures DeleteReference(db, id) == Some(db)
  {
  }

  lemma {:induction false} StepInv(db: Tables, s: Statement)
    requires Inv(db)
    ensures Inv(Step(db, s))
  {
    if Execute(db, s).Some? {
      match s
      case AddTarget(id, row) => InsertTargetInv(db, id, row);
      case MoveTarget(id, row) => UpdateTargetInv(db, id, row);
      case AddRoute(id, row, now) => InsertRouteInv(db, id, row, now);
      case MoveRoute(id, row, now, later) => UpdateRouteInv(db, id, row, now, later);
      case Bind(id, organization, digest, now) => InsertBindingInv(db, id, organization, digest, now);
      case AddReference(id, target) => PoliciesAreInert(db, id, target);
      case DropReference(id) => PoliciesAreInert(db, id, 0);
    }
  }

  lemma {:induction false} RunInv(run: seq<Statement>)
    ensures Inv(After(Empty, run))
  {
    if run != [] {
      RunInv(run[..|run| - 1]);
      StepInv(After(Empty, run[..|run| - 1]), run[|run| - 1]);
    }
  }

  // ----- safety over runs --------------------------------------------------------------------

  /** The routes a target still has to drain. */
  ghost predicate Outstanding(routes: map<Id, Route>, target: Id) {
    exists r | r in routes :: routes[r].target == target && LiveRoute(routes[r].state)
  }

  /** The trigger-kept reference table is exactly the live routes with their targets. */
  lemma {:induction false} ReferencesAreLiveRoutes(run: seq<Statement>)
    ensures var db := After(Empty, run);
      db.references == map r | r in db.routes && LiveRoute(db.routes[r].state) :: db.routes[r].target
  {
    RunInv(run);
  }

  /** A target with an outstanding route is active or draining, so a retired one has none. */
  lemma {:induction false} RetiredTargetsAreDrained(run: seq<Statement>, target: Id)
    ensures var db := After(Empty, run);
      Outstanding(db.routes, target) ==> target in db.targets && db.targets[target].state in {Active, Draining}
  {
    RunInv(run);
  }

  /** Retirement succeeds exactly from REGISTERED or DRAINING with no outstanding route. */
  lemma {:induction false} RetirementExactly(run: seq<Statement>, target: Id)
    requires target in After(Empty, run).targets
    ensures var db := After(Empty, run);
      UpdateTarget(db, target, db.targets[target].(state := Retired)).Some? <==>
      (db.targets[target].state in {Registered, Draining} && !Outstanding(db.routes, target))
  {
    RunInv(run);
    var db := After(Empty, run);
    if Referenced(db.references, target) {
      var r :| r in db.references && db.references[r] == target;
      assert r in db.routes;
    }
    if Outstanding(db.routes, target) {
      var r :| r in db.routes && db.routes[r].target == target && LiveRoute(db.routes[r].state);
      assert r in db.references;
    }
  }

  /** One route's history replays, edge by edge along the transition graph, to its current state. */
  lemma {:induction false} HistoryReplays(run: seq<Statement>, r: Id)
    ensures var db := After(Empty, run); Replays(db.history, db.routes, r)
  {
    RunInv(run);
  }

  /** An established or ended route has a dialog binding, and a bound route was issued first. */
  lemma {:induction false} EstablishedRoutesAreBound(run: seq<Statement>, r: Id)
    ensures var db := After(Empty, run);
      && (r in db.routes && db.routes[r].state in {Established, Ended} ==> r in db.bindings)
      && (r in db.bindings ==> r in db.routes && db.routes[r].issuedAt.Some?)
  {
    RunInv(run);
  }

  /** A route's issue window is the five seconds after its authorization, and it carries an issue time
      exactly when it was issued. */
  lemma {:induction false} RoutesAreStamped(run: seq<Statement>, r: Id)
    requires r in After(Empty, run).routes
    ensures var route := After(Empty, run).routes[r];
      && route.issueDeadline == route.authorizedAt + ISSUE_WINDOW
      && (route.issuedAt.Some? <==> route.state !in {Authorized, RouteExpired})
  {
    RunInv(run);
  }

  /** At most one target of a cell is active, and no two share a revision. */
  lemma {:induction false} OneActiveTarget(run: seq<Statement>, a: Id, b: Id)
    requires var db := After(Empty, run); a in db.targets && b in db.targets && db.targets[a].cell == db.targets[b].cell
    ensures var db := After(Empty, run);
      (db.targets[a].state == db.targets[b].state == Active || db.targets[a].revision == db.targets[b].revision) ==>
        a == b
  {
    RunInv(run);
  }

  predicate Final(s: RouteState) {
    s in {Ended, RouteFailed, RouteExpired, Ambiguous}
  }

  lemma StepKeepsRoute(db: Tables, s: Statement, id: Id)
    requires id in db.routes && Final(db.routes[id].state)
    ensures id in Step(db, s).routes && Step(db, s).routes[id] == db.routes[id]
  {
  }

  lemma {:induction false} RouteKept(db: Tables, later: seq<Statement>, id: Id)
    requires id in db.routes && Final(db.routes[id].state)
    ensures id in After(db, later).routes && After(db, later).routes[id] == db.routes[id]
  {
    if later != [] {
      RouteKept(db, later[..|later| - 1], id);
      StepKeepsRoute(After(db, later[..|later| - 1]), later[|later| - 1], id);
    }
  }

  lemma StepKeepsBinding(db: Tables, s: Statement, id: Id)
    requires id in db.bindings
    ensures id in Step(db, s).bindings && Step(db, s).bindings[id] == db.bindings[id]
  {
  }

  /** A dialog binding is written once: no later statement replaces or removes it. */
  lemma {:induction false} BindingsAreForever(db: Tables, later: seq<Statement>, id: Id)
    requires id in db.bindings
    ensures id in After(db, later).bindings && After(db, later).bindings[id] == db.bindings[id]
  {
    if later != [] {
      BindingsAreForever(db, later[..|later| - 1], id);
      StepKeepsBinding(After(db, later[..|later| - 1]), later[|later| - 1], id);
    }
  }

  lemma {:induction false} AfterConcat(db: Tables, run: seq<Statement>, later: seq<Statement>)
    ensures After(db, run + later) == After(After(db, run), later)
  {
    if later == [] {
      assert run + later == run;
    } else {
      var n := |later| - 1;
      AfterConcat(db, run, later[..n]);
      assert (run + later)[..|run + later| - 1] == run + later[..n];
    }
  }

  /** A route that ended, failed, expired or became ambiguous never changes again, whatever follows. */
  lemma {:induction false} FinalRoutesAbsorb(run: seq<Statement>, later: seq<Statement>, r: Id)
    requires r in After(Empty, run).routes && Final(After(Empty, run).routes[r].state)
    ensures r in After(Empty, run + later).routes && After(Empty, run + later).routes[r] == After(Empty, run).routes[r]
  {
    AfterConcat(Empty, run, later);
    RouteKept(After(Empty, run), later, r);
  }

  /** An ambiguous route keeps its target from ever being retired. */
  lemma {:induction false} AmbiguousRoutePinsTarget(run: seq<Statement>, later: seq<Statement>, r: Id)
    requires r in After(Empty, run).routes && After(Empty, run).routes[r].state == Ambiguous
    ensures var db := After(Empty, run + later); var target := After(Empty, run).routes[r].target;
      target in db.targets && db.targets[target].state in {Active, Draining}
  {
    FinalRoutesAbsorb(run, later, r);
    RunInv(run + later);
  }
}
