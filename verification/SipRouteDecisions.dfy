/**
  When the routing tables accept a statement and what it writes, said of the rows it finds, over every
  sequence of statements before it.
*/
module SipRouteDecisions {
  import opened Prelude
  import opened Trails
  import opened SipRoutes
  import opened SipRoutesProofs

  // ----- routes -----------------------------------------------------------------------------

  /** A route of the target that is not over. */
  ghost predicate Uses(routes: map<Id, Route>, r: Id, target: Id) {
    r in routes && routes[r].target == target && routes[r].state in {Authorized, Issued, Established, Ambiguous}
  }

  ghost predicate InUse(routes: map<Id, Route>, target: Id) {
    exists r: Id :: Uses(routes, r, target)
  }

  ghost predicate Sent(routes: map<Id, Route>, r: Id, peer: Id, transaction: string) {
    r in routes && routes[r].peer == peer && routes[r].transaction == transaction
  }

  /** The row that moves a route to `next`; a move to ISSUED brings some issue time. */
  function MovedTo(route: Route, next: RouteState, stamp: Time): Route {
    route.(state := next, issuedAt := if next == Issued then Some(stamp) else route.issuedAt)
  }

  /** A route is issued within five seconds of its authorization, and expires only after them; an issued one
      is established once a dialog is bound to it; and it may fail, end or become ambiguous where the graph
      says. No other move is accepted. */
  lemma {:induction false} RouteMovesExactly(run: seq<Statement>, r: Id, next: RouteState, stamp: Time, now: Time,
                                             later: Time)
    requires r in After(Empty, run).routes
    ensures var db := After(Empty, run);
      var route := db.routes[r];
      UpdateRoute(db, r, MovedTo(route, next, stamp), now, later).Some? <==>
        || (route.state == Authorized && next == Issued && now <= route.authorizedAt + 5_000_000)
        || (route.state == Authorized && next == RouteExpired && now > route.authorizedAt + 5_000_000)
        || (route.state == Issued && next == Established && r in db.bindings)
        || (route.state == Issued && next in {RouteFailed, Ambiguous})
        || (route.state == Established && next in {Ended, Ambiguous})
  {
    RunInv(run);
  }

  /** An accepted move changes the state and, on issue, stamps the time; the reference goes exactly when the
      route is over; and the history gains this one step. */
  lemma {:induction false} RouteMoveWrites(run: seq<Statement>, r: Id, row: Route, now: Time, later: Time)
    requires r in After(Empty, run).routes && UpdateRoute(After(Empty, run), r, row, now, later).Some?
    ensures var db, db' := After(Empty, run), UpdateRoute(After(Empty, run), r, row, now, later).value;
      var route := db.routes[r];
      && db'.routes == db.routes[r := MovedTo(route, row.state, later)]
      && db'.targets == db.targets && db'.bindings == db.bindings
      && db'.references == (if row.state in {Ended, RouteFailed, RouteExpired} then db.references - {r}
                            else db.references)
      && db'.history == db.history + [Entry(r, Some(route.state), row.state, (route.edge, route.boot))]
  {
    RunInv(run);
  }

  /** A route is accepted if and only if it is new, waits to be issued, names an ACTIVE target by cell and
      revision, and repeats no transaction of its peer; it may then be issued for five seconds. */
  lemma {:induction false} RouteInsertExactly(run: seq<Statement>, id: Id, row: Route, now: Time)
    ensures var db := After(Empty, run);
      InsertRoute(db, id, row, now).Some? <==>
        && id !in db.routes && row.state == Authorized && row.issuedAt == None
        && row.target in db.targets && db.targets[row.target].state == Active
        && db.targets[row.target].cell == row.cell && db.targets[row.target].revision == row.targetRevision
        && !exists x: Id :: Sent(db.routes, x, row.peer, row.transaction)
    ensures var db := After(Empty, run);
      InsertRoute(db, id, row, now).Some? ==>
        var db' := InsertRoute(db, id, row, now).value;
        && db'.routes == db.routes[id := row.(authorizedAt := now, issueDeadline := now + 5_000_000)]
        && db'.references == db.references[id := row.target] && db'.targets == db.targets
        && db'.bindings == db.bindings
        && db'.history == db.history + [Entry(id, None, Authorized, (row.edge, row.boot))]
  {
    RunInv(run);
    var db := After(Empty, run);
    if TransactionTaken(db.routes, row.peer, row.transaction) {
      var x :| x in db.routes && db.routes[x].peer == row.peer && db.routes[x].transaction == row.transaction;
      assert Sent(db.routes, x, row.peer, row.transaction);
    }
  }

  /** A dialog is bound if and only if its route is ISSUED, of the organization, and not bound yet; and that
      is exactly what lets the route be ESTABLISHED. */
  lemma {:induction false} BindExactly(run: seq<Statement>, id: Id, organization: Id, digest: string, now: Time,
                                       stamp: Time, when: Time, later: Time)
    ensures var db := After(Empty, run);
      InsertBinding(db, id, organization, digest, now).Some? <==>
        && id in db.routes && db.routes[id].state == Issued && db.routes[id].organization == organization
        && UpdateRoute(db, id, MovedTo(db.routes[id], Established, stamp), when, later).None?
    ensures var db := After(Empty, run);
      InsertBinding(db, id, organization, digest, now).Some? ==>
        var db' := InsertBinding(db, id, organization, digest, now).value;
        && db' == db.(bindings := db.bindings[id := Binding(organization, digest, now)]) && id !in db.bindings
        && UpdateRoute(db', id, MovedTo(db'.routes[id], Established, stamp), when, later).Some?
  {
    RunInv(run);
  }

  // ----- targets ----------------------------------------------------------------------------

  ghost predicate Serves(targets: map<Id, Target>, x: Id, cell: Id) {
    x in targets && targets[x].cell == cell && targets[x].state == Active
  }

  /** The address lies in one of the private blocks: 10.0.0.0/8, 172.16.0.0/12, 192.168.0.0/16, fc00::/7. */
  lemma {:induction false} PrivateHostExactly(h: Host)
    requires h.V4? ==> h.a < 256 && h.b < 256 && h.c < 256 && h.d < 256
    ensures PrivateHost(h) <==>
      match h
      case V4(a, b, c, d) =>
        var address := 16777216 * a + 65536 * b + 256 * c + d;
        address / 16777216 == 10 || address / 1048576 == 16 * 172 + 1 || address / 65536 == 256 * 192 + 168
      case V6(high, _) => high / 512 == 126
  {
  }

  /** A target is registered if and only if it is new, with a positive revision not used in its cell, on a
      private address and an unprivileged port. */
  lemma {:induction false} TargetInsertExactly(db: Tables, id: Id, row: Target)
    ensures InsertTarget(db, id, row) ==
      if id !in db.targets && row.state == Registered && row.revision >= 1 && 1024 <= row.port < 65536
         && PrivateHost(row.host)
         && (forall x | x in db.targets :: db.targets[x].cell == row.cell ==> db.targets[x].revision != row.revision)
      then Some(db.(targets := db.targets[id := row])) else None
  {
  }

  /** A target becomes ACTIVE where no other is, drains once ACTIVE, and retires when no route uses it. */
  lemma {:induction false} TargetMovesExactly(run: seq<Statement>, id: Id, next: TargetState)
    requires id in After(Empty, run).targets
    ensures var db := After(Empty, run);
      var target := db.targets[id];
      UpdateTarget(db, id, target.(state := next)) ==
        if || (target.state == Registered && next == Active && !exists x: Id :: Serves(db.targets, x, target.cell))
           || (target.state == Active && next == Draining)
           || (target.state in {Registered, Draining} && next == Retired && !InUse(db.routes, id))
        then Some(db.(targets := db.targets[id := target.(state := next)])) else None
  {
    RunInv(run);
    var db := After(Empty, run);
    var target := db.targets[id];
    if OtherActive(db.targets, id, target.cell) {
      var x :| x in db.targets && x != id && db.targets[x].cell == target.cell && db.targets[x].state == Active;
      assert Serves(db.targets, x, target.cell);
    }
    if Referenced(db.references, id) {
      var r :| r in db.references && db.references[r] == id;
      assert Uses(db.routes, r, id);
    }
    if InUse(db.routes, id) {
      var r: Id :| Uses(db.routes, r, id);
      assert r in db.references && db.references[r] == id;
    }
  }

  /** No other column of a target ever changes. */
  lemma {:induction false} TargetColumnsStay(db: Tables, id: Id, row: Target)
    requires id in db.targets && UpdateTarget(db, id, row).Some?
    ensures row == db.targets[id].(state := row.state)
  {
  }
}
