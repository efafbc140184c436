/**
  The route tables as the database updates them: the BEFORE triggers of a statement in name order,
  then the row, then the AFTER trigger, with nothing changed when one of them raises.
*/
module SipRouteStore {
  import opened Prelude
  import opened Trails
  import opened SipRoutes

  class Store {
    var targets: map<Id, Target>
    var routes: map<Id, Route>
    var references: map<Id, Id>
    var bindings: map<Id, Binding>
    var history: seq<HistoryRow>

    ghost function View(): Tables
      reads this
    {
      Tables(targets, routes, references, bindings, history)
    }

    constructor ()
      ensures View() == Empty
    {
      targets, routes, references, bindings, history := map[], map[], map[], map[], [];
    }

    /** The BEFORE UPDATE trigger that keeps a referenced target from being retired. */
    method RetirementFence(id: Id, row: Target) returns (ok: bool)
      ensures ok <==> !(row.state == Retired && Referenced(references, id))
    {
      ok := true;
      if row.state == Retired {
        ok := !Referenced(references, id);
      }
    }

    method InsertTarget(id: Id, row: Target) returns (ok: bool)
      modifies this
      ensures ok <==> Execute(old(View()), AddTarget(id, row)).Some?
      ensures View() == Step(old(View()), AddTarget(id, row))
    {
      ok := row.state == Registered && PrivateHost(row.host);
      if !ok { return; }
      if id in targets || RevisionTaken(targets, row.cell, row.revision) || row.revision <= 0
        || !(1024 <= row.port <= 65535) {
        return false;
      }
      targets := targets[id := row];
    }

    method UpdateTarget(id: Id, row: Target) returns (ok: bool)
      modifies this
      ensures ok <==> Execute(old(View()), MoveTarget(id, row)).Some?
      ensures View() == Step(old(View()), MoveTarget(id, row))
    {
      if id !in targets { return true; }
      ok := RetirementFence(id, row);
      if !ok { return; }
      var was := targets[id];
      ok := row.(state := was.state) == was && TargetEdge(was.state, row.state) && PrivateHost(row.host);
      if !ok { return; }
      if row.state == Active && OtherActive(targets, id, row.cell) { return false; }
      targets := targets[id := row];
    }

    /** The AFTER trigger: keep the reference table and append to the history. */
    method RouteReference(previous: Option<RouteState>, id: Id, row: Route)
      modifies this`references, this`history
      ensures references == if previous == None then old(references)[id := row.target]
                            else if LiveRoute(row.state) then old(references) else old(references) - {id}
      ensures history == old(history) + [Entry(id, previous, row.state, (row.edge, row.boot))]
    {
      if previous == None {
        references := references[id := row.target];
      } else if row.state in {Ended, RouteFailed, RouteExpired} {
        references := references - {id};
      }
      history := history + [Entry(id, previous, row.state, (row.edge, row.boot))];
    }

    method InsertRoute(id: Id, row: Route, now: Time) returns (ok: bool)
      modifies this
      ensures ok <==> Execute(old(View()), AddRoute(id, row, now)).Some?
      ensures View() == Step(old(View()), AddRoute(id, row, now))
    {
      if row.state != Authorized || row.issuedAt.Some? { return false; }
      var stamped := row.(authorizedAt := now, issueDeadline := now + ISSUE_WINDOW);
      if !Admits(targets, stamped) { return false; }
      if id in routes || TransactionTaken(routes, stamped.peer, stamped.transaction) || id in references {
        return false;
      }
      routes := routes[id := stamped];
      RouteReference(None, id, stamped);
      ok := true;
    }

    method EstablishedFence(id: Id, row: Route) returns (ok: bool)
      ensures ok <==> (row.state in {Established, Ended} ==>
        id in bindings && bindings[id].organization == row.organization)
    {
      ok := true;
      if row.state in {Established, Ended} {
        ok := id in bindings && bindings[id].organization == row.organization;
      }
    }

    method UpdateRoute(id: Id, row: Route, now: Time, later: Time) returns (ok: bool)
      modifies this
      ensures ok <==> Execute(old(View()), MoveRoute(id, row, now, later)).Some?
      ensures View() == Step(old(View()), MoveRoute(id, row, now, later))
    {
      if id !in routes { return true; }
      ok := EstablishedFence(id, row);
      if !ok { return; }
      var was := routes[id];
      if row.(state := was.state, issuedAt := was.issuedAt) != was { return false; }
      if !RouteEdge(was, row, now) || (was.state != Authorized && row.issuedAt != was.issuedAt)
         || (row.state == RouteExpired && row.issuedAt.Some?)
      {
        return false;
      }
      var stamped := row;
      if row.state == Issued {
        stamped := row.(issuedAt := Some(later));
      }
      routes := routes[id := stamped];
      RouteReference(Some(was.state), id, stamped);
    }

    method BindDialog(id: Id, organization: Id, digest: string, now: Time) returns (ok: bool)
      modifies this
      ensures ok <==> Execute(old(View()), Bind(id, organization, digest, now)).Some?
      ensures View() == Step(old(View()), Bind(id, organization, digest, now))
    {
      ok := id in routes && routes[id].organization == organization && routes[id].state == Issued && id !in bindings;
      if ok {
        bindings := bindings[id := Binding(organization, digest, now)];
      }
    }
  }
}
