/**
  The admission and permit tables as the database updates them: the BEFORE triggers in name order,
  then the row, then the AFTER trigger, with nothing changed when one of them raises.
*/
module SipEgressStore {
  import opened Prelude
  import opened Trails
  import opened SipEgress

  class Store {
    var admissions: map<Id, Admission>
    var permits: map<Id, Permit>
    var routes: map<Id, EgressRoute>
    var history: seq<Entry<PermitState, ()>>

    ghost function View(): Tables
      reads this
    {
      Tables(admissions, permits, routes, history)
    }

    constructor ()
      ensures View() == Empty
    {
      admissions, permits, routes, history := map[], map[], map[], [];
    }

    method InsertAdmission(call: Id, row: Admission, now: Time) returns (ok: bool)
      modifies this
      ensures ok <==> Execute(old(View()), Admit(call, row, now)).Some?
      ensures View() == Step(old(View()), Admit(call, row, now))
    {
      ok := row.state == Pending && call !in admissions;
      if ok {
        admissions := admissions[call := row.(createdAt := now, expiresAt := now + TTL)];
      }
    }

    method UpdateAdmission(call: Id, row: Admission, now: Time, later: Time) returns (ok: bool)
      modifies this
      ensures ok <==> Execute(old(View()), MoveAdmission(call, row, now, later)).Some?
      ensures View() == Step(old(View()), MoveAdmission(call, row, now, later))
    {
      if call !in admissions { return true; }
      var was := admissions[call];
      if row.(state := was.state) != was || was.state != Pending || row.state == Pending { return false; }
      if row.state == Dispatched {
        if row.expiresAt <= now || !LivePermit(permits, row.organization, call, later) { return false; }
      }
      admissions := admissions[call := row];
      ok := true;
    }

    /** The trigger on permits that reads the admission of the call, if there is one. */
    method AdmissionFence(row: Permit, inserting: bool, now: Time) returns (ok: bool)
      ensures ok <==> AdmissionAllows(admissions, row, inserting, now)
    {
      ok := true;
      if row.call in admissions && admissions[row.call].organization == row.organization {
        var a := admissions[row.call];
        if (inserting && (a.state != Pending || a.expiresAt <= now))
          || (row.state == Consumed && a.state != Dispatched) {
          ok := false;
        }
      }
    }

    /** The AFTER trigger: append to the history and, for a consumption, insert the route. */
    method PermitHistory(previous: Option<PermitState>, id: Id, row: Permit, later: Time) returns (ok: bool)
      requires row.state == Consumed ==> row.edge.Some? && row.boot.Some? && row.digest.Some?
      modifies this`history, this`routes
      ensures ok <==> (row.state == Consumed ==>
        id !in old(routes) && !TransactionTaken(old(routes), row.peer, row.digest.value))
      ensures history == old(history) + [Entry(id, previous, row.state, ())]
      ensures routes == if ok && row.state == Consumed
        then old(routes)[id := EgressRoute(row.organization, row.peer, row.edge.value, row.boot.value,
          row.digest.value, later)]
        else old(routes)
    {
      history := history + [Entry(id, previous, row.state, ())];
      ok := true;
      if row.state == Consumed {
        if id in routes || TransactionTaken(routes, row.peer, row.digest.value) { return false; }
        routes := routes[id := EgressRoute(row.organization, row.peer, row.edge.value, row.boot.value,
          row.digest.value, later)];
      }
    }

    method InsertPermit(id: Id, row: Permit, now: Time, later: Time, bound: bool) returns (ok: bool)
      modifies this
      ensures ok <==> Execute(old(View()), Issue(id, row, now, later, bound)).Some?
      ensures View() == Step(old(View()), Issue(id, row, now, later, bound))
    {
      ok := AdmissionFence(row, true, now);
      if !ok { return; }
      if row.state != Authorized || row.edge.Some? || row.boot.Some? || row.digest.Some? || !bound { return false; }
      if id in permits || PermitTaken(permits, row) { return false; }
      var stamped := row.(issuedAt := later, expiresAt := later + TTL);
      permits := permits[id := stamped];
      ok := PermitHistory(None, id, stamped, later);
    }

    /** A refused route insertion rolls the permit and its history entry back. */
    method UpdatePermit(id: Id, row: Permit, now: Time, later: Time, bound: bool) returns (ok: bool)
      modifies this
      ensures ok <==> Execute(old(View()), MovePermit(id, row, now, later, bound)).Some?
      ensures View() == Step(old(View()), MovePermit(id, row, now, later, bound))
    {
      if id !in permits { return true; }
      ok := AdmissionFence(row, false, now);
      if !ok { return; }
      var was, before := permits[id], history;
      if !PermitFence(was, row, now) || !bound { return false; }
      permits := permits[id := row];
      ok := PermitHistory(Some(was.state), id, row, later);
      if !ok {
        permits, history := permits[id := was], before;
        assert permits == old(permits);
      }
    }
  }
}
