/** What every sequence of admission and permit statements keeps. */
module SipEgressProofs {
  import opened Prelude
  import opened Trails
  import opened SipEgress

  // ----- the invariant ---------------------------------------------------------------------

  ghost predicate UniqueOk(permits: map<Id, Permit>) {
    forall a, b | a in permits && b in permits && a != b ::
      && !(permits[a].organization == permits[b].organization && permits[a].call == permits[b].call)
      && permits[a].token != permits[b].token
  }

  ghost predicate RouteOf(p: Permit, r: EgressRoute) {
    p.organization == r.organization && p.peer == r.peer && p.edge == Some(r.edge) && p.boot == Some(r.boot)
      && p.digest == Some(r.digest)
  }

  /** One egress route for each permit that was ever consumed, and no other. */
  ghost predicate RoutesOk(permits: map<Id, Permit>, routes: map<Id, EgressRoute>) {
    forall p: Id :: (p in routes <==> p in permits && Taken(permits[p].state)) &&
                    (p in routes ==> RouteOf(permits[p], routes[p]))
  }

  ghost predicate TransactionsOk(routes: map<Id, EgressRoute>) {
    forall a, b | a in routes && b in routes && a != b ::
      routes[a].peer != routes[b].peer || routes[a].digest != routes[b].digest
  }

  ghost predicate StampsOk(admissions: map<Id, Admission>, permits: map<Id, Permit>) {
    && (forall p | p in permits :: permits[p].expiresAt == permits[p].issuedAt + TTL)
    && (forall c | c in admissions :: admissions[c].expiresAt == admissions[c].createdAt + TTL)
  }

  const PERMIT_GRAPH: set<(PermitState, PermitState)> := {
    (Authorized, Consumed), (Authorized, Expired), (Authorized, Revoked), (Consumed, Ended), (Consumed, Ambiguous)
  }

  ghost function SeenPermit(permits: map<Id, Permit>, p: Id): Seen<PermitState, ()> {
    if p in permits then Present(permits[p].state, ()) else Absent
  }

  ghost predicate Replays(history: seq<Entry<PermitState, ()>>, permits: map<Id, Permit>, p: Id) {
    Tracks(history, p, Authorized, PERMIT_GRAPH, SeenPermit(permits, p))
  }

  ghost predicate HistoryOk(history: seq<Entry<PermitState, ()>>, permits: map<Id, Permit>) {
    forall p: Id :: Replays(history, permits, p)
  }

  ghost predicate Inv(db: Tables) {
    && UniqueOk(db.permits) && RoutesOk(db.permits, db.routes) && TransactionsOk(db.routes)
    && StampsOk(db.admissions, db.permits) && HistoryOk(db.history, db.permits)
  }

  // ----- every statement keeps it -------------------------------------------------------------

  lemma HistoryGrows(history: seq<Entry<PermitState, ()>>, permits: map<Id, Permit>, id: Id, row: Permit)
    requires HistoryOk(history, permits)
    requires if id in permits then (permits[id].state, row.state) in PERMIT_GRAPH else row.state == Authorized
    ensures var was := if id in permits then Some(permits[id].state) else None;
      HistoryOk(history + [Entry(id, was, row.state, ())], permits[id := row])
  {
    var entry := Entry(id, if id in permits then Some(permits[id].state) else None, row.state, ());
    var longer, updated := history + [entry], permits[id := row];
    forall p: Id
      ensures Replays(longer, updated, p)
    {
      assert Replays(history, permits, p);
      TracksStep(history, entry, p, Authorized, PERMIT_GRAPH, SeenPermit(permits, p));
    }
  }

  lemma PermitsUnique(permits: map<Id, Permit>, id: Id, row: Permit)
    requires UniqueOk(permits)
    requires if id in permits
             then row.organization == permits[id].organization && row.call == permits[id].call
               && row.token == permits[id].token
             else !PermitTaken(permits, row)
    ensures UniqueOk(permits[id := row])
  {
  }

  lemma RoutesIssue(permits: map<Id, Permit>, routes: map<Id, EgressRoute>, id: Id, row: Permit)
    requires RoutesOk(permits, routes) && id !in permits && row.state == Authorized
    ensures RoutesOk(permits[id := row], routes)
  {
  }

  lemma StampsIssue(admissions: map<Id, Admission>, permits: map<Id, Permit>, id: Id, row: Permit)
    requires StampsOk(admissions, permits) && row.expiresAt == row.issuedAt + TTL
    ensures StampsOk(admissions, permits[id := row])
  {
  }

  lemma InsertPermitInv(db: Tables, id: Id, row: Permit, now: Time, later: Time, bound: bool)
    requires Inv(db) && InsertPermit(db, id, row, now, later, bound).Some?
    ensures Inv(InsertPermit(db, id, row, now, later, bound).value)
  {
    var stamped := row.(issuedAt := later, expiresAt := later + TTL);
    HistoryGrows(db.history, db.permits, id, stamped);
    PermitsUnique(db.permits, id, stamped);
    RoutesIssue(db.permits, db.routes, id, stamped);
    StampsIssue(db.admissions, db.permits, id, stamped);
  }

  lemma RoutesMove(db: Tables, id: Id, row: Permit, now: Time, later: Time, bound: bool)
    requires RoutesOk(db.permits, db.routes) && TransactionsOk(db.routes)
    requires id in db.permits && UpdatePermit(db, id, row, now, later, bound).Some?
    ensures var db' := UpdatePermit(db, id, row, now, later, bound).value;
      RoutesOk(db'.permits, db'.routes) && TransactionsOk(db'.routes)
  {
  }

  lemma UpdatePermitInv(db: Tables, id: Id, row: Permit, now: Time, later: Time, bound: bool)
    requires Inv(db) && UpdatePermit(db, id, row, now, later, bound).Some?
    ensures Inv(UpdatePermit(db, id, row, now, later, bound).value)
  {
    if id in db.permits {
      HistoryGrows(db.history, db.permits, id, row);
      PermitsUnique(db.permits, id, row);
      RoutesMove(db, id, row, now, later, bound);
    }
  }

  lemma {:induction false} StepInv(db: Tables, s: Statement)
    requires Inv(db)
    ensures Inv(Step(db, s))
  {
    if Execute(db, s).Some? {
      match s
      case Admit(call, row, now) =>
      case MoveAdmission(call, row, now, later) =>
      case Issue(id, row, now, later, bound) => InsertPermitInv(db, id, row, now, later, bound);
      case MovePermit(id, row, now, later, bound) => UpdatePermitInv(db, id, row, now, later, bound);
    }
  }

  lemma {:induction false} RunInv(run: seq<Statement>)
    ensures Inv(After(Empty, run))
  {
    if run != [] {
      RunInv(run[..|run| - 1]);
      StepInv(After(Empty, run[..|run| - 1]), run[|run| - 1]);
    }
  }

  // ----- safety over runs --------------------------------------------------------------------

  /** Egress routes are one-to-one with the permits that were ever consumed, and carry their binding. */
  lemma {:induction false} RoutesAreConsumedPermits(run: seq<Statement>, p: Id)
    ensures var db := After(Empty, run);
      && (p in db.routes <==> p in db.permits && Taken(db.permits[p].state))
      && (p in db.routes ==> RouteOf(db.permits[p], db.routes[p]))
  {
    RunInv(run);
  }

  /** A permit's history replays along the transition graph to its state. */
  lemma {:induction false} HistoryReplays(run: seq<Statement>, p: Id)
    ensures var db := After(Empty, run); Replays(db.history, db.permits, p)
  {
    RunInv(run);
  }

  lemma AtMostOneConsumption(trail: seq<Entry<PermitState, ()>>, i: nat, j: nat)
    requires Chain(trail, Authorized, PERMIT_GRAPH)
    requires i < |trail| && j < |trail| && trail[i].state == trail[j].state == Consumed
    ensures i == j == 1
  {
    forall k | 0 < k < |trail|
      ensures trail[k].state == Consumed ==> k == 1
    {
      assert (trail[k - 1].state, trail[k].state) in PERMIT_GRAPH;
      if k > 1 {
        assert (trail[k - 2].state, trail[k - 1].state) in PERMIT_GRAPH;
      }
    }
  }

  /** A permit is consumed at most once over a whole run, and only as its first transition. */
  lemma {:induction false} ConsumedAtMostOnce(run: seq<Statement>, p: Id, i: nat, j: nat)
    requires var trail := Trail(After(Empty, run).history, p);
      i < |trail| && j < |trail| && trail[i].state == trail[j].state == Consumed
    ensures i == j == 1
  {
    HistoryReplays(run, p);
    AtMostOneConsumption(Trail(After(Empty, run).history, p), i, j);
  }

  // ----- the admission governs the permit -----------------------------------------------------

  ghost predicate EverConsumed(permits: map<Id, Permit>, organization: Id, call: Id) {
    exists p | p in permits :: permits[p].organization == organization && permits[p].call == call
      && Taken(permits[p].state)
  }

  /** A consumed permit of the call means its admission was dispatched. */
  ghost predicate Governed(db: Tables, organization: Id, call: Id) {
    && Admitted(db.admissions, organization, call)
    && (EverConsumed(db.permits, organization, call) ==> db.admissions[call].state == Dispatched)
  }

  lemma StepGoverned(db: Tables, s: Statement, organization: Id, call: Id)
    requires Governed(db, organization, call)
    ensures Governed(Step(db, s), organization, call)
  {
    var db' := Step(db, s);
    if EverConsumed(db'.permits, organization, call) && !EverConsumed(db.permits, organization, call) {
      var p :| p in db'.permits && db'.permits[p].organization == organization && db'.permits[p].call == call
        && Taken(db'.permits[p].state);
      assert s.MovePermit? && s.id == p;
    }
  }

  /** The other case: a permit of the call was consumed before the admission came. */
  ghost predicate Overtaken(db: Tables, organization: Id, call: Id) {
    && Admitted(db.admissions, organization, call) && db.admissions[call].state != Dispatched
    && EverConsumed(db.permits, organization, call)
  }

  lemma StepOvertaken(db: Tables, s: Statement, organization: Id, call: Id)
    requires UniqueOk(db.permits) && Overtaken(db, organization, call)
    ensures Overtaken(Step(db, s), organization, call)
  {
    var p :| p in db.permits && db.permits[p].organization == organization && db.permits[p].call == call
      && Taken(db.permits[p].state);
    var db' := Step(db, s);
    assert p in db'.permits && db'.permits[p].organization == organization && db'.permits[p].call == call
      && Taken(db'.permits[p].state);
    forall t
      ensures !LivePermit(db.permits, organization, call, t)
    {
    }
  }

  lemma {:induction false} AfterConcat(db: Tables, run: seq<Statement>, later: seq<Statement>)
    ensures After(db, run + later) == After(After(db, run), later)
  {
    if later == [] {
      assert run + later == run;
    } else {
      var n := |later| - 1;
      AfterConcat(db, run, later[..n]);
      assert (run + later)[..|run + later| - 1] == run + later[..n];
    }
  }

  lemma {:induction false} GovernedForever(run: seq<Statement>, later: seq<Statement>, organization: Id, call: Id)
    ensures Governed(After(Empty, run), organization, call) ==>
      Governed(After(After(Empty, run), later), organization, call)
    ensures Overtaken(After(Empty, run), organization, call) ==>
      Overtaken(After(After(Empty, run), later), organization, call)
  {
    if later != [] {
      var n := |later| - 1;
      GovernedForever(run, later[..n], organization, call);
      var db := After(After(Empty, run), later[..n]);
      AfterConcat(Empty, run, later[..n]);
      RunInv(run + later[..n]);
      if Governed(db, organization, call) { StepGoverned(db, later[n], organization, call); }
      if Overtaken(db, organization, call) { StepOvertaken(db, later[n], organization, call); }
    }
  }

  /** Whatever happens after an admission is recorded, a consumed permit of its call implies the
      admission was dispatched, if and only if no permit of the call had been consumed before. */
  lemma {:induction false} AdmissionGovernsExactly(run: seq<Statement>, call: Id, row: Admission, now: Time,
                                                   later: seq<Statement>)
    requires InsertAdmission(After(Empty, run), call, row, now).Some?
    ensures Governed(After(Empty, run + [Admit(call, row, now)] + later), row.organization, call) <==>
            !EverConsumed(After(Empty, run).permits, row.organization, call)
  {
    var admitted := run + [Admit(call, row, now)];
    assert admitted[..|admitted| - 1] == run;
    AfterConcat(Empty, admitted, later);
    GovernedForever(admitted, later, row.organization, call);
  }

  lemma StepKeepsWithdrawal(db: Tables, s: Statement, call: Id)
    requires call in db.admissions && db.admissions[call].state != Pending
    ensures call in Step(db, s).admissions && Step(db, s).admissions[call] == db.admissions[call]
  {
  }

  /** An admission leaves PENDING once: dispatched or withdrawn, it never changes again. */
  lemma {:induction false} SettledAdmissionsAbsorb(db: Tables, later: seq<Statement>, call: Id)
    requires call in db.admissions && db.admissions[call].state != Pending
    ensures call in After(db, later).admissions && After(db, later).admissions[call] == db.admissions[call]
  {
    if later != [] {
      SettledAdmissionsAbsorb(db, later[..|later| - 1], call);
      StepKeepsWithdrawal(After(db, later[..|later| - 1]), later[|later| - 1], call);
    }
  }

  /** Withdrawing the admission of a call none of whose permits was consumed stops it for good. */
  lemma {:induction false} WithdrawalIsFinal(run: seq<Statement>, later: seq<Statement>, organization: Id, call: Id)
    requires Governed(After(Empty, run), organization, call) && After(Empty, run).admissions[call].state == Withdrawn
    ensures !EverConsumed(After(Empty, run + later).permits, organization, call)
  {
    AfterConcat(Empty, run, later);
    GovernedForever(run, later, organization, call);
    SettledAdmissionsAbsorb(After(Empty, run), later, call);
  }

  // ----- sixty seconds --------------------------------------------------------------------------

  /** A permit of the call that was issued before the admission expired. */
  ghost predicate Backed(permits: map<Id, Permit>, organization: Id, call: Id, deadline: Time) {
    exists p | p in permits :: permits[p].organization == organization && permits[p].call == call
      && permits[p].issuedAt < deadline
  }

  ghost predicate ClockOk(db: Tables, clock: Time) {
    && (forall p | p in db.permits :: db.permits[p].issuedAt <= clock)
    && (forall c | c in db.admissions && db.admissions[c].state == Dispatched ::
          Backed(db.permits, db.admissions[c].organization, c, db.admissions[c].expiresAt))
  }

  lemma BackedKept(db: Tables, s: Statement, organization: Id, call: Id, deadline: Time)
    requires Backed(db.permits, organization, call, deadline)
    ensures Backed(Step(db, s).permits, organization, call, deadline)
  {
    var p :| p in db.permits && db.permits[p].organization == organization && db.permits[p].call == call
      && db.permits[p].issuedAt < deadline;
    assert p in Step(db, s).permits && Step(db, s).permits[p].issuedAt == db.permits[p].issuedAt;
  }

  lemma StepClock(db: Tables, s: Statement, clock: Time)
    requires ClockOk(db, clock) && clock <= s.now <= LastReading(s)
    ensures ClockOk(Step(db, s), LastReading(s))
  {
    var db' := Step(db, s);
    forall c | c in db'.admissions && db'.admissions[c].state == Dispatched
      ensures Backed(db'.permits, db'.admissions[c].organization, c, db'.admissions[c].expiresAt)
    {
      var a := db'.admissions[c];
      if c in db.admissions && db.admissions[c] == a {
        BackedKept(db, s, a.organization, c, a.expiresAt);
      } else {
        assert s.MoveAdmission? && s.call == c && LivePermit(db.permits, a.organization, c, s.later);
        var p :| p in db.permits && db.permits[p].organization == a.organization && db.permits[p].call == c
                 && db.permits[p].state == Authorized && db.permits[p].expiresAt > s.later;
        assert db.permits[p].issuedAt <= clock < a.expiresAt;
        BackedKept(db, s, a.organization, c, a.expiresAt);
      }
    }
  }

  lemma {:induction false} RunClock(run: seq<Statement>, clock: Time)
    requires Ordered(run) && (run != [] ==> clock == LastReading(run[|run| - 1]))
    ensures ClockOk(After(Empty, run), clock)
  {
    if run != [] {
      var n := |run| - 1;
      var before := if n == 0 then run[n].now else LastReading(run[n - 1]);
      assert Ordered(run[..n]);
      RunClock(run[..n], before);
      StepClock(After(Empty, run[..n]), run[n], before);
    }
  }

  /** Sixty seconds after an admission was created no permit of its call can be consumed any more:
      thirty for the admission to be dispatched and thirty for the permit issued before that. */
  lemma {:induction false} ConsumedWithinSixtySeconds(run: seq<Statement>, id: Id, row: Permit, now: Time, later: Time)
    requires Ordered(run)
    requires id in After(Empty, run).permits && row.state == Consumed
    requires Admitted(After(Empty, run).admissions, row.organization, row.call)
    requires UpdatePermit(After(Empty, run), id, row, now, later, true).Some?
    ensures now < After(Empty, run).admissions[row.call].createdAt + 2 * TTL
  {
    var db := After(Empty, run);
    RunInv(run);
    RunClock(run, if run == [] then now else LastReading(run[|run| - 1]));
    var a := db.admissions[row.call];
    assert a.state == Dispatched;
    var p :| p in db.permits && db.permits[p].organization == row.organization && db.permits[p].call == row.call
             && db.permits[p].issuedAt < a.expiresAt;
    assert p == id;
  }

  // ----- witnesses ------------------------------------------------------------------------------

  const SamplePermit := Permit(1, 7, 2, 3, "token", "", Authorized, 0, 0, None, None, None)

  /** The sample permit as issued at `t`, and as an edge consumes it. */
  function SampleIssued(t: Time): Permit { SamplePermit.(issuedAt := t, expiresAt := t + TTL) }

  function SampleConsumed(t: Time, digest: string): Permit {
    SampleIssued(t).(state := Consumed, edge := Some(4), boot := Some(5), digest := Some(digest))
  }

  lemma RunSnoc(run: seq<Statement>, s: Statement)
    ensures After(Empty, run + [s]) == Step(After(Empty, run), s)
  {
    assert (run + [s])[..|run|] == run;
  }

  /** The admission that comes too late: the permit is consumed first, and withdrawing changes nothing. */
  lemma {:induction false} LateAdmissionGovernsNothing(digest: string)
    requires Hex64(digest)
    ensures exists run ::
      Ordered(run) && Overtaken(After(Empty, run), 1, 7) && After(Empty, run).admissions[7].state == Withdrawn
  {
    var a := Admission(1, 9, Pending, 2, 2 + TTL);
    var r1 := [Issue(0, SamplePermit, 0, 0, true)];
    RunSnoc([], r1[0]);
    assert After(Empty, r1).permits == map[0 := SampleIssued(0)];
    var r2 := r1 + [MovePermit(0, SampleConsumed(0, digest), 1, 1, true)];
    RunSnoc(r1, r2[1]);
    assert After(Empty, r2).permits == map[0 := SampleConsumed(0, digest)];
    var r3 := r2 + [Admit(7, a, 2)];
    RunSnoc(r2, r3[2]);
    assert After(Empty, r3).admissions == map[7 := a];
    var r4 := r3 + [MoveAdmission(7, a.(state := Withdrawn), 3, 3)];
    RunSnoc(r3, r4[3]);
    assert 0 in After(Empty, r4).permits && Taken(After(Empty, r4).permits[0].state);
  }

  /** An admission made at time zero whose permit is consumed at the last microsecond of the minute. */
  ghost predicate AcceptsLate(db: Tables, digest: string) {
    && Admitted(db.admissions, 1, 7) && db.admissions[7].createdAt == 0 && 0 in db.permits
    && UpdatePermit(db, 0, SampleConsumed(TTL - 1, digest), 2 * TTL - 1, 2 * TTL, true).Some?
  }

  /** A call admitted at time zero whose permit is issued, and which is dispatched, at `t`. */
  function SampleRun(t: Time): seq<Statement> {
    var a := Admission(1, 9, Pending, 0, TTL);
    [Admit(7, a, 0), Issue(0, SamplePermit, t, t, true), MoveAdmission(7, a.(state := Dispatched), t, t)]
  }

  lemma SampleRunEnds(t: Time)
    requires 0 <= t < TTL
    ensures var db := After(Empty, SampleRun(t));
      && db.admissions == map[7 := Admission(1, 9, Dispatched, 0, TTL)]
        && db.permits == map[0 := SampleIssued(t)] && db.routes == map[]
  {
    var r := SampleRun(t);
    assert r[..1] == [] + [r[0]] && r[..2] == r[..1] + [r[1]] && r == r[..2] + [r[2]];
    RunSnoc([], r[0]);
    assert After(Empty, r[..1]).admissions == map[7 := Admission(1, 9, Pending, 0, TTL)];
    RunSnoc(r[..1], r[1]);
    var permits := After(Empty, r[..2]).permits;
    assert permits == map[0 := SampleIssued(t)] && 0 in permits;
    assert LivePermit(permits, 1, 7, t);
    RunSnoc(r[..2], r[2]);
  }

  /** The sixty seconds are tight: a consumption one microsecond earlier is accepted. */
  lemma {:induction false} SixtySecondsIsTight(digest: string)
    requires Hex64(digest)
    ensures exists run :: Ordered(run) && AcceptsLate(After(Empty, run), digest)
  {
    SampleRunEnds(TTL - 1);
    assert AcceptsLate(After(Empty, SampleRun(TTL - 1)), digest);
    assert Ordered(SampleRun(TTL - 1));
  }
}
