/**
  Compliance plan executions: one row per plan, claimed under a lease, taken over when the lease has
  run out, finished only while it runs. The model keeps every version of a row, oldest first.
*/
module ComplianceLease {
  import opened Prelude

  type Id = nat
  type Time = int

  datatype ExecutionState = Claimed | Completed | Failed | Ambiguous

  /** `rest` stands for the columns the fence does not look at, apart from the result. */
  datatype Execution = Execution(owner: Id, generation: int, state: ExecutionState, lease: Time, result: string,
                                 completedAt: Option<Time>, rest: string)

  /** The versions of the row of each plan of each organization. */
  type Slots = map<(Id, Id), seq<Execution>>

  predicate Finish(was: Execution, row: Execution, now: Time) {
    row.generation == was.generation && row.owner == was.owner && row.lease == was.lease && row.state != Claimed
      && was.lease > now
  }

  predicate Takeover(was: Execution, row: Execution, now: Time, later: Time) {
    && row.generation == was.generation + 1 && row.state == Claimed && was.lease <= now
    && row.owner != was.owner && row.lease > later
  }

  /** The update fence; the clock is read at `now` and again at `later`. */
  predicate Fence(was: Execution, row: Execution, now: Time, later: Time) {
    && was.state == Claimed
    && (if row.generation != was.generation then Takeover(was, row, now, later) else Finish(was, row, now))
    && (row.state != Claimed <==> row.completedAt.Some?)
    && row.generation > 0
  }

  function Insert(slots: Slots, plan: (Id, Id), row: Execution): Option<Slots> {
    if row.generation != 1 || row.state != Claimed || row.completedAt.Some? || plan in slots then None
    else Some(slots[plan := [row]])
  }

  function Update(slots: Slots, plan: (Id, Id), row: Execution, now: Time, later: Time): Option<Slots> {
    if plan !in slots || slots[plan] == [] then Some(slots)
    else if !Fence(slots[plan][|slots[plan]| - 1], row, now, later) then None
    else Some(slots[plan := slots[plan] + [row]])
  }

  /** `elapsed` is the time between the two clock readings of an update. */
  datatype Statement =
    | Claim(plan: (Id, Id), row: Execution)
    | Change(plan: (Id, Id), row: Execution, now: Time, elapsed: nat)

  function Execute(slots: Slots, s: Statement): Option<Slots> {
    match s
    case Claim(plan, row) => Insert(slots, plan, row)
    case Change(plan, row, now, elapsed) => Update(slots, plan, row, now, now + elapsed)
  }

  function Step(slots: Slots, s: Statement): Slots {
    match Execute(slots, s) case Some(slots') => slots' case None => slots
  }

  function After(run: seq<Statement>): Slots {
    if run == [] then map[] else Step(After(run[..|run| - 1]), run[|run| - 1])
  }

  // ----- the table as it is updated ---------------------------------------------------------------

  class Store {
    var rows: map<(Id, Id), Execution>
    ghost var versions: Slots

    ghost predicate Valid()
      reads this
    {
      && rows.Keys == versions.Keys
      && forall p | p in rows :: |versions[p]| > 0 && versions[p][|versions[p]| - 1] == rows[p]
    }

    constructor ()
      ensures Valid() && versions == map[]
    {
      rows, versions := map[], map[];
    }

    method Insert(plan: (Id, Id), row: Execution) returns (ok: bool)
      requires Valid()
      modifies this
      ensures Valid() && versions == Step(old(versions), Claim(plan, row))
      ensures ok <==> Execute(old(versions), Claim(plan, row)).Some?
    {
      ok := row.generation == 1 && row.state == Claimed && row.completedAt.None? && plan !in rows;
      if ok {
        rows := rows[plan := row];
        versions := versions[plan := [row]];
      }
    }

    method Update(plan: (Id, Id), row: Execution, now: Time, elapsed: nat) returns (ok: bool)
      requires Valid()
      modifies this
      ensures Valid() && versions == Step(old(versions), Change(plan, row, now, elapsed))
      ensures ok <==> Execute(old(versions), Change(plan, row, now, elapsed)).Some?
    {
      if plan !in rows { return true; }
      var was := rows[plan];
      if was.state != Claimed { return false; }
      if row.generation != was.generation {
        if row.generation != was.generation + 1 || row.state != Claimed || was.lease > now || row.owner == was.owner
           || row.lease <= now + elapsed { return false; }
      } else if row.owner != was.owner || row.lease != was.lease || row.state == Claimed || was.lease <= now {
        return false;
      }
      if (row.state != Claimed) != row.completedAt.Some? || row.generation <= 0 { return false; }
      rows := rows[plan := row];
      versions := versions[plan := versions[plan] + [row]];
      ok := true;
    }
  }

  // ----- what the versions of a row show -------------------------------------------------------------

  ghost predicate Moves(a: Execution, b: Execution) {
    && a.state == Claimed
    && ((b.generation == a.generation + 1 && b.state == Claimed && b.owner != a.owner && b.lease > a.lease)
        || (b.generation == a.generation && b.state != Claimed && b.owner == a.owner && b.lease == a.lease))
  }

  ghost predicate Versions(v: seq<Execution>) {
    && |v| > 0 && v[0].generation == 1 && v[0].state == Claimed
    && forall i | 0 < i < |v| :: Moves(v[i - 1], v[i])
  }

  ghost predicate Inv(slots: Slots) {
    forall p | p in slots :: Versions(slots[p])
  }

  lemma StepInv(slots: Slots, s: Statement)
    requires Inv(slots)
    ensures Inv(Step(slots, s))
  {
    if s.Change? && s.plan in slots && Execute(slots, s).Some? {
      var v := slots[s.plan];
      assert Moves(v[|v| - 1], s.row);
      var longer := v + [s.row];
      assert forall i | 0 < i < |longer| :: Moves(longer[i - 1], longer[i]);
    }
  }

  lemma {:induction false} RunInv(run: seq<Statement>)
    ensures Inv(After(run))
  {
    if run != [] {
      RunInv(run[..|run| - 1]);
      StepInv(After(run[..|run| - 1]), run[|run| - 1]);
    }
  }

  lemma {:induction false} VersionsCount(v: seq<Execution>, i: nat)
    requires Versions(v) && i < |v|
    ensures v[i].state == Claimed ==> v[i].generation == i + 1
    ensures v[i].state != Claimed ==> i == |v| - 1 && i > 0 && v[i].generation == i && v[i].owner == v[i - 1].owner
  {
    if i > 0 {
      VersionsCount(v, i - 1);
      assert Moves(v[i - 1], v[i]);
    }
    if i < |v| - 1 {
      assert Moves(v[i], v[i + 1]);
    }
  }

  /** Every version but the last is a claim of the next generation; a finished version is the last one,
      written by the owner of the generation it ends. So a plan is finished at most once. */
  lemma {:induction false} FinishedAtMostOnce(run: seq<Statement>, p: (Id, Id), i: nat)
    requires p in After(run) && i < |After(run)[p]|
    ensures var v := After(run)[p];
      && (v[i].state == Claimed ==> v[i].generation == i + 1)
      && (v[i].state != Claimed ==> i == |v| - 1 && i > 0 && v[i].generation == i && v[i].owner == v[i - 1].owner)
  {
    RunInv(run);
    VersionsCount(After(run)[p], i);
  }

  /** A finished row never changes again, whatever statements follow. */
  lemma {:induction false} FinishedIsFinal(run: seq<Statement>, later: seq<Statement>, p: (Id, Id), i: nat)
    requires p in After(run) && i < |After(run)[p]| && After(run)[p][i].state != Claimed
    ensures p in After(run + later) && After(run + later)[p] == After(run)[p]
  {
    FinishedAtMostOnce(run, p, i);
    if later == [] {
      assert run + later == run;
    } else {
      var n := |later| - 1;
      FinishedIsFinal(run, later[..n], p, i);
      assert (run + later)[..|run + later| - 1] == run + later[..n];
    }
  }

  /** At one clock reading finishing and taking over are never both possible, and one of them is whenever
      the row is claimed. */
  lemma {:induction false} FinishExcludesTakeover(was: Execution, now: Time)
    requires was.generation > 0
    ensures !(CanFinish(was, now) && CanTakeOver(was, now))
    ensures CanFinish(was, now) || CanTakeOver(was, now) <==> was.state == Claimed
  {
    if was.state == Claimed {
      assert was.lease > now ==> Fence(was, was.(state := Completed, completedAt := Some(now)), now, now);
      var theirs := was.(generation := was.generation + 1, owner := was.owner + 1, lease := now + 1,
        completedAt := None);
      assert was.lease <= now ==> Fence(was, theirs, now, now);
    }
  }

  ghost predicate CanFinish(was: Execution, now: Time) {
    exists row :: Fence(was, row, now, now) && row.state != Claimed
  }

  ghost predicate CanTakeOver(was: Execution, now: Time) {
    exists row :: Fence(was, row, now, now) && row.generation != was.generation
  }

  // ----- the result column ------------------------------------------------------------------------------

  /** A row that stays claimed and carries another result than before. */
  predicate Overwrites(was: Execution, row: Execution) {
    row.state == Claimed && row.result != was.result
  }

  /** The fence lets the result of a row be written before it is finished if and only if the row may be
      taken over: it is claimed and its lease is over. */
  lemma {:induction false} FenceAllowsOverwriteExactly(was: Execution, now: Time)
    requires was.generation > 0
    ensures (exists row :: Fence(was, row, now, now) && Overwrites(was, row)) <==>
      was.state == Claimed && was.lease <= now
  {
    if was.state == Claimed && was.lease <= now {
      var row := Execution(was.owner + 1, was.generation + 1, Claimed, now + 1, was.result + "!", None, was.rest);
      assert |row.result| == |was.result| + 1;
      assert Fence(was, row, now, now) && Overwrites(was, row);
    }
  }

  /** A statement at `now` that is accepted and overwrites the result of a plan's unfinished row. */
  ghost predicate CanOverwrite(slots: Slots, plan: (Id, Id), now: Time)
    requires plan in slots && slots[plan] != []
  {
    exists row, elapsed ::
      Execute(slots, Change(plan, row, now, elapsed)).Some? && Overwrites(slots[plan][|slots[plan]| - 1], row)
  }

  /** In every run: an overwrite is accepted at `now` if and only if the latest version of the row is
      claimed under a lease that is over. */
  lemma {:induction false} OverwriteAcceptedExactly(run: seq<Statement>, plan: (Id, Id), now: Time)
    requires plan in After(run)
    ensures var v := After(run)[plan];
      && v != []
      && (CanOverwrite(After(run), plan, now) <==> v[|v| - 1].state == Claimed && v[|v| - 1].lease <= now)
  {
    RunInv(run);
    var v := After(run)[plan];
    var was := v[|v| - 1];
    VersionsCount(v, |v| - 1);
    FenceAllowsOverwriteExactly(was, now);
    if was.state == Claimed && was.lease <= now {
      var row :| Fence(was, row, now, now) && Overwrites(was, row);
      assert Execute(After(run), Change(plan, row, now, 0)).Some?;
    }
  }

  /** A run in which a takeover writes another result. */
  lemma {:induction false} TakeoverMayWriteResult(plan: (Id, Id))
    ensures exists run ::
      plan in After(run) && |After(run)[plan]| == 2 && Overwrites(After(run)[plan][0], After(run)[plan][1])
  {
    var first := Execution(1, 1, Claimed, 10, "before", None, "");
    var second := Execution(2, 2, Claimed, 30, "after", None, "");
    var claimed := [Claim(plan, first)];
    assert claimed[..0] == [] && After(claimed) == map[plan := [first]];
    var taken := claimed + [Change(plan, second, 10, 5)];
    assert taken[..1] == claimed && After(taken)[plan] == [first, second];
  }

  /** A takeover that sets the owner, the generation and the lease and leaves every other column alone. */
  predicate SetsLeaseOnly(was: Execution, row: Execution) {
    row == was.(owner := row.owner, generation := row.generation, lease := row.lease)
  }

  /** The takeovers among the versions set the owner, the generation and the lease only. */
  ghost predicate TakeoversSetLeaseOnly(v: seq<Execution>) {
    forall i | 0 < i < |v| :: v[i].state == Claimed ==> SetsLeaseOnly(v[i - 1], v[i])
  }

  lemma {:induction false} ClaimsKeepColumns(v: seq<Execution>, i: nat)
    requires Versions(v) && TakeoversSetLeaseOnly(v) && i < |v| && v[i].state == Claimed
    ensures SetsLeaseOnly(v[0], v[i])
  {
    if i > 0 {
      assert Moves(v[i - 1], v[i]);
      ClaimsKeepColumns(v, i - 1);
    }
  }

  /** In every run whose takeovers set only owner, generation and lease, the result is the inserted one in
      every version but the single one that finishes the row. */
  lemma {:induction false} ResultStaysInserted(run: seq<Statement>, plan: (Id, Id), i: nat)
    requires plan in After(run) && TakeoversSetLeaseOnly(After(run)[plan]) && i < |After(run)[plan]|
    ensures var v := After(run)[plan];
      && (v[i].state == Claimed ==> v[i].result == v[0].result && v[i].rest == v[0].rest)
      && (v[i].state != Claimed ==> i == |v| - 1)
  {
    FinishedAtMostOnce(run, plan, i);
    RunInv(run);
    if After(run)[plan][i].state == Claimed { ClaimsKeepColumns(After(run)[plan], i); }
  }

  // ----- when a statement is accepted ----------------------------------------------------------------

  function Latest(v: seq<Execution>): Execution
    requires v != []
  {
    v[|v| - 1]
  }

  /** A claimed version is not completed. */
  lemma {:induction false} ClaimedHasNoCompletion(run: seq<Statement>, plan: (Id, Id), i: nat)
    requires plan in After(run) && i < |After(run)[plan]| && After(run)[plan][i].state == Claimed
    ensures After(run)[plan][i].completedAt == None
  {
    if run != [] {
      var before := run[..|run| - 1];
      if plan in After(before) && i < |After(before)[plan]| {
        assert After(run)[plan][i] == After(before)[plan][i];
        ClaimedHasNoCompletion(before, plan, i);
      }
    }
  }

  lemma LatestFacts(run: seq<Statement>, plan: (Id, Id))
    requires plan in After(run)
    ensures After(run)[plan] != [] && Latest(After(run)[plan]).generation > 0
    ensures Latest(After(run)[plan]).state == Claimed ==> Latest(After(run)[plan]).completedAt == None
  {
    RunInv(run);
    var v := After(run)[plan];
    VersionsCount(v, |v| - 1);
    if Latest(v).state == Claimed { ClaimedHasNoCompletion(run, plan, |v| - 1); }
  }

  /** A row is taken over if and only if it is claimed, its lease is over, the owner is another one and the
      new lease is not over; whatever else it writes. */
  lemma {:induction false} TakeoverExactly(run: seq<Statement>, plan: (Id, Id), owner: Id, lease: Time, result: string,
                                           now: Time, elapsed: nat)
    requires plan in After(run)
    ensures var v := After(run)[plan];
      v != [] &&
      var was := Latest(v);
      var row := was.(owner := owner, generation := was.generation + 1, lease := lease, result := result,
                      state := Claimed);
      Execute(After(run), Change(plan, row, now, elapsed)) ==
        if was.state == Claimed && was.lease <= now && owner != was.owner && lease > now + elapsed
        then Some(After(run)[plan := v + [row]]) else None
  {
    LatestFacts(run, plan);
  }

  /** A row is finished, in any of the three ways, if and only if it is claimed and its lease is not over. */
  lemma {:induction false} FinishExactly(run: seq<Statement>, plan: (Id, Id), next: ExecutionState, at: Time,
                                         result: string, now: Time, elapsed: nat)
    requires plan in After(run) && next in {Completed, Failed, Ambiguous}
    ensures var v := After(run)[plan];
      v != [] &&
      var was := Latest(v);
      var row := was.(state := next, completedAt := Some(at), result := result);
      Execute(After(run), Change(plan, row, now, elapsed)) ==
        if was.state == Claimed && was.lease > now then Some(After(run)[plan := v + [row]]) else None
  {
    LatestFacts(run, plan);
  }

  /** A plan is claimed if and only if it has no row, as generation one and not completed. */
  lemma {:induction false} ClaimExactly(run: seq<Statement>, plan: (Id, Id), row: Execution)
    ensures Execute(After(run), Claim(plan, row)) ==
      if plan !in After(run) && row.generation == 1 && row.state == Claimed && row.completedAt == None
      then Some(After(run)[plan := [row]]) else None
  {
  }
}
