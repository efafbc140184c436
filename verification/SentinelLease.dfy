/**
  Sentinel execution slots: one durable row per proposal, claimed under a lease, taken over when the
  lease has run out, dispatched at most once. The model keeps every version of a row, oldest first.
*/
module SentinelLease {
  import opened Prelude

  type Id = nat
  type Time = int

  datatype DispatchState = Claimed | Dispatched | Completed | Ambiguous

  datatype Execution = Execution(id: Id, key: string, startedAt: Time, generation: int, owner: Id, lease: Time,
                                 state: DispatchState, completedAt: Option<Time>, result: Option<string>)

  /** The versions of each proposal's row. */
  type Slots = map<Id, seq<Execution>>

  predicate Finished(s: DispatchState) { s == Completed || s == Ambiguous }

  predicate RowChecks(row: Execution) {
    row.generation > 0 && row.lease > row.startedAt
      && (row.completedAt.Some? ==> row.completedAt.value >= row.startedAt)
  }

  /** Keys and identifiers never change, so the first version shows them. */
  predicate KeyTaken(slots: Slots, row: Execution) {
    exists p | p in slots :: slots[p] != [] && (slots[p][0].key == row.key || slots[p][0].id == row.id)
  }

  function Insert(slots: Slots, proposal: Id, row: Execution): Option<Slots> {
    if row.generation != 1 || row.state != Claimed || row.completedAt.Some? then None
    else if proposal in slots || KeyTaken(slots, row) || !RowChecks(row) then None
    else Some(slots[proposal := [row]])
  }

  /** A takeover: the generation rises by one, the old lease is over and the new one is not. */
  predicate Takeover(was: Execution, row: Execution, now: Time, later: Time) {
    && row.generation == was.generation + 1 && was.state == Claimed && row.state == Claimed
    && was.lease <= now && row.lease > later && row.owner != was.owner
  }

  /** A step of the owner within its generation. */
  predicate OwnStep(was: Execution, row: Execution) {
    && row.generation == was.generation && row.owner == was.owner && row.lease == was.lease
    && ((was.state == Claimed && row.state in {Dispatched, Completed})
          || (was.state == Dispatched && Finished(row.state)))
  }

  /** The update fence; the clock is read at `now` and again at `later`. */
  predicate Fence(was: Execution, row: Execution, now: Time, later: Time) {
    && row.id == was.id && row.key == was.key && row.startedAt == was.startedAt && !Finished(was.state)
    && (if row.generation != was.generation then Takeover(was, row, now, later) else OwnStep(was, row))
    && (row.state == Dispatched ==> row.lease > later)
    && (Finished(row.state) <==> row.completedAt.Some?)
    && RowChecks(row)
  }

  function Update(slots: Slots, proposal: Id, row: Execution, now: Time, later: Time): Option<Slots> {
    if proposal !in slots || slots[proposal] == [] then Some(slots)
    else if !Fence(slots[proposal][|slots[proposal]| - 1], row, now, later) then None
    else Some(slots[proposal := slots[proposal] + [row]])
  }

  /** `elapsed` is the time between the two clock readings of an update. */
  datatype Statement =
    | Claim(proposal: Id, row: Execution)
    | Change(proposal: Id, row: Execution, now: Time, elapsed: nat)
    | Remove(proposal: Id)

  /** A removal is always refused. */
  function Execute(slots: Slots, s: Statement): Option<Slots> {
    match s
    case Claim(proposal, row) => Insert(slots, proposal, row)
    case Change(proposal, row, now, elapsed) => Update(slots, proposal, row, now, now + elapsed)
    case Remove(proposal) => if proposal in slots then None else Some(slots)
  }

  function Step(slots: Slots, s: Statement): Slots {
    match Execute(slots, s) case Some(slots') => slots' case None => slots
  }

  function After(run: seq<Statement>): Slots {
    if run == [] then map[] else Step(After(run[..|run| - 1]), run[|run| - 1])
  }

  // ----- the table as it is updated ---------------------------------------------------------------

  class Store {
    var rows: map<Id, Execution>
    ghost var versions: Slots

    ghost predicate Valid()
      reads this
    {
      && rows.Keys == versions.Keys
      && forall p | p in rows :: |versions[p]| > 0 && versions[p][|versions[p]| - 1] == rows[p]
           && versions[p][0].key == rows[p].key && versions[p][0].id == rows[p].id
    }

    constructor ()
      ensures Valid() && versions == map[]
    {
      rows, versions := map[], map[];
    }

    method Insert(proposal: Id, row: Execution) returns (ok: bool)
      requires Valid()
      modifies this
      ensures Valid() && versions == Step(old(versions), Claim(proposal, row))
      ensures ok <==> Execute(old(versions), Claim(proposal, row)).Some?
    {
      if row.generation != 1 || row.state != Claimed || row.completedAt.Some? { return false; }
      if proposal in rows || !RowChecks(row) { return false; }
      if exists p | p in rows :: rows[p].key == row.key || rows[p].id == row.id {
        assert KeyTaken(versions, row);
        return false;
      }
      rows := rows[proposal := row];
      versions := versions[proposal := [row]];
      ok := true;
    }

    method Update(proposal: Id, row: Execution, now: Time, elapsed: nat) returns (ok: bool)
      requires Valid()
      modifies this
      ensures Valid() && versions == Step(old(versions), Change(proposal, row, now, elapsed))
      ensures ok <==> Execute(old(versions), Change(proposal, row, now, elapsed)).Some?
    {
      if proposal !in rows { return true; }
      var was := rows[proposal];
      if row.id != was.id || row.key != was.key || row.startedAt != was.startedAt || Finished(was.state) {
        return false;
      }
      if row.generation != was.generation {
        if !Takeover(was, row, now, now + elapsed) { return false; }
      } else if !OwnStep(was, row) {
        return false;
      }
      if row.state == Dispatched && row.lease <= now + elapsed { return false; }
      if Finished(row.state) != row.completedAt.Some? || !RowChecks(row) { return false; }
      rows := rows[proposal := row];
      versions := versions[proposal := versions[proposal] + [row]];
      ok := true;
    }
  }

  // ----- what the versions of a row show -------------------------------------------------------------

  /** One version to the next. A takeover extends the lease. */
  ghost predicate Moves(a: Execution, b: Execution) {
    && a.id == b.id && a.key == b.key && a.startedAt == b.startedAt
    && ((b.generation == a.generation + 1 && a.state == b.state == Claimed && b.owner != a.owner
          && b.lease > a.lease) || OwnStep(a, b))
  }

  ghost predicate Versions(v: seq<Execution>) {
    && |v| > 0 && v[0].generation == 1 && v[0].state == Claimed
    && forall i | 0 < i < |v| :: Moves(v[i - 1], v[i])
  }

  ghost predicate Inv(slots: Slots) {
    && (forall p | p in slots :: Versions(slots[p]))
    && (forall p, q | p in slots && q in slots && p != q ::
          slots[p][0].key != slots[q][0].key && slots[p][0].id != slots[q][0].id)
  }

  lemma StepInv(slots: Slots, s: Statement)
    requires Inv(slots)
    ensures Inv(Step(slots, s))
  {
    if s.Change? && s.proposal in slots && Execute(slots, s).Some? {
      var v := slots[s.proposal];
      assert Moves(v[|v| - 1], s.row);
      var longer := v + [s.row];
      assert forall i | 0 < i < |longer| :: Moves(longer[i - 1], longer[i]);
    } else if s.Claim? && Execute(slots, s).Some? {
      assert forall p | p in slots :: slots[p][0].key != s.row.key && slots[p][0].id != s.row.id;
    }
  }

  lemma {:induction false} RunInv(run: seq<Statement>)
    ensures Inv(After(run))
  {
    if run != [] {
      RunInv(run[..|run| - 1]);
      StepInv(After(run[..|run| - 1]), run[|run| - 1]);
    }
  }

  /** Nothing but the state, completion and result changes once a row has left CLAIMED. */
  lemma {:induction false} SettledOwner(v: seq<Execution>, i: nat, j: nat)
    requires Versions(v) && i <= j < |v| && v[i].state != Claimed
    ensures v[j].state != Claimed && v[j].owner == v[i].owner
    ensures v[j].generation == v[i].generation && v[j].lease == v[i].lease
    ensures i < j ==> Finished(v[j].state) && v[i].state == Dispatched && j == i + 1
  {
    if i < j {
      SettledOwner(v, i, j - 1);
      assert Moves(v[j - 1], v[j]);
    }
  }

  lemma {:induction false} GenerationsRise(v: seq<Execution>, i: nat, j: nat)
    requires Versions(v) && i <= j < |v|
    ensures v[i].generation <= v[j].generation <= v[i].generation + (j - i) && v[i].lease <= v[j].lease
  {
    if i < j {
      GenerationsRise(v, i, j - 1);
      assert Moves(v[j - 1], v[j]);
    }
  }

  /** A proposal is dispatched at most once, whoever owned it, and no takeover follows a dispatch. */
  lemma {:induction false} DispatchedAtMostOnce(run: seq<Statement>, p: Id, i: nat, j: nat)
    requires p in After(run) && i <= j < |After(run)[p]| && After(run)[p][i].state == Dispatched
    ensures var v := After(run)[p];
      && (v[j].state == Dispatched ==> i == j)
      && v[j].owner == v[i].owner && v[j].generation == v[i].generation
  {
    RunInv(run);
    SettledOwner(After(run)[p], i, j);
  }

  /** From one version to the next the owner changes exactly when the generation rises, by exactly one,
      and then the row is claimed, undispatched, and under a later lease. */
  lemma {:induction false} OwnerChangesWithGeneration(run: seq<Statement>, p: Id, i: nat)
    requires p in After(run) && i + 1 < |After(run)[p]|
    ensures var a, b := After(run)[p][i], After(run)[p][i + 1];
      && (b.owner != a.owner <==> b.generation != a.generation)
      && (b.owner != a.owner ==> b.generation == a.generation + 1 && a.state == b.state == Claimed && b.lease > a.lease)
  {
    RunInv(run);
    assert Moves(After(run)[p][i], After(run)[p][i + 1]);
  }

  /** A generation has one owner and one lease. */
  lemma {:induction false} GenerationHasOneOwner(run: seq<Statement>, p: Id, i: nat, j: nat)
    requires p in After(run) && i < |After(run)[p]| && j < |After(run)[p]|
    requires After(run)[p][i].generation == After(run)[p][j].generation
    ensures After(run)[p][i].owner == After(run)[p][j].owner && After(run)[p][i].lease == After(run)[p][j].lease
  {
    RunInv(run);
    SameGeneration(After(run)[p], if i <= j then i else j, if i <= j then j else i);
  }

  lemma {:induction false} SameGeneration(v: seq<Execution>, i: nat, j: nat)
    requires Versions(v) && i <= j < |v| && v[i].generation == v[j].generation
    ensures v[i].owner == v[j].owner && v[i].lease == v[j].lease
  {
    if i < j {
      GenerationsRise(v, i, j - 1);
      assert Moves(v[j - 1], v[j]);
      SameGeneration(v, i, j - 1);
    }
  }

  /** A result is final: a COMPLETED or AMBIGUOUS version is the last, whatever statements follow. */
  lemma {:induction false} ResultIsFinal(run: seq<Statement>, later: seq<Statement>, p: Id, i: nat)
    requires p in After(run) && i < |After(run)[p]| && Finished(After(run)[p][i].state)
    ensures i == |After(run)[p]| - 1 && p in After(run + later) && After(run + later)[p] == After(run)[p]
  {
    RunInv(run);
    SettledOwner(After(run)[p], i, |After(run)[p]| - 1);
    if later == [] {
      assert run + later == run;
    } else {
      var n := |later| - 1;
      ResultIsFinal(run, later[..n], p, i);
      assert (run + later)[..|run + later| - 1] == run + later[..n];
    }
  }

  /** At one clock reading a dispatch and a takeover of the same row are never both possible. */
  lemma {:induction false} DispatchExcludesTakeover(was: Execution, mine: Execution, theirs: Execution, now: Time)
    requires Fence(was, mine, now, now) && mine.state == Dispatched
    ensures !(Fence(was, theirs, now, now) && theirs.generation != was.generation)
  {
  }

  /** A completion without a dispatch is not fenced by the lease: at one reading it and a takeover are
      both possible exactly when the row is claimed and its lease is over. */
  lemma {:induction false} LateCompletionExactly(was: Execution, now: Time)
    requires RowChecks(was)
    ensures (exists mine, theirs :: Both(was, mine, theirs, now)) <==> was.state == Claimed && was.lease <= now
  {
    if was.state == Claimed && was.lease <= now {
      var mine := was.(state := Completed, completedAt := Some(now));
      var theirs := was.(generation := was.generation + 1, owner := was.owner + 1, lease := now + 1,
        completedAt := None);
      assert Both(was, mine, theirs, now);
    }
  }

  ghost predicate Both(was: Execution, mine: Execution, theirs: Execution, now: Time) {
    Fence(was, mine, now, now) && mine.state == Completed && Fence(was, theirs, now, now)
      && theirs.generation != was.generation
  }

  // ----- when a statement is accepted ----------------------------------------------------------------

  function Latest(v: seq<Execution>): Execution
    requires v != []
  {
    v[|v| - 1]
  }

  /** Every version passes the checks of its row, keeps the identity of the first, and is completed exactly
      when it is finished. */
  ghost predicate Sound(v: seq<Execution>) {
    && v != []
    && forall i | 0 <= i < |v| ::
         && v[i].generation > 0 && v[i].lease > v[i].startedAt && v[i].key == v[0].key && v[i].id == v[0].id
         && (v[i].completedAt.Some? <==> v[i].state in {Completed, Ambiguous})
  }

  lemma {:induction false} RunSound(run: seq<Statement>)
    ensures forall p | p in After(run) :: Sound(After(run)[p])
  {
    if run != [] {
      RunSound(run[..|run| - 1]);
      RunInv(run[..|run| - 1]);
    }
  }

  ghost predicate SameSlot(slots: Slots, p: Id, row: Execution) {
    p in slots && slots[p] != [] && (Latest(slots[p]).key == row.key || Latest(slots[p]).id == row.id)
  }

  /** A proposal is claimed if and only if it has no row, as generation one under a lease that is after its
      start, with an identity and a key of its own. */
  lemma {:induction false} ClaimExactly(run: seq<Statement>, p: Id, row: Execution)
    ensures Execute(After(run), Claim(p, row)) ==
      if p !in After(run) && row.generation == 1 && row.state == Claimed && row.completedAt == None
         && row.lease > row.startedAt && !exists q: Id :: SameSlot(After(run), q, row)
      then Some(After(run)[p := [row]]) else None
  {
    RunSound(run);
    var slots := After(run);
    if KeyTaken(slots, row) {
      var q :| q in slots && slots[q] != [] && (slots[q][0].key == row.key || slots[q][0].id == row.id);
      assert SameSlot(slots, q, row);
    }
    if q: Id :| SameSlot(slots, q, row) {
      assert slots[q][0].key == row.key || slots[q][0].id == row.id;
    }
  }

  /** A row is taken over if and only if it is claimed, its lease is over, the owner is another one and the
      new lease is not over. */
  lemma {:induction false} TakeoverExactly(run: seq<Statement>, p: Id, owner: Id, lease: Time, now: Time, elapsed: nat)
    requires p in After(run) && After(run)[p] != []
    ensures var was := Latest(After(run)[p]);
      var row := was.(owner := owner, generation := was.generation + 1, lease := lease);
      Execute(After(run), Change(p, row, now, elapsed)) ==
        if was.state == Claimed && was.lease <= now && owner != was.owner && lease > now + elapsed
        then Some(After(run)[p := After(run)[p] + [row]]) else None
  {
    RunSound(run);
  }

  /** A row is dispatched if and only if it is claimed and its lease is not over. */
  lemma {:induction false} DispatchExactly(run: seq<Statement>, p: Id, now: Time, elapsed: nat)
    requires p in After(run) && After(run)[p] != []
    ensures var row := Latest(After(run)[p]).(state := Dispatched);
      Execute(After(run), Change(p, row, now, elapsed)) ==
        if Latest(After(run)[p]).state == Claimed && row.lease > now + elapsed
        then Some(After(run)[p := After(run)[p] + [row]]) else None
  {
    RunSound(run);
  }

  /** A row is completed from either state, and found ambiguous only after a dispatch, at a time not before
      its start; the lease plays no part. */
  lemma {:induction false} FinishExactly(run: seq<Statement>, p: Id, next: DispatchState, at: Time,
                                         result: Option<string>, now: Time, elapsed: nat)
    requires p in After(run) && After(run)[p] != [] && next in {Completed, Ambiguous}
    ensures var was := Latest(After(run)[p]);
      var row := was.(state := next, completedAt := Some(at), result := result);
      Execute(After(run), Change(p, row, now, elapsed)) ==
        if (was.state == Dispatched || (was.state == Claimed && next == Completed)) && at >= was.startedAt
        then Some(After(run)[p := After(run)[p] + [row]]) else None
  {
    RunSound(run);
  }
}
