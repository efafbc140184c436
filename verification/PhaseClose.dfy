/** Validation of the control documents as it runs, and the closure of a phase. */
module PhaseClose {
  import opened Prelude
  import opened PhaseGraph
  import opened PhaseControl

  // ----- validation -----------------------------------------------------------------------------

  ghost predicate Closures(phases: map<Id, Phase>, closures: map<Id, set<Id>>) {
    forall p | p in closures :: forall v :: v in closures[p] <==> Reach(GraphOf(phases), p, v)
  }

  /** One closure per phase, refused when any of them is. */
  method ComputeClosures(registry: Table<Phase>) returns (r: Option<map<Id, set<Id>>>)
    requires Unique(registry)
    ensures r.Some? <==> GraphOk(Index(registry))
    ensures r.Some? ==> r.value.Keys == Index(registry).Keys && Closures(Index(registry), r.value)
  {
    var phases := Index(registry);
    var graph := GraphOf(phases);
    var closures: map<Id, set<Id>> := map[];
    IndexKeys(registry);
    var i := 0;
    while i < |registry|
      invariant 0 <= i <= |registry| && closures.Keys == Keys(registry[..i]) && Closures(phases, closures)
      invariant forall k | 0 <= k < i :: !Problem(graph, registry[k].0)
    {
      assert registry[i].0 in Keys(registry);
      var closure := DependencyClosure(graph, registry[i].0);
      if closure.Err? { return None; }
      KeysSnoc(registry, i);
      closures := closures[registry[i].0 := closure.value];
      i := i + 1;
    }
    assert registry[..i] == registry;
    forall p | p in phases
      ensures !Problem(graph, p)
    {
      var k :| 0 <= k < |registry| && registry[k].0 == p;
    }
    r := Some(closures);
  }

  lemma KeysSnoc<T>(t: Table<T>, i: nat)
    requires i < |t|
    ensures Keys(t[..i + 1]) == Keys(t[..i]) + {t[i].0}
  {
    assert t[..i + 1] == t[..i] + [t[i]];
    assert forall k | 0 <= k < i :: t[..i + 1][k] == t[..i][k] == t[k];
    assert t[..i + 1][i] == t[i];
    forall x | x in Keys(t[..i])
      ensures x in Keys(t[..i + 1])
    {
      var k :| 0 <= k < i && t[..i][k].0 == x;
      assert t[..i + 1][k].0 == x;
    }
    assert t[i].0 in Keys(t[..i + 1]);
  }

  method CheckPolicies(phases: map<Id, Phase>, closures: map<Id, set<Id>>, policies: Table<Policy>) returns (ok: bool)
    requires closures.Keys == phases.Keys && Closures(phases, closures)
    ensures ok <==> forall i | 0 <= i < |policies| :: PolicyOk(phases, policies[i].0, policies[i].1)
  {
    var i := 0;
    while i < |policies|
      invariant 0 <= i <= |policies|
      invariant forall k | 0 <= k < i :: PolicyOk(phases, policies[k].0, policies[k].1)
    {
      var (id, ancestors) := policies[i];
      if id !in phases || exists a | a in ancestors :: a !in phases || a !in closures[id] {
        assert !PolicyOk(phases, policies[i].0, policies[i].1);
        return false;
      }
      i := i + 1;
    }
    ok := true;
  }

  method CheckProduction(phases: map<Id, Phase>, closures: map<Id, set<Id>>, policies: Table<Policy>,
                         o: Obligation) returns (ok: bool)
    requires closures.Keys == phases.Keys && Closures(phases, closures)
    requires forall i | 0 <= i < |policies| :: policies[i].0 in phases
    ensures ok <==> ProductionOk(phases, policies, o)
  {
    if !o.productionBlocking { return true; }
    if policies == [] { return false; }
    var i := 0;
    while i < |policies|
      invariant 0 <= i <= |policies|
      invariant forall k | 0 <= k < i :: policies[k].0 in o.blocks && Reach(GraphOf(phases), policies[k].0, o.owner)
    {
      if policies[i].0 !in o.blocks || o.owner !in closures[policies[i].0] { return false; }
      i := i + 1;
    }
    ok := true;
  }

  method CheckObligations(doc: Documents, world: World, closures: map<Id, set<Id>>) returns (ok: bool)
    requires closures.Keys == Index(doc.registry).Keys && Closures(Index(doc.registry), closures)
    requires forall i | 0 <= i < |doc.policies| :: doc.policies[i].0 in Index(doc.registry)
    ensures ok <==> forall i | 0 <= i < |doc.obligations| :: ObligationOk(doc, world, doc.obligations[i].1)
  {
    var phases := Index(doc.registry);
    var i := 0;
    while i < |doc.obligations|
      invariant 0 <= i <= |doc.obligations|
      invariant forall k | 0 <= k < i :: ObligationOk(doc, world, doc.obligations[k].1)
    {
      var o := doc.obligations[i].1;
      var production := CheckProduction(phases, closures, doc.policies, o);
      if !ReferencesOk(phases, o) || !HistoryOk(o) || !production
         || !ResolutionOk(phases, Index(doc.readiness), Index(doc.manifests), world, o) || !BlocksOk(phases, o)
      {
        assert !ObligationOk(doc, world, doc.obligations[i].1);
        return false;
      }
      i := i + 1;
    }
    ok := true;
  }

  ghost predicate RowsValid(doc: Documents) {
    var phases := Index(doc.registry);
    && (forall i | 0 <= i < |doc.registry| ::
          PhaseOk(phases, Index(doc.readiness), doc.registry[i].0, doc.registry[i].1))
    && (forall i | 0 <= i < |doc.requirements| :: RequirementOk(phases, Index(doc.requirements), doc.requirements[i].1))
    && (forall i | 0 <= i < |doc.manifests| ::
          ManifestOk(phases, doc.requirements, doc.manifests[i].0, doc.manifests[i].1))
    && ProjectOk(phases, doc.project)
  }

  method CheckRows(doc: Documents) returns (ok: bool)
    ensures ok <==> RowsValid(doc)
  {
    var phases, readiness, requirements := Index(doc.registry), Index(doc.readiness), Index(doc.requirements);
    var i := 0;
    while i < |doc.registry|
      invariant 0 <= i <= |doc.registry|
      invariant forall k | 0 <= k < i :: PhaseOk(phases, readiness, doc.registry[k].0, doc.registry[k].1)
    {
      if !PhaseOk(phases, readiness, doc.registry[i].0, doc.registry[i].1) { return false; }
      i := i + 1;
    }
    i := 0;
    while i < |doc.requirements|
      invariant 0 <= i <= |doc.requirements|
      invariant forall k | 0 <= k < i :: RequirementOk(phases, requirements, doc.requirements[k].1)
    {
      if !RequirementOk(phases, requirements, doc.requirements[i].1) { return false; }
      i := i + 1;
    }
    i := 0;
    while i < |doc.manifests|
      invariant 0 <= i <= |doc.manifests|
      invariant forall k | 0 <= k < i :: ManifestOk(phases, doc.requirements, doc.manifests[k].0, doc.manifests[k].1)
    {
      if !ManifestOk(phases, doc.requirements, doc.manifests[i].0, doc.manifests[i].1) { return false; }
      i := i + 1;
    }
    ok := ProjectOk(phases, doc.project);
  }

  /** The procedure accepts exactly the valid documents, deciding reachability by depth-first search. */
  method ValidateInvariants(doc: Documents, world: World) returns (ok: bool)
    ensures ok <==> Valid(doc, world)
  {
    if !UniqueOk(doc) { return false; }
    var rows := CheckRows(doc);
    if !rows { return false; }
    var closures := ComputeClosures(doc.registry);
    if closures.None? { return false; }
    var policies := CheckPolicies(Index(doc.registry), closures.value, doc.policies);
    if !policies { return false; }
    assert forall i | 0 <= i < |doc.policies| :: PolicyOk(Index(doc.registry), doc.policies[i].0, doc.policies[i].1);
    ok := CheckObligations(doc, world, closures.value);
  }

  // ----- the guard ----------------------------------------------------------------------------------

  datatype Lock = Free | Held(phase: Id, stale: bool)

  /** An obligation that is not resolved and blocks the phase. */
  predicate HasBlockers(obligations: Table<Obligation>, id: Id) {
    exists i | 0 <= i < |obligations| :: id in obligations[i].1.blocks && obligations[i].1.status != Resolved
  }

  /** The guard on a valid state. */
  predicate GuardPasses(doc: Documents, id: Id, branch: string, lock: Lock) {
    var phases := Index(doc.registry);
    && id in phases && phases[id].status != Ready && branch == phases[id].branch
    && DependenciesReady(phases, phases[id])
    && (doc.project.active == None || doc.project.active == Some(id))
    && (doc.project.active == None ==> Eligible(doc) != [] && Eligible(doc)[0] == id)
    && !HasBlockers(doc.obligations, id)
    && (lock.Held? ==> lock.phase == id && !lock.stale)
  }

  // ----- closure --------------------------------------------------------------------------------------

  /** A request to close a phase, with the evidence found on disk. */
  datatype Closure = Closure(id: Id, commit: string, branch: string, gatesPass: bool, matrixPass: bool,
                             gates: map<string, string>, testsFound: bool,
                             reference: string, evidence: seq<string>)

  predicate FullSha(s: string) {
    |s| == 40 && forall i | 0 <= i < |s| :: '0' <= s[i] <= '9' || 'a' <= s[i] <= 'f'
  }

  predicate Satisfied(r: Requirement) {
    r.status in {"IN_PROGRESS", "IMPLEMENTED", "VALIDATED"}
  }

  function Validated(r: Requirement, reference: string): Requirement {
    r.(status := "VALIDATED", evidence := if reference in r.evidence then r.evidence else r.evidence + [reference])
  }

  function ValidateOne(requirements: Table<Requirement>, id: Id, reference: string): Option<Table<Requirement>> {
    var items := Index(requirements);
    if id !in items || !Satisfied(items[id]) then None else Some(Put(requirements, id, Validated(items[id], reference)))
  }

  /** The requirements once the first `n` listed are validated; `None` when one is missing or not satisfied. */
  function ValidateUpTo(requirements: Table<Requirement>, ids: seq<Id>, n: nat,
                        reference: string): Option<Table<Requirement>>
    requires n <= |ids|
  {
    if n == 0 then Some(requirements)
    else
      match ValidateUpTo(requirements, ids, n - 1, reference)
      case None => None
      case Some(before) => ValidateOne(before, ids[n - 1], reference)
  }

  predicate EvidenceOk(doc: Documents, world: World, c: Closure) {
    && FullSha(c.commit) && c.commit in world.commits
    && c.gatesPass && c.matrixPass && AllPass(c.gates) && c.testsFound
    && c.id in Index(doc.manifests) && Index(doc.manifests)[c.id].status == Validating
  }

  ghost predicate CanClose(doc: Documents, world: World, lock: Lock, c: Closure) {
    && Valid(doc, world) && !HasBlockers(doc.obligations, c.id) && GuardPasses(doc, c.id, c.branch, lock)
    && EvidenceOk(doc, world, c)
    && ValidateUpTo(doc.requirements, Index(doc.manifests)[c.id].requirements,
      |Index(doc.manifests)[c.id].requirements|, c.reference).Some?
  }

  function CloseOut(doc: Documents, c: Closure, requirements: Table<Requirement>): Documents
    requires c.id in Index(doc.registry) && c.id in Index(doc.manifests)
  {
    var manifest := Index(doc.manifests)[c.id].(status := Ready, decision := Go, commit := c.commit,
      evidence := c.evidence);
    doc.(registry := Put(doc.registry, c.id, Index(doc.registry)[c.id].(status := Ready, decision := Go)),
         requirements := requirements,
         manifests := Put(doc.manifests, c.id, manifest),
         project := Project(c.id, Ready, Go, doc.project.completed + {c.id}, None, doc.project.blocked - {c.id}),
         readiness := Without(doc.readiness, c.id) + [(c.id, Readiness(c.commit, c.gates))])
  }

  /** Same identifiers, targets, flags and dependencies: all that validity sees of the requirements. */
  ghost predicate SameShape(a: Table<Requirement>, b: Table<Requirement>) {
    && |a| == |b|
    && forall i | 0 <= i < |a| ::
         && a[i].0 == b[i].0 && a[i].1.target == b[i].1.target
         && a[i].1.mandatory == b[i].1.mandatory && a[i].1.dependencies == b[i].1.dependencies
  }

  lemma OneKeepsShape(requirements: Table<Requirement>, before: Table<Requirement>, id: Id, reference: string)
    requires SameShape(requirements, before) && Unique(before) && ValidateOne(before, id, reference).Some?
    ensures var after := ValidateOne(before, id, reference).value; SameShape(requirements, after) && Unique(after)
  {
    var k := RowOf(before, id);
    IndexPut(before, id, Validated(Index(before)[id], reference));
    forall i | 0 <= i < |before| && before[i].0 == id
      ensures i == k
    {
    }
  }

  lemma {:induction false} ValidateKeepsShape(requirements: Table<Requirement>, ids: seq<Id>, n: nat, reference: string)
    requires n <= |ids| && Unique(requirements) && ValidateUpTo(requirements, ids, n, reference).Some?
    ensures SameShape(requirements, ValidateUpTo(requirements, ids, n, reference).value)
    ensures Unique(ValidateUpTo(requirements, ids, n, reference).value)
  {
    if n > 0 {
      ValidateNext(requirements, ids, n - 1, reference);
      ValidateKeepsShape(requirements, ids, n - 1, reference);
      OneKeepsShape(requirements, ValidateUpTo(requirements, ids, n - 1, reference).value, ids[n - 1], reference);
    }
  }

  /** The listed requirements are validated and the others are as they were. */
  ghost predicate Marked(before: Table<Requirement>, after: Table<Requirement>, ids: set<Id>, reference: string) {
    && Index(after).Keys == Index(before).Keys
    && forall id | id in Index(before) ::
         Index(after)[id] == if id in ids then Validated(Index(before)[id], reference) else Index(before)[id]
  }

  /** A listed requirement that exists and is satisfied. */
  predicate Closable(requirements: Table<Requirement>, id: Id) {
    id in Index(requirements) && Satisfied(Index(requirements)[id])
  }

  ghost predicate AllClosable(requirements: Table<Requirement>, ids: seq<Id>) {
    forall k | 0 <= k < |ids| :: Closable(requirements, ids[k])
  }

  /** The outcome of validating these requirements: refused unless all are closable, else all marked. */
  ghost predicate Validates(requirements: Table<Requirement>, ids: seq<Id>, r: Option<Table<Requirement>>,
                            reference: string) {
    && (r.Some? <==> AllClosable(requirements, ids))
    && (r.Some? ==> Marked(requirements, r.value, Elements(ids), reference))
  }

  lemma ValidateNext(start: Table<Requirement>, ids: seq<Id>, i: nat, reference: string)
    requires i < |ids|
    ensures var before := ValidateUpTo(start, ids, i, reference);
      ValidateUpTo(start, ids, i + 1, reference) ==
        if before.Some? then ValidateOne(before.value, ids[i], reference) else None
  {
  }

  lemma ElementsSnoc(done: seq<Id>, id: Id)
    ensures Elements(done + [id]) == Elements(done) + {id}
  {
    var longer := done + [id];
    assert longer[|done|] == id;
    forall x | x in Elements(done)
      ensures x in Elements(longer)
    {
      var k :| 0 <= k < |done| && done[k] == x;
      assert longer[k] == x;
    }
  }

  lemma ValidatesOneMore(requirements: Table<Requirement>, before: Table<Requirement>, done: seq<Id>, id: Id,
                         reference: string)
    requires Unique(before) && Validates(requirements, done, Some(before), reference)
    ensures Validates(requirements, done + [id], ValidateOne(before, id, reference), reference)
  {
    var longer := done + [id];
    assert longer[|done|] == id && forall k | 0 <= k < |done| :: longer[k] == done[k];
    ElementsSnoc(done, id);
    if id in Elements(done) {
      var k :| 0 <= k < |done| && done[k] == id;
      assert Closable(requirements, id);
    }
    if id in Index(before) && Satisfied(Index(before)[id]) {
      IndexPut(before, id, Validated(Index(before)[id], reference));
    }
  }

  lemma RefusedOneMore(requirements: Table<Requirement>, done: seq<Id>, id: Id, reference: string)
    requires Validates(requirements, done, None, reference)
    ensures Validates(requirements, done + [id], None, reference)
  {
    assert forall k | 0 <= k < |done| :: (done + [id])[k] == done[k];
  }

  /** Position `i` of a sequence of outcomes leads to the next by validating one requirement. */
  ghost predicate Chained(outcomes: nat -> Option<Table<Requirement>>, ids: seq<Id>, i: nat, reference: string) {
    i < |ids| ==>
      && (outcomes(i).Some? ==> Unique(outcomes(i).value))
      && outcomes(i + 1) == if outcomes(i).Some? then ValidateOne(outcomes(i).value, ids[i], reference) else None
  }

  lemma {:induction false} ChainValidates(outcomes: nat -> Option<Table<Requirement>>, requirements: Table<Requirement>,
                                          ids: seq<Id>, n: nat, reference: string)
    requires n <= |ids| && outcomes(0) == Some(requirements) && forall i: nat :: Chained(outcomes, ids, i, reference)
    ensures Validates(requirements, ids[..n], outcomes(n), reference)
  {
    if n > 0 {
      var done := ids[..n - 1];
      ChainValidates(outcomes, requirements, ids, n - 1, reference);
      assert Chained(outcomes, ids, n - 1, reference);
      assert ids[..n] == done + [ids[n - 1]];
      if outcomes(n - 1).Some? {
        ValidatesOneMore(requirements, outcomes(n - 1).value, done, ids[n - 1], reference);
      } else {
        RefusedOneMore(requirements, done, ids[n - 1], reference);
      }
    }
  }

  /** Validating succeeds if and only if every listed requirement exists and is satisfied; it then marks
      exactly those. */
  lemma {:induction false} ValidatedExactly(requirements: Table<Requirement>, ids: seq<Id>, reference: string)
    requires Unique(requirements)
    ensures Validates(requirements, ids, ValidateUpTo(requirements, ids, |ids|, reference), reference)
  {
    ghost var outcomes := (i: nat) => if i <= |ids| then ValidateUpTo(requirements, ids, i, reference) else None;
    forall i: nat
      ensures Chained(outcomes, ids, i, reference)
    {
      if i < |ids| {
        if outcomes(i).Some? { ValidateKeepsShape(requirements, ids, i, reference); }
        ValidateNext(requirements, ids, i, reference);
      }
    }
    ChainValidates(outcomes, requirements, ids, |ids|, reference);
    assert ids[..|ids|] == ids;
  }

  lemma ShapeKeepsRows(a: Table<Requirement>, b: Table<Requirement>)
    requires SameShape(a, b) && Unique(a) && Unique(b)
    ensures Index(a).Keys == Index(b).Keys
    ensures forall id :: Expected(a, id) == Expected(b, id)
  {
    IndexKeys(a);
    IndexKeys(b);
    forall id
      ensures Expected(a, id) == Expected(b, id)
    {
      forall x
        ensures x in Expected(a, id) <==> x in Expected(b, id)
      {
        if x in Expected(a, id) {
          var i :| 0 <= i < |a| && a[i].1.target == id && a[i].1.mandatory && a[i].0 == x;
          assert b[i].0 == x;
        }
        if x in Expected(b, id) {
          var i :| 0 <= i < |b| && b[i].1.target == id && b[i].1.mandatory && b[i].0 == x;
          assert a[i].0 == x;
        }
      }
    }
    forall x
      ensures x in Keys(a) <==> x in Keys(b)
    {
      if x in Keys(a) {
        var i :| 0 <= i < |a| && a[i].0 == x;
        assert b[i].0 == x;
      }
      if x in Keys(b) {
        var i :| 0 <= i < |b| && b[i].0 == x;
        assert a[i].0 == x;
      }
    }
  }
}
