/**
  The control documents of the build: the phase registry, requirements, readiness entries, deferred
  obligations, certification policies, phase manifests and the project state, with the invariants
  that validation demands of them.
*/
module PhaseControl {
  import opened Prelude
  import opened PhaseGraph

  // ----- tables: lists of identified items --------------------------------------------------------

  type Table<T> = seq<(Id, T)>

  predicate Unique<T(==)>(t: Table<T>) {
    forall i, j | 0 <= i < j < |t| :: t[i].0 != t[j].0
  }

  function Index<T>(t: Table<T>): map<Id, T> {
    if t == [] then map[] else Index(t[..|t| - 1])[t[|t| - 1].0 := t[|t| - 1].1]
  }

  function Keys<T>(t: Table<T>): set<Id> {
    set i | 0 <= i < |t| :: t[i].0
  }

  lemma {:induction false} IndexKeys<T>(t: Table<T>)
    ensures Index(t).Keys == Keys(t)
  {
    if t != [] {
      var n := |t| - 1;
      IndexKeys(t[..n]);
      assert forall i | 0 <= i < n :: t[..n][i] == t[i];
      forall x
        ensures x in Keys(t) <==> x in Keys(t[..n]) || x == t[n].0
      {
        if x in Keys(t[..n]) {
          var i :| 0 <= i < n && t[..n][i].0 == x;
          assert t[i].0 == x;
        }
      }
    }
  }

  lemma {:induction false} IndexAt<T>(t: Table<T>, i: nat)
    requires Unique(t) && i < |t|
    ensures t[i].0 in Index(t) && Index(t)[t[i].0] == t[i].1
  {
    var n := |t| - 1;
    if i < n {
      assert Unique(t[..n]);
      IndexAt(t[..n], i);
      assert t[..n][i] == t[i];
    }
  }

  /** An item of the index is a row of the table. */
  lemma RowOf<T>(t: Table<T>, id: Id) returns (i: nat)
    requires Unique(t) && id in Index(t)
    ensures i < |t| && t[i] == (id, Index(t)[id])
  {
    IndexKeys(t);
    var k :| 0 <= k < |t| && t[k].0 == id;
    IndexAt(t, k);
    i := k;
  }

  /** Replaces an item where it stands. */
  function Put<T>(t: Table<T>, id: Id, v: T): Table<T> {
    seq(|t|, i requires 0 <= i < |t| => if t[i].0 == id then (id, v) else t[i])
  }

  /** A unique table is known by its rows. */
  lemma IndexIs<T>(t: Table<T>, m: map<Id, T>)
    requires Unique(t) && m.Keys == Keys(t)
    requires forall i | 0 <= i < |t| :: t[i].0 in m && m[t[i].0] == t[i].1
    ensures Index(t) == m
  {
    IndexKeys(t);
    forall x | x in m
      ensures Index(t)[x] == m[x]
    {
      var i :| 0 <= i < |t| && t[i].0 == x;
      IndexAt(t, i);
    }
  }

  lemma IndexPut<T>(t: Table<T>, id: Id, v: T)
    requires Unique(t) && id in Index(t)
    ensures Unique(Put(t, id, v)) && Index(Put(t, id, v)) == Index(t)[id := v]
  {
    var put := Put(t, id, v);
    assert forall i | 0 <= i < |t| :: put[i].0 == t[i].0;
    IndexKeys(t);
    assert Keys(put) == Keys(t);
    forall i | 0 <= i < |put|
      ensures put[i].0 in Index(t)[id := v] && Index(t)[id := v][put[i].0] == put[i].1
    {
      IndexAt(t, i);
    }
    IndexIs(put, Index(t)[id := v]);
  }

  /** The rows with another identifier. */
  function Without<T>(t: Table<T>, id: Id): Table<T> {
    if t == [] then []
    else Without(t[..|t| - 1], id) + if t[|t| - 1].0 == id then [] else [t[|t| - 1]]
  }

  ghost predicate RowIn<T>(t: Table<T>, row: (Id, T)) {
    exists k | 0 <= k < |t| :: t[k] == row
  }

  lemma {:induction false} WithoutRows<T>(t: Table<T>, id: Id)
    requires Unique(t)
    ensures forall i | 0 <= i < |Without(t, id)| :: Without(t, id)[i].0 != id && RowIn(t, Without(t, id)[i])
    ensures forall k | 0 <= k < |t| && t[k].0 != id :: RowIn(Without(t, id), t[k])
    ensures Unique(Without(t, id))
  {
    if t != [] {
      var n := |t| - 1;
      var rest, w := Without(t[..n], id), Without(t, id);
      assert Unique(t[..n]);
      WithoutRows(t[..n], id);
      forall i | 0 <= i < |rest|
        ensures w[i] == rest[i] && RowIn(t, w[i]) && rest[i].0 != t[n].0
      {
        var k :| 0 <= k < n && t[..n][k] == rest[i];
        assert t[k] == w[i];
      }
      forall k | 0 <= k < |t| && t[k].0 != id
        ensures RowIn(w, t[k])
      {
        if k < n {
          assert t[..n][k] == t[k];
          var i :| 0 <= i < |rest| && rest[i] == t[k];
          assert w[i] == t[k];
        } else {
          assert w[|rest|] == t[k];
        }
      }
    }
  }

  /** Replacing the row of an identifier by a new last row. */
  lemma IndexReplaced<T>(t: Table<T>, id: Id, v: T)
    requires Unique(t)
    ensures Unique(Without(t, id) + [(id, v)]) && Index(Without(t, id) + [(id, v)]) == Index(t)[id := v]
  {
    var rest := Without(t, id);
    var r := rest + [(id, v)];
    WithoutRows(t, id);
    IndexKeys(t);
    forall i | 0 <= i < |r|
      ensures r[i].0 in Index(t)[id := v] && Index(t)[id := v][r[i].0] == r[i].1
    {
      if i < |rest| {
        var k :| 0 <= k < |t| && t[k] == rest[i];
        IndexAt(t, k);
      }
    }
    forall x | x in Keys(t)
      ensures x in Keys(r)
    {
      var k :| 0 <= k < |t| && t[k].0 == x;
      if x != id {
        var i :| 0 <= i < |rest| && rest[i] == t[k];
        assert r[i].0 == x;
      } else {
        assert r[|rest|].0 == x;
      }
    }
    assert r[|rest|].0 == id;
    IndexIs(r, Index(t)[id := v]);
  }

  /** `indexed`: the items by identifier, refused when two share one. */
  method Indexed<T>(t: Table<T>) returns (r: Option<map<Id, T>>)
    ensures r.Some? <==> Unique(t)
    ensures r.Some? ==> r.value == Index(t)
  {
    var m: map<Id, T> := map[];
    var i := 0;
    while i < |t|
      invariant 0 <= i <= |t| && Unique(t[..i]) && m == Index(t[..i])
    {
      IndexKeys(t[..i]);
      if t[i].0 in m {
        assert exists k :: 0 <= k < i && t[..i][k].0 == t[i].0;
        return None;
      }
      assert forall k | 0 <= k < i :: t[..i][k].0 in Keys(t[..i]);
      assert t[..i + 1] == t[..i] + [t[i]];
      m := m[t[i].0 := t[i].1];
      i := i + 1;
    }
    assert t[..i] == t;
    r := Some(m);
  }

  // ----- the documents --------------------------------------------------------------------------------

  datatype Status = Planned | ReadyToExecute | Building | Validating | Failed | Blocked | Ready

  datatype Decision = Go | OtherDecision(text: string)

  datatype Phase = Phase(status: Status, decision: Decision, dependencies: seq<Id>, branch: string)

  datatype Requirement = Requirement(target: Id, mandatory: bool, dependencies: seq<Id>, status: string,
                                     evidence: seq<string>)

  datatype Readiness = Readiness(commit: string, gates: map<string, string>)

  datatype Manifest = Manifest(status: Status, decision: Decision, requirements: seq<Id>, branch: string,
                               commit: string, evidence: seq<string>)

  datatype ObligationStatus = Open | InProgress | Resolved

  datatype Obligation = Obligation(source: Id, owner: Id, blocks: seq<Id>, status: ObligationStatus,
                                   history: seq<ObligationStatus>,
                                   productionBlocking: bool, commit: string, evidence: seq<string>)

  /** A certification policy lists the ancestors its phase must have. */
  type Policy = seq<Id>

  datatype Project = Project(current: Id, status: Status, decision: Decision, completed: set<Id>, active: Option<Id>,
                             blocked: set<Id>)

  datatype Documents = Documents(registry: Table<Phase>, requirements: Table<Requirement>, readiness: Table<Readiness>,
                                 obligations: Table<Obligation>, policies: Table<Policy>,
                                   manifests: Table<Manifest>, project: Project)

  /** What Git and the file system hold: known commits, and evidence files inside the repository. */
  datatype World = World(commits: set<string>, files: set<string>)

  // ----- validity ---------------------------------------------------------------------------------------

  /** READY/GO. */
  predicate Closing(p: Phase) { p.status == Ready && p.decision == Go }

  function GraphOf(phases: map<Id, Phase>): Graph {
    map p | p in phases :: phases[p].dependencies
  }

  predicate AllPass(gates: map<string, string>) {
    forall k | k in gates :: gates[k] == "PASS"
  }

  predicate DependenciesReady(phases: map<Id, Phase>, p: Phase) {
    forall d | d in p.dependencies :: d in phases && Closing(phases[d])
  }

  predicate PhaseOk(phases: map<Id, Phase>, readiness: map<Id, Readiness>, id: Id, p: Phase) {
    && (forall d | d in p.dependencies :: d in phases)
    && (p.status == Ready ==>
          p.decision == Go && id in readiness && AllPass(readiness[id].gates) && DependenciesReady(phases, p))
    && (p.status in {Failed, Blocked} ==> p.decision != Go)
  }

  predicate RequirementOk(phases: map<Id, Phase>, requirements: map<Id, Requirement>, r: Requirement) {
    r.target in phases && forall d | d in r.dependencies :: d in requirements
  }

  ghost predicate PolicyOk(phases: map<Id, Phase>, id: Id, ancestors: Policy) {
    id in phases && forall a | a in ancestors :: a in phases && Reach(GraphOf(phases), id, a)
  }

  predicate ObligationEdge(a: ObligationStatus, b: ObligationStatus) {
    match a
    case Open => b == InProgress || b == Resolved
    case InProgress => b == Open || b == Resolved
    case Resolved => b == Open
  }

  predicate HistoryOk(o: Obligation) {
    && |o.history| > 0 && o.history[0] == Open && o.history[|o.history| - 1] == o.status
    && forall i | 0 < i < |o.history| :: ObligationEdge(o.history[i - 1], o.history[i])
  }

  predicate ReferencesOk(phases: map<Id, Phase>, o: Obligation) {
    o.source in phases && o.owner in phases && forall p | p in o.blocks :: p in phases
  }

  /** A production-blocking obligation blocks every certification phase and is owned upstream of it. */
  ghost predicate ProductionOk(phases: map<Id, Phase>, policies: Table<Policy>, o: Obligation) {
    o.productionBlocking ==> policies != [] && forall i | 0 <= i < |policies| ::
      policies[i].0 in o.blocks && Reach(GraphOf(phases), policies[i].0, o.owner)
  }

  predicate ResolutionOk(phases: map<Id, Phase>, readiness: map<Id, Readiness>, manifests: map<Id, Manifest>,
                         world: World, o: Obligation) {
    o.status == Resolved ==>
      && o.owner in phases && Closing(phases[o.owner])
      && o.owner in manifests && manifests[o.owner].status == Ready && manifests[o.owner].decision == Go
      && manifests[o.owner].commit == o.commit && o.commit in world.commits
      && o.owner in readiness && readiness[o.owner].commit == o.commit
      && forall e | e in o.evidence :: e in manifests[o.owner].evidence && e in world.files
  }

  predicate BlocksOk(phases: map<Id, Phase>, o: Obligation) {
    o.status != Resolved ==> forall p | p in o.blocks :: p in phases ==> phases[p].status != Ready
  }

  function Expected(requirements: Table<Requirement>, id: Id): set<Id> {
    set i | 0 <= i < |requirements| && requirements[i].1.target == id && requirements[i].1.mandatory ::
      requirements[i].0
  }

  function Elements(s: seq<Id>): set<Id> {
    set i | 0 <= i < |s| :: s[i]
  }

  predicate ManifestOk(phases: map<Id, Phase>, requirements: Table<Requirement>, id: Id, m: Manifest) {
    && id in phases && m.status == phases[id].status && m.decision == phases[id].decision
    && Elements(m.requirements) == Expected(requirements, id)
  }

  function ReadyPhases(phases: map<Id, Phase>): set<Id> {
    set p | p in phases && phases[p].status == Ready
  }

  predicate ProjectOk(phases: map<Id, Phase>, s: Project) {
    && s.current in phases && s.status == phases[s.current].status && s.decision == phases[s.current].decision
    && s.completed == ReadyPhases(phases)
  }

  predicate UniqueOk(doc: Documents) {
    && Unique(doc.registry) && Unique(doc.requirements) && Unique(doc.readiness)
    && Unique(doc.obligations) && Unique(doc.policies) && Unique(doc.manifests)
  }

  ghost predicate ObligationOk(doc: Documents, world: World, o: Obligation) {
    var phases := Index(doc.registry);
    && ReferencesOk(phases, o) && HistoryOk(o) && ProductionOk(phases, doc.policies, o)
    && ResolutionOk(phases, Index(doc.readiness), Index(doc.manifests), world, o) && BlocksOk(phases, o)
  }

  ghost predicate GraphOk(phases: map<Id, Phase>) {
    forall p | p in phases :: !Problem(GraphOf(phases), p)
  }

  /** Everything `validate_invariants` demands besides the document schemas. */
  ghost predicate Valid(doc: Documents, world: World) {
    var phases := Index(doc.registry);
    && UniqueOk(doc)
    && (forall i | 0 <= i < |doc.registry| ::
          PhaseOk(phases, Index(doc.readiness), doc.registry[i].0, doc.registry[i].1))
    && (forall i | 0 <= i < |doc.requirements| :: RequirementOk(phases, Index(doc.requirements), doc.requirements[i].1))
    && GraphOk(phases)
    && (forall i | 0 <= i < |doc.policies| :: PolicyOk(phases, doc.policies[i].0, doc.policies[i].1))
    && (forall i | 0 <= i < |doc.obligations| :: ObligationOk(doc, world, doc.obligations[i].1))
    && (forall i | 0 <= i < |doc.manifests| ::
          ManifestOk(phases, doc.requirements, doc.manifests[i].0, doc.manifests[i].1))
    && ProjectOk(phases, doc.project)
  }

  lemma ValidPhase(doc: Documents, world: World, id: Id)
    requires Valid(doc, world) && id in Index(doc.registry)
    ensures PhaseOk(Index(doc.registry), Index(doc.readiness), id, Index(doc.registry)[id])
  {
    var i := RowOf(doc.registry, id);
  }

  // ----- what validity means ------------------------------------------------------------------------------

  lemma {:induction false} PathReady(doc: Documents, world: World, p: seq<Id>, i: nat)
    requires Valid(doc, world) && Path(GraphOf(Index(doc.registry)), p) && 0 < i < |p|
    requires Index(doc.registry)[p[0]].status == Ready
    ensures p[i] in Index(doc.registry) && Closing(Index(doc.registry)[p[i]])
  {
    if i > 1 {
      PathReady(doc, world, p, i - 1);
    }
    ValidPhase(doc, world, p[i - 1]);
  }

  /** In a valid state everything a READY phase depends on, however far, is READY/GO. */
  lemma {:induction false} ReadyClosureIsReady(doc: Documents, world: World, a: Id, b: Id)
    requires Valid(doc, world) && Reach(GraphOf(Index(doc.registry)), a, b)
    requires a in Index(doc.registry) && Index(doc.registry)[a].status == Ready
    ensures b in Index(doc.registry) && Closing(Index(doc.registry)[b])
  {
    var p :| Connects(GraphOf(Index(doc.registry)), p, a, b);
    PathReady(doc, world, p, |p| - 1);
  }

  /** A READY certification phase means every production-blocking obligation is resolved, its owner is
      READY/GO and upstream of the certification. */
  lemma {:induction false} CertifiedMeansResolved(doc: Documents, world: World, i: nat, j: nat)
    requires Valid(doc, world) && i < |doc.policies| && j < |doc.obligations|
    requires Index(doc.registry)[doc.policies[i].0].status == Ready && doc.obligations[j].1.productionBlocking
    ensures var o := doc.obligations[j].1;
      && o.status == Resolved && o.owner in Index(doc.registry) && Closing(Index(doc.registry)[o.owner])
      && Reach(GraphOf(Index(doc.registry)), doc.policies[i].0, o.owner) && o.commit in world.commits
  {
    assert ObligationOk(doc, world, doc.obligations[j].1);
    assert PolicyOk(Index(doc.registry), doc.policies[i].0, doc.policies[i].1);
  }

  // ----- eligibility ------------------------------------------------------------------------------------------

  predicate IsEligible(doc: Documents, id: Id, p: Phase) {
    && p.status != Ready && p.status != Blocked && id !in doc.project.blocked
    && DependenciesReady(Index(doc.registry), p)
    && (doc.project.active == None || doc.project.active == Some(id))
  }

  /** The phases that may start next among the first `n`, in registry order. */
  function EligibleUpTo(doc: Documents, n: nat): seq<Id>
    requires n <= |doc.registry|
  {
    if n == 0 then []
    else
      var (id, p) := doc.registry[n - 1];
      EligibleUpTo(doc, n - 1) + if IsEligible(doc, id, p) then [id] else []
  }

  function Eligible(doc: Documents): seq<Id> {
    EligibleUpTo(doc, |doc.registry|)
  }

  method EligiblePhases(doc: Documents) returns (r: seq<Id>)
    requires Unique(doc.registry)
    ensures r == Eligible(doc)
  {
    var phases, i := Index(doc.registry), 0;
    r := [];
    while i < |doc.registry|
      invariant 0 <= i <= |doc.registry| && r == EligibleUpTo(doc, i)
    {
      var (id, p) := doc.registry[i];
      i := i + 1;
      if p.status == Ready || p.status == Blocked || id in doc.project.blocked { continue; }
      if !DependenciesReady(phases, p) { continue; }
      if doc.project.active.Some? && doc.project.active.value != id { continue; }
      r := r + [id];
    }
  }

  lemma {:induction false} EligibleMembers(doc: Documents, n: nat, id: Id)
    requires n <= |doc.registry|
    ensures id in EligibleUpTo(doc, n) <==> exists i | 0 <= i < n ::
      doc.registry[i].0 == id && IsEligible(doc, id, doc.registry[i].1)
  {
    if n > 0 {
      EligibleMembers(doc, n - 1, id);
      if doc.registry[n - 1].0 == id && IsEligible(doc, id, doc.registry[n - 1].1) {
        assert EligibleUpTo(doc, n)[|EligibleUpTo(doc, n - 1)|] == id;
      }
    }
  }

  /** A phase that is not READY and is blocked, by its status or by the project. */
  predicate Held(doc: Documents, id: Id) {
    var phases := Index(doc.registry);
    id in phases && phases[id].status != Ready && (phases[id].status == Blocked || id in doc.project.blocked)
  }

  /** The phase, or something it depends on however far, is held. */
  ghost predicate HeldBelow(doc: Documents, id: Id) {
    Held(doc, id) || exists q :: Reach(GraphOf(Index(doc.registry)), id, q) && Held(doc, q)
  }

  lemma NotReadyDependency(doc: Documents, world: World, id: Id) returns (next: Option<Id>)
    requires Valid(doc, world) && doc.project.active == None && !Held(doc, id)
    requires id in Index(doc.registry) && Index(doc.registry)[id].status != Ready
    ensures next.None? ==> id in Eligible(doc)
    ensures next.Some? ==> next.value in Index(doc.registry)[id].dependencies && next.value in Index(doc.registry)
    ensures next.Some? ==> Index(doc.registry)[next.value].status != Ready
  {
    var phases := Index(doc.registry);
    var i := RowOf(doc.registry, id);
    ValidPhase(doc, world, id);
    if DependenciesReady(phases, phases[id]) {
      EligibleMembers(doc, |doc.registry|, id);
      assert IsEligible(doc, id, doc.registry[i].1);
      next := None;
    } else {
      var d :| d in phases[id].dependencies && !Closing(phases[d]);
      ValidPhase(doc, world, d);
      next := Some(d);
    }
  }

  lemma NotHeldBelow(doc: Documents, id: Id, d: Id)
    requires id in GraphOf(Index(doc.registry)) && d in GraphOf(Index(doc.registry))[id] && !HeldBelow(doc, id)
    ensures !HeldBelow(doc, d)
  {
    var g := GraphOf(Index(doc.registry));
    ReachEdge(g, id, d);
    if q :| Reach(g, d, q) && Held(doc, q) {
      ReachTrans(g, id, d, q);
    }
  }

  /** With nothing active, a phase that is not READY and has nothing held at or below it may start, or
      something it depends on may. */
  lemma {:induction false} Progress(doc: Documents, world: World, id: Id, above: set<Id>) returns (e: Id)
    requires Valid(doc, world) && doc.project.active == None && !HeldBelow(doc, id)
    requires id in Index(doc.registry) && Index(doc.registry)[id].status != Ready
    requires above <= Index(doc.registry).Keys
    requires forall a | a in above :: Reach(GraphOf(Index(doc.registry)), a, id)
    ensures e in Eligible(doc) && (e == id || Reach(GraphOf(Index(doc.registry)), id, e))
    decreases |GraphOf(Index(doc.registry)).Keys - above|
  {
    var phases := Index(doc.registry);
    var g := GraphOf(phases);
    assert id !in above by {
      assert !Problem(g, id) && !Faulty(g, id);
    }
    var next := NotReadyDependency(doc, world, id);
    if next.None? {
      e := id;
    } else {
      NotHeldBelow(doc, id, next.value);
      ReachAll(g, above, id, next.value);
      SmallerRest(g, above, id);
      e := Progress(doc, world, next.value, above + {id});
      if e != next.value { ReachTrans(g, id, next.value, e); }
    }
  }

  /** Below a phase whose dependencies are READY/GO everything is READY/GO, so nothing is held. */
  lemma EligibleIsNotHeld(doc: Documents, world: World, id: Id)
    requires Valid(doc, world) && id in Eligible(doc)
    ensures id in Index(doc.registry) && Index(doc.registry)[id].status != Ready && !HeldBelow(doc, id)
  {
    var phases := Index(doc.registry);
    var g := GraphOf(phases);
    EligibleMembers(doc, |doc.registry|, id);
    var i :| 0 <= i < |doc.registry| && doc.registry[i].0 == id && IsEligible(doc, id, doc.registry[i].1);
    IndexAt(doc.registry, i);
    if q :| Reach(g, id, q) && Held(doc, q) {
      var d := FirstStep(g, id, q);
      assert Closing(phases[d]);
      if d != q { ReadyClosureIsReady(doc, world, d, q); }
    }
  }

  /** With nothing active, no phase is eligible if and only if every phase that is not READY is held or
      depends, however far, on one that is. */
  lemma {:induction false} StalledExactly(doc: Documents, world: World)
    requires Valid(doc, world) && doc.project.active == None
    ensures Eligible(doc) == [] <==>
      forall p | p in Index(doc.registry) && Index(doc.registry)[p].status != Ready :: HeldBelow(doc, p)
  {
    var phases := Index(doc.registry);
    if p :| p in phases && phases[p].status != Ready && !HeldBelow(doc, p) {
      var e := Progress(doc, world, p, {});
    } else if Eligible(doc) != [] {
      EligibleIsNotHeld(doc, world, Eligible(doc)[0]);
    }
  }

  /** Nothing is active, and nothing is blocked. */
  ghost predicate Unhindered(doc: Documents) {
    && doc.project.active == None && doc.project.blocked == {}
    && forall i | 0 <= i < |doc.registry| :: doc.registry[i].1.status != Blocked
  }

  /** In a valid, unhindered state the eligible list is empty exactly when every phase is READY. */
  lemma {:induction false} EligibleUnlessDone(doc: Documents, world: World)
    requires Valid(doc, world) && Unhindered(doc)
    ensures Eligible(doc) == [] <==> forall p | p in Index(doc.registry) :: Index(doc.registry)[p].status == Ready
  {
    forall p
      ensures !Held(doc, p)
    {
      if p in Index(doc.registry) { var i := RowOf(doc.registry, p); }
    }
    StalledExactly(doc, world);
  }
}
