/**
  What the control scripts accept, said of the documents by identifier: which documents are valid, which
  phase may start next, when a phase may be closed and what closing it writes.
*/
module PhaseDecisions {
  import opened Prelude
  import opened PhaseGraph
  import opened PhaseControl
  import opened PhaseClose
  import opened PhaseClosing

  // ----- valid documents ----------------------------------------------------------------------------

  ghost predicate Distinct<T>(t: Table<T>) {
    forall i, j | 0 <= i < |t| && 0 <= j < |t| && t[i].0 == t[j].0 :: i == j
  }

  predicate ReadyGo(phases: map<Id, Phase>, id: Id) {
    id in phases && phases[id].status == Ready && phases[id].decision == Go
  }

  /** A READY phase is GO, rests on READY/GO phases and has a readiness entry whose gates all passed; a FAILED
      or BLOCKED one is not GO; and every dependency is a phase. */
  ghost predicate PhasesHold(phases: map<Id, Phase>, readiness: map<Id, Readiness>) {
    forall id | id in phases ::
      && (forall d | d in phases[id].dependencies :: d in phases)
      && (phases[id].status == Ready ==>
            && phases[id].decision == Go && (forall d | d in phases[id].dependencies :: ReadyGo(phases, d))
            && id in readiness && (forall g | g in readiness[id].gates :: readiness[id].gates[g] == "PASS"))
      && (phases[id].decision == Go ==> phases[id].status != Failed && phases[id].status != Blocked)
  }

  ghost predicate RequirementsHold(phases: map<Id, Phase>, requirements: map<Id, Requirement>) {
    forall r | r in requirements ::
      requirements[r].target in phases && forall d | d in requirements[r].dependencies :: d in requirements
  }

  /** No phase depends on itself, however far. */
  ghost predicate Acyclic(phases: map<Id, Phase>) {
    forall id | id in phases :: !Reach(GraphOf(phases), id, id)
  }

  ghost predicate PoliciesHold(phases: map<Id, Phase>, policies: map<Id, Policy>) {
    forall id | id in policies ::
      id in phases && forall a | a in policies[id] :: a in phases && Reach(GraphOf(phases), id, a)
  }

  /** The status of an obligation and the steps that led to it. */
  ghost predicate Recorded(o: Obligation) {
    && o.history != [] && o.history[0] == Open && o.history[|o.history| - 1] == o.status
    && forall i | 0 < i < |o.history| :: (o.history[i - 1], o.history[i]) in {
         (Open, InProgress), (Open, Resolved), (InProgress, Open), (InProgress, Resolved), (Resolved, Open)}
  }

  /** An obligation names phases, has a legal history, if it blocks production blocks every certification and
      is owned upstream of each, if resolved is bound to its owner's commit and evidence, and if not keeps
      what it blocks from being READY. */
  ghost predicate ObligationHolds(phases: map<Id, Phase>, readiness: map<Id, Readiness>, policies: map<Id, Policy>,
                                  manifests: map<Id, Manifest>, world: World, o: Obligation) {
    && o.source in phases && o.owner in phases && (forall p | p in o.blocks :: p in phases) && Recorded(o)
    && (o.productionBlocking ==>
          && policies.Keys != {}
          && forall c | c in policies :: c in o.blocks && Reach(GraphOf(phases), c, o.owner))
    && (o.status == Resolved ==>
          && ReadyGo(phases, o.owner) && o.commit in world.commits
          && o.owner in readiness && readiness[o.owner].commit == o.commit
          && o.owner in manifests && manifests[o.owner].commit == o.commit
          && manifests[o.owner].status == Ready && manifests[o.owner].decision == Go
          && forall e | e in o.evidence :: e in world.files && e in manifests[o.owner].evidence)
    && (o.status != Resolved ==> forall p | p in o.blocks :: phases[p].status != Ready)
  }

  /** A manifest repeats its phase and lists exactly the mandatory requirements of it. */
  ghost predicate ManifestsHold(phases: map<Id, Phase>, requirements: map<Id, Requirement>,
                                manifests: map<Id, Manifest>) {
    forall id | id in manifests ::
      && id in phases && manifests[id].status == phases[id].status && manifests[id].decision == phases[id].decision
      && forall r :: r in manifests[id].requirements <==>
           r in requirements && requirements[r].target == id && requirements[r].mandatory
  }

  ghost predicate ProjectHolds(phases: map<Id, Phase>, project: Project) {
    && project.current in phases && project.status == phases[project.current].status
    && project.decision == phases[project.current].decision
    && forall p :: p in project.completed <==> p in phases && phases[p].status == Ready
  }

  ghost predicate Identified(doc: Documents) {
    && Distinct(doc.registry) && Distinct(doc.requirements) && Distinct(doc.readiness)
    && Distinct(doc.obligations) && Distinct(doc.policies) && Distinct(doc.manifests)
  }

  ghost predicate ObligationsHold(doc: Documents, world: World) {
    forall i | 0 <= i < |doc.obligations| ::
      ObligationHolds(Index(doc.registry), Index(doc.readiness), Index(doc.policies), Index(doc.manifests), world,
                      doc.obligations[i].1)
  }

  /** The documents say what they should, by identifier. */
  ghost predicate Holds(doc: Documents, world: World) {
    var phases := Index(doc.registry);
    && Identified(doc)
    && PhasesHold(phases, Index(doc.readiness)) && RequirementsHold(phases, Index(doc.requirements))
    && Acyclic(phases) && PoliciesHold(phases, Index(doc.policies)) && ObligationsHold(doc, world)
    && ManifestsHold(phases, Index(doc.requirements), Index(doc.manifests)) && ProjectHolds(phases, doc.project)
  }

  ghost predicate EveryRow<T>(t: Table<T>, P: (Id, T) -> bool) {
    forall i | 0 <= i < |t| :: P(t[i].0, t[i].1)
  }

  ghost predicate EveryItem<T>(t: Table<T>, P: (Id, T) -> bool) {
    forall id | id in Index(t) :: P(id, Index(t)[id])
  }

  lemma RowsExactly<T>(t: Table<T>, P: (Id, T) -> bool)
    requires Unique(t)
    ensures EveryRow(t, P) <==> EveryItem(t, P)
  {
    if EveryRow(t, P) {
      forall id | id in Index(t) ensures P(id, Index(t)[id]) { var i := RowOf(t, id); }
    } else if EveryItem(t, P) {
      forall i | 0 <= i < |t| ensures P(t[i].0, t[i].1) { IndexAt(t, i); }
    }
  }

  lemma PhaseRowsExactly(doc: Documents)
    requires UniqueOk(doc)
    ensures var phases, readiness := Index(doc.registry), Index(doc.readiness);
      (forall i | 0 <= i < |doc.registry| :: PhaseOk(phases, readiness, doc.registry[i].0, doc.registry[i].1))
        <==> PhasesHold(phases, readiness)
  {
    var phases, readiness := Index(doc.registry), Index(doc.readiness);
    ghost var rule := (id, p) => PhaseOk(phases, readiness, id, p);
    RowsExactly(doc.registry, rule);
    assert EveryRow(doc.registry, rule) <==> EveryItem(doc.registry, rule);
  }

  lemma RequirementRowsExactly(doc: Documents)
    requires UniqueOk(doc)
    ensures var phases, requirements := Index(doc.registry), Index(doc.requirements);
      (forall i | 0 <= i < |doc.requirements| :: RequirementOk(phases, requirements, doc.requirements[i].1))
        <==> RequirementsHold(phases, requirements)
  {
    var phases, requirements := Index(doc.registry), Index(doc.requirements);
    ghost var rule := (id, r) => RequirementOk(phases, requirements, r);
    RowsExactly(doc.requirements, rule);
    assert EveryRow(doc.requirements, rule) <==> EveryItem(doc.requirements, rule);
  }

  lemma GraphExactly(phases: map<Id, Phase>)
    requires forall id, d | id in phases && d in phases[id].dependencies :: d in phases
    ensures GraphOk(phases) <==> Acyclic(phases)
  {
    var g := GraphOf(phases);
    if GraphOk(phases) {
      forall id | id in phases ensures !Reach(g, id, id) { assert !Problem(g, id); }
    }
    if Acyclic(phases) {
      forall id | id in phases
        ensures !Problem(g, id)
      {
        assert forall x | x in g :: !Faulty(g, x);
      }
    }
  }

  lemma PolicyRowsExactly(doc: Documents)
    requires UniqueOk(doc)
    ensures var phases := Index(doc.registry);
      (forall i | 0 <= i < |doc.policies| :: PolicyOk(phases, doc.policies[i].0, doc.policies[i].1))
        <==> PoliciesHold(phases, Index(doc.policies))
  {
    var phases := Index(doc.registry);
    forall i | 0 <= i < |doc.policies|
      ensures doc.policies[i].0 in Index(doc.policies)
      ensures Index(doc.policies)[doc.policies[i].0] == doc.policies[i].1
    {
      IndexAt(doc.policies, i);
    }
    forall id | id in Index(doc.policies)
      ensures exists i | 0 <= i < |doc.policies| :: doc.policies[i] == (id, Index(doc.policies)[id])
    {
      var i := RowOf(doc.policies, id);
    }
  }

  lemma ProductionExactly(doc: Documents, o: Obligation)
    requires UniqueOk(doc)
    ensures ProductionOk(Index(doc.registry), doc.policies, o) <==>
      (o.productionBlocking ==>
         && Index(doc.policies).Keys != {}
         && forall c | c in Index(doc.policies) :: c in o.blocks && Reach(GraphOf(Index(doc.registry)), c, o.owner))
  {
    IndexKeys(doc.policies);
    if doc.policies != [] { assert doc.policies[0].0 in Keys(doc.policies); }
    forall i | 0 <= i < |doc.policies| ensures doc.policies[i].0 in Index(doc.policies) { IndexAt(doc.policies, i); }
    forall c | c in Index(doc.policies)
      ensures exists i | 0 <= i < |doc.policies| :: doc.policies[i].0 == c
    {
      var i := RowOf(doc.policies, c);
    }
  }

  lemma RecordedExactly(o: Obligation)
    ensures HistoryOk(o) <==> Recorded(o)
  {
    forall i | 0 < i < |o.history|
      ensures ObligationEdge(o.history[i - 1], o.history[i]) <==> (o.history[i - 1], o.history[i]) in {
         (Open, InProgress), (Open, Resolved), (InProgress, Open), (InProgress, Resolved), (Resolved, Open)}
    {
    }
  }

  lemma ObligationExactly(doc: Documents, world: World, o: Obligation)
    requires UniqueOk(doc)
    ensures ObligationOk(doc, world, o) <==>
      ObligationHolds(Index(doc.registry), Index(doc.readiness), Index(doc.policies), Index(doc.manifests), world, o)
  {
    RecordedExactly(o);
    ProductionExactly(doc, o);
  }

  lemma ExpectedExactly(doc: Documents, id: Id, r: Id)
    requires UniqueOk(doc)
    ensures r in Expected(doc.requirements, id) <==>
      r in Index(doc.requirements) && Index(doc.requirements)[r].target == id && Index(doc.requirements)[r].mandatory
  {
    if r in Expected(doc.requirements, id) {
      var i :| 0 <= i < |doc.requirements| && doc.requirements[i].1.target == id && doc.requirements[i].1.mandatory
               && doc.requirements[i].0 == r;
      IndexAt(doc.requirements, i);
    } else if r in Index(doc.requirements) {
      var i := RowOf(doc.requirements, r);
    }
  }

  lemma ListsExactly(doc: Documents, id: Id, m: Manifest)
    requires UniqueOk(doc)
    ensures Elements(m.requirements) == Expected(doc.requirements, id) <==>
      forall r :: r in m.requirements <==>
        r in Index(doc.requirements) && Index(doc.requirements)[r].target == id && Index(doc.requirements)[r].mandatory
  {
    forall r
      ensures r in Expected(doc.requirements, id) <==>
        r in Index(doc.requirements) && Index(doc.requirements)[r].target == id && Index(doc.requirements)[r].mandatory
      ensures r in Elements(m.requirements) <==> r in m.requirements
    {
      ExpectedExactly(doc, id, r);
    }
  }

  lemma ManifestRowsExactly(doc: Documents)
    requires UniqueOk(doc)
    ensures var phases := Index(doc.registry);
      (forall i | 0 <= i < |doc.manifests| ::
         ManifestOk(phases, doc.requirements, doc.manifests[i].0, doc.manifests[i].1))
        <==> ManifestsHold(phases, Index(doc.requirements), Index(doc.manifests))
  {
    var phases := Index(doc.registry);
    ghost var rule := (id, m) => ManifestOk(phases, doc.requirements, id, m);
    RowsExactly(doc.manifests, rule);
    assert EveryRow(doc.manifests, rule) <==> EveryItem(doc.manifests, rule);
    forall id | id in Index(doc.manifests)
      ensures Elements(Index(doc.manifests)[id].requirements) == Expected(doc.requirements, id) <==>
        forall r :: r in Index(doc.manifests)[id].requirements <==>
          r in Index(doc.requirements) && Index(doc.requirements)[r].target == id
          && Index(doc.requirements)[r].mandatory
    {
      ListsExactly(doc, id, Index(doc.manifests)[id]);
    }
  }

  lemma IdentifiedExactly<T>(t: Table<T>)
    ensures Unique(t) <==> Distinct(t)
  {
    if Distinct(t) { assert forall i, j | 0 <= i < j < |t| :: t[i].0 != t[j].0; }
  }

  lemma UniqueExactly(doc: Documents)
    ensures UniqueOk(doc) <==> Identified(doc)
  {
    IdentifiedExactly(doc.registry);
    IdentifiedExactly(doc.requirements);
    IdentifiedExactly(doc.readiness);
    IdentifiedExactly(doc.obligations);
    IdentifiedExactly(doc.policies);
    IdentifiedExactly(doc.manifests);
  }

  lemma ObligationRowsExactly(doc: Documents, world: World)
    requires UniqueOk(doc)
    ensures (forall i | 0 <= i < |doc.obligations| :: ObligationOk(doc, world, doc.obligations[i].1))
      <==> ObligationsHold(doc, world)
  {
    forall i | 0 <= i < |doc.obligations|
      ensures ObligationOk(doc, world, doc.obligations[i].1) <==>
        ObligationHolds(Index(doc.registry), Index(doc.readiness), Index(doc.policies), Index(doc.manifests), world,
                        doc.obligations[i].1)
    {
      ObligationExactly(doc, world, doc.obligations[i].1);
    }
  }

  lemma GraphHolds(doc: Documents)
    requires PhasesHold(Index(doc.registry), Index(doc.readiness))
    ensures GraphOk(Index(doc.registry)) <==> Acyclic(Index(doc.registry))
  {
    GraphExactly(Index(doc.registry));
  }

  lemma ProjectExactly(doc: Documents)
    ensures ProjectOk(Index(doc.registry), doc.project) <==> ProjectHolds(Index(doc.registry), doc.project)
  {
  }

  lemma ValidHolds(doc: Documents, world: World)
    requires Valid(doc, world)
    ensures Holds(doc, world)
  {
    UniqueExactly(doc);
    assert PhasesHold(Index(doc.registry), Index(doc.readiness)) by { PhaseRowsExactly(doc); }
    assert RequirementsHold(Index(doc.registry), Index(doc.requirements)) by { RequirementRowsExactly(doc); }
    assert Acyclic(Index(doc.registry)) by { GraphHolds(doc); }
    assert PoliciesHold(Index(doc.registry), Index(doc.policies)) by { PolicyRowsExactly(doc); }
    assert ObligationsHold(doc, world) by { ObligationRowsExactly(doc, world); }
    assert ManifestsHold(Index(doc.registry), Index(doc.requirements), Index(doc.manifests)) by {
      ManifestRowsExactly(doc);
    }
    ProjectExactly(doc);
  }

  lemma HoldsValid(doc: Documents, world: World)
    requires Holds(doc, world)
    ensures Valid(doc, world)
  {
    UniqueExactly(doc);
    PhaseRowsExactly(doc);
    RequirementRowsExactly(doc);
    GraphHolds(doc);
    PolicyRowsExactly(doc);
    ObligationRowsExactly(doc, world);
    ManifestRowsExactly(doc);
    ProjectExactly(doc);
  }

  /** Validation accepts exactly the documents that say what they should. */
  lemma {:induction false} ValidExactly(doc: Documents, world: World)
    ensures Valid(doc, world) <==> Holds(doc, world)
  {
    if Valid(doc, world) {
      ValidHolds(doc, world);
    } else if Holds(doc, world) {
      HoldsValid(doc, world);
    }
  }

  // ----- the next phase -------------------------------------------------------------------------------

  /** The phase of row `i` may start. */
  ghost predicate MayStart(doc: Documents, i: int) {
    && 0 <= i < |doc.registry|
    && var (id, p) := doc.registry[i];
       && p.status !in {Ready, Blocked} && id !in doc.project.blocked
       && (forall d | d in p.dependencies :: ReadyGo(Index(doc.registry), d))
       && (doc.project.active.Some? ==> doc.project.active.value == id)
  }

  lemma MayStartExactly(doc: Documents, i: nat)
    requires i < |doc.registry|
    ensures IsEligible(doc, doc.registry[i].0, doc.registry[i].1) <==> MayStart(doc, i)
  {
  }

  lemma {:induction false} EligibleNone(doc: Documents, n: nat)
    requires n <= |doc.registry|
    ensures EligibleUpTo(doc, n) == [] <==> forall k | 0 <= k < n :: !MayStart(doc, k)
  {
    if n > 0 {
      EligibleNone(doc, n - 1);
      MayStartExactly(doc, n - 1);
    }
  }

  lemma {:induction false} EligibleGrows(doc: Documents, m: nat, n: nat)
    requires m <= n <= |doc.registry|
    ensures EligibleUpTo(doc, m) <= EligibleUpTo(doc, n)
  {
    if m < n { EligibleGrows(doc, m, n - 1); }
  }

  /** The next phase is the first of the registry that may start. */
  lemma {:induction false} NextPhaseExactly(doc: Documents, i: nat)
    requires i < |doc.registry| && MayStart(doc, i) && forall k | 0 <= k < i :: !MayStart(doc, k)
    ensures Eligible(doc) != [] && Eligible(doc)[0] == doc.registry[i].0
  {
    EligibleNone(doc, i);
    MayStartExactly(doc, i);
    assert EligibleUpTo(doc, i + 1) == [doc.registry[i].0];
    EligibleGrows(doc, i + 1, |doc.registry|);
  }

  /** A phase is offered if and only if it is not READY or blocked, all it depends on is READY/GO, and no other
      phase is active. */
  lemma {:induction false} EligibleExactly(doc: Documents, id: Id)
    ensures id in Eligible(doc) <==> exists i :: MayStart(doc, i) && doc.registry[i].0 == id
  {
    EligibleMembers(doc, |doc.registry|, id);
    if id in Eligible(doc) {
      var i :| 0 <= i < |doc.registry| && doc.registry[i].0 == id && IsEligible(doc, id, doc.registry[i].1);
      MayStartExactly(doc, i);
    }
    if i :| MayStart(doc, i) && doc.registry[i].0 == id { MayStartExactly(doc, i); }
  }

  // ----- closing a phase --------------------------------------------------------------------------------

  ghost predicate FullCommit(s: string) {
    |s| == 40 && forall i | 0 <= i < 40 :: s[i] in HEX_DIGITS
  }

  lemma CommitExactly(s: string)
    ensures FullSha(s) <==> FullCommit(s)
  {
    forall i | 0 <= i < |s|
      ensures s[i] in HEX_DIGITS <==> ('0' <= s[i] <= '9' || 'a' <= s[i] <= 'f')
    {
      HexDigit(s[i]);
    }
  }

  /** The phase may be worked on now, on this branch and under this lock. */
  ghost predicate Authorized(doc: Documents, id: Id, branch: string, lock: Lock) {
    var phases := Index(doc.registry);
    && id in phases && phases[id].branch == branch
    && (forall d | d in phases[id].dependencies :: ReadyGo(phases, d))
    && (doc.project.active == Some(id) || (doc.project.active == None && Eligible(doc) != [] && Eligible(doc)[0] == id))
    && (lock == Free || lock == Lock.Held(id, false))
  }

  /** The evidence for closing the phase. */
  ghost predicate Proven(doc: Documents, world: World, c: Closure) {
    && FullCommit(c.commit) && c.commit in world.commits
    && c.gatesPass && c.matrixPass && c.testsFound && (forall g | g in c.gates :: c.gates[g] == "PASS")
    && c.id in Index(doc.manifests)
    && forall k | 0 <= k < |Index(doc.manifests)[c.id].requirements| ::
         var r := Index(doc.manifests)[c.id].requirements[k];
         r in Index(doc.requirements)
         && Index(doc.requirements)[r].status in {"IN_PROGRESS", "IMPLEMENTED", "VALIDATED"}
  }

  lemma RequirementsExactly(doc: Documents, ids: seq<Id>, reference: string)
    requires UniqueOk(doc)
    ensures ValidateUpTo(doc.requirements, ids, |ids|, reference).Some? <==>
      forall k | 0 <= k < |ids| ::
        ids[k] in Index(doc.requirements)
        && Index(doc.requirements)[ids[k]].status in {"IN_PROGRESS", "IMPLEMENTED", "VALIDATED"}
  {
    ValidatedExactly(doc.requirements, ids, reference);
    forall k | 0 <= k < |ids|
      ensures Closable(doc.requirements, ids[k]) <==>
        ids[k] in Index(doc.requirements)
        && Index(doc.requirements)[ids[k]].status in {"IN_PROGRESS", "IMPLEMENTED", "VALIDATED"}
    {
    }
  }

  ghost predicate Unblocked(doc: Documents, id: Id) {
    forall i | 0 <= i < |doc.obligations| ::
      id in doc.obligations[i].1.blocks ==> doc.obligations[i].1.status == Resolved
  }

  lemma GuardExactly(doc: Documents, id: Id, branch: string, lock: Lock)
    ensures GuardPasses(doc, id, branch, lock) <==>
      && Authorized(doc, id, branch, lock) && Index(doc.registry)[id].status != Ready
      && !HasBlockers(doc.obligations, id)
  {
  }

  lemma EvidenceExactly(doc: Documents, world: World, c: Closure)
    requires UniqueOk(doc)
    ensures
      (EvidenceOk(doc, world, c)
       && ValidateUpTo(doc.requirements, Index(doc.manifests)[c.id].requirements,
                       |Index(doc.manifests)[c.id].requirements|, c.reference).Some?)
      <==> (Proven(doc, world, c) && Index(doc.manifests)[c.id].status == Validating)
  {
    CommitExactly(c.commit);
    if c.id in Index(doc.manifests) {
      RequirementsExactly(doc, Index(doc.manifests)[c.id].requirements, c.reference);
    }
  }

  lemma ManifestRepeats(doc: Documents, world: World, id: Id)
    requires Valid(doc, world) && id in Index(doc.manifests)
    ensures id in Index(doc.registry) && Index(doc.manifests)[id].status == Index(doc.registry)[id].status
  {
    var i := RowOf(doc.manifests, id);
  }

  /** A phase may be closed if and only if the documents hold, the phase is VALIDATING and authorized, nothing
      unresolved blocks it, and its evidence is there. */
  lemma {:induction false} ClosableExactly(doc: Documents, world: World, lock: Lock, c: Closure)
    ensures CanClose(doc, world, lock, c) <==>
      && Holds(doc, world) && Authorized(doc, c.id, c.branch, lock) && Proven(doc, world, c)
      && Index(doc.registry)[c.id].status == Validating && Unblocked(doc, c.id)
  {
    ValidExactly(doc, world);
    GuardExactly(doc, c.id, c.branch, lock);
    assert HasBlockers(doc.obligations, c.id) <==> !Unblocked(doc, c.id);
    if Valid(doc, world) {
      EvidenceExactly(doc, world, c);
      if c.id in Index(doc.manifests) { ManifestRepeats(doc, world, c.id); }
    }
  }

  /** A requirement the phase lists is VALIDATED with the reference among its evidence, once; another one is as
      it was. */
  predicate Proved(was: Requirement, now: Requirement, listed: bool, reference: string) {
    if !listed then now == was
    else
      && now == was.(status := "VALIDATED", evidence := now.evidence)
      && was.evidence <= now.evidence && reference in now.evidence
      && |now.evidence| == |was.evidence| + if reference in was.evidence then 0 else 1
  }

  /** Closing a phase makes it READY/GO in the registry and its manifest, completes and releases it in the
      project, replaces its readiness entry, validates its requirements, and changes nothing else. */
  lemma {:induction false} ClosureWrites(doc: Documents, world: World, lock: Lock, c: Closure)
    requires CanClose(doc, world, lock, c)
    ensures var doc' := AfterClose(doc, world, lock, c);
      var phase, manifest := Index(doc.registry)[c.id], Index(doc.manifests)[c.id];
      && Index(doc'.registry) == Index(doc.registry)[c.id := phase.(status := Ready, decision := Go)]
      && Index(doc'.manifests) == Index(doc.manifests)[c.id := manifest.(status := Ready, decision := Go,
                                                         commit := c.commit, evidence := c.evidence)]
      && Index(doc'.readiness) == Index(doc.readiness)[c.id := Readiness(c.commit, c.gates)]
      && Index(doc'.requirements).Keys == Index(doc.requirements).Keys
      && (forall r | r in Index(doc.requirements) ::
            Proved(Index(doc.requirements)[r], Index(doc'.requirements)[r], r in manifest.requirements, c.reference))
      && doc'.obligations == doc.obligations && doc'.policies == doc.policies
      && doc'.project.current == c.id && doc'.project.status == Ready && doc'.project.decision == Go
      && doc'.project.completed == doc.project.completed + {c.id} && doc'.project.active == None
      && doc'.project.blocked == doc.project.blocked - {c.id}
  {
    ClosedIndexes(doc, world, lock, c);
    ValidatedExactly(doc.requirements, Index(doc.manifests)[c.id].requirements, c.reference);
  }
}
