/** Closing a phase keeps the control documents valid. */
module PhaseClosing {
  import opened Prelude
  import opened PhaseGraph
  import opened PhaseControl
  import opened PhaseClose

  ghost function ValidatedRequirements(doc: Documents, c: Closure): Option<Table<Requirement>>
    requires c.id in Index(doc.manifests)
  {
    var ids := Index(doc.manifests)[c.id].requirements;
    ValidateUpTo(doc.requirements, ids, |ids|, c.reference)
  }

  /** The documents after a closure that may happen. */
  ghost function AfterClose(doc: Documents, world: World, lock: Lock, c: Closure): Documents
    requires CanClose(doc, world, lock, c)
  {
    CloseOut(doc, c, ValidatedRequirements(doc, c).value)
  }

  ghost function ClosedPhases(doc: Documents, id: Id): map<Id, Phase>
    requires id in Index(doc.registry)
  {
    Index(doc.registry)[id := Index(doc.registry)[id].(status := Ready, decision := Go)]
  }

  /** The tables after a closure, seen through their indexes. */
  lemma ClosedIndexes(doc: Documents, world: World, lock: Lock, c: Closure)
    requires CanClose(doc, world, lock, c)
    ensures var doc' := AfterClose(doc, world, lock, c);
      && UniqueOk(doc')
      && Index(doc'.registry) == ClosedPhases(doc, c.id)
      && Index(doc'.readiness) == Index(doc.readiness)[c.id := Readiness(c.commit, c.gates)]
      && Index(doc'.manifests) ==
           Index(doc.manifests)[c.id := Index(doc.manifests)[c.id].(status := Ready, decision := Go,
             commit := c.commit, evidence := c.evidence)]
      && SameShape(doc.requirements, doc'.requirements)
  {
    IndexPut(doc.registry, c.id, Index(doc.registry)[c.id].(status := Ready, decision := Go));
    IndexPut(doc.manifests, c.id, Index(doc.manifests)[c.id].(status := Ready, decision := Go, commit := c.commit,
      evidence := c.evidence));
    IndexReplaced(doc.readiness, c.id, Readiness(c.commit, c.gates));
    var ids := Index(doc.manifests)[c.id].requirements;
    ValidateKeepsShape(doc.requirements, ids, |ids|, c.reference);
  }

  lemma ClosedGraph(doc: Documents, id: Id)
    requires id in Index(doc.registry)
    ensures GraphOf(ClosedPhases(doc, id)) == GraphOf(Index(doc.registry))
    ensures GraphOk(Index(doc.registry)) ==> GraphOk(ClosedPhases(doc, id))
  {
  }

  lemma ClosedPhaseRows(doc: Documents, world: World, lock: Lock, c: Closure)
    requires CanClose(doc, world, lock, c)
    ensures var doc' := AfterClose(doc, world, lock, c);
      forall i | 0 <= i < |doc'.registry| ::
        PhaseOk(ClosedPhases(doc, c.id), Index(doc.readiness)[c.id := Readiness(c.commit, c.gates)],
          doc'.registry[i].0, doc'.registry[i].1)
  {
    var doc' := AfterClose(doc, world, lock, c);
    forall i | 0 <= i < |doc'.registry|
      ensures PhaseOk(ClosedPhases(doc, c.id), Index(doc.readiness)[c.id := Readiness(c.commit, c.gates)],
        doc'.registry[i].0, doc'.registry[i].1)
    {
      IndexAt(doc.registry, i);
      assert PhaseOk(Index(doc.registry), Index(doc.readiness), doc.registry[i].0, doc.registry[i].1);
    }
  }

  lemma ClosedObligation(doc: Documents, world: World, lock: Lock, c: Closure, j: nat)
    requires CanClose(doc, world, lock, c) && j < |doc.obligations|
    ensures ObligationOk(AfterClose(doc, world, lock, c), world, doc.obligations[j].1)
  {
    var o, doc' := doc.obligations[j].1, AfterClose(doc, world, lock, c);
    ClosedIndexes(doc, world, lock, c);
    ClosedGraph(doc, c.id);
    assert ObligationOk(doc, world, o);
    assert o.status == Resolved ==> o.owner != c.id;
    assert o.status != Resolved ==> c.id !in o.blocks;
    assert ProductionOk(Index(doc'.registry), doc'.policies, o);
    assert ResolutionOk(Index(doc'.registry), Index(doc'.readiness), Index(doc'.manifests), world, o);
  }

  lemma ClosedPolicy(doc: Documents, world: World, lock: Lock, c: Closure, i: nat)
    requires CanClose(doc, world, lock, c) && i < |doc.policies|
    ensures PolicyOk(ClosedPhases(doc, c.id), doc.policies[i].0, doc.policies[i].1)
  {
    ClosedGraph(doc, c.id);
    assert PolicyOk(Index(doc.registry), doc.policies[i].0, doc.policies[i].1);
  }

  lemma ClosedRequirementRows(doc: Documents, world: World, lock: Lock, c: Closure, i: nat)
    requires CanClose(doc, world, lock, c) && i < |doc.requirements|
    ensures var doc' := AfterClose(doc, world, lock, c);
      i < |doc'.requirements| && RequirementOk(ClosedPhases(doc, c.id), Index(doc'.requirements),
        doc'.requirements[i].1)
  {
    var doc' := AfterClose(doc, world, lock, c);
    ClosedIndexes(doc, world, lock, c);
    ShapeKeepsRows(doc.requirements, doc'.requirements);
    assert RequirementOk(Index(doc.registry), Index(doc.requirements), doc.requirements[i].1);
  }

  lemma ClosedManifestRows(doc: Documents, world: World, lock: Lock, c: Closure, i: nat)
    requires CanClose(doc, world, lock, c) && i < |doc.manifests|
    ensures var doc' := AfterClose(doc, world, lock, c);
      i < |doc'.manifests| && ManifestOk(ClosedPhases(doc, c.id), doc'.requirements, doc'.manifests[i].0,
        doc'.manifests[i].1)
  {
    var doc' := AfterClose(doc, world, lock, c);
    ClosedIndexes(doc, world, lock, c);
    ShapeKeepsRows(doc.requirements, doc'.requirements);
    IndexAt(doc.manifests, i);
    assert ManifestOk(Index(doc.registry), doc.requirements, doc.manifests[i].0, doc.manifests[i].1);
  }

  lemma ClosedProject(doc: Documents, c: Closure, requirements: Table<Requirement>)
    requires c.id in Index(doc.registry) && c.id in Index(doc.manifests)
    requires Unique(doc.registry) && ProjectOk(Index(doc.registry), doc.project)
    ensures ProjectOk(ClosedPhases(doc, c.id), CloseOut(doc, c, requirements).project)
  {
  }

  lemma ClosedObligations(doc: Documents, world: World, lock: Lock, c: Closure)
    requires CanClose(doc, world, lock, c)
    ensures var doc' := AfterClose(doc, world, lock, c);
      forall j | 0 <= j < |doc'.obligations| :: ObligationOk(doc', world, doc'.obligations[j].1)
  {
    forall j | 0 <= j < |doc.obligations|
      ensures ObligationOk(AfterClose(doc, world, lock, c), world, doc.obligations[j].1)
    {
      ClosedObligation(doc, world, lock, c, j);
    }
  }

  lemma ClosedRows(doc: Documents, world: World, lock: Lock, c: Closure)
    requires CanClose(doc, world, lock, c)
    ensures var doc' := AfterClose(doc, world, lock, c);
      && (forall i | 0 <= i < |doc'.policies| ::
            PolicyOk(ClosedPhases(doc, c.id), doc'.policies[i].0, doc'.policies[i].1))
      && (forall i | 0 <= i < |doc'.requirements| ::
            RequirementOk(ClosedPhases(doc, c.id), Index(doc'.requirements), doc'.requirements[i].1))
      && (forall i | 0 <= i < |doc'.manifests| ::
            ManifestOk(ClosedPhases(doc, c.id), doc'.requirements, doc'.manifests[i].0, doc'.manifests[i].1))
  {
    var doc' := AfterClose(doc, world, lock, c);
    forall i | 0 <= i < |doc.policies|
      ensures PolicyOk(ClosedPhases(doc, c.id), doc'.policies[i].0, doc'.policies[i].1)
    {
      ClosedPolicy(doc, world, lock, c, i);
    }
    assert |doc'.requirements| == |doc.requirements| by { ClosedIndexes(doc, world, lock, c); }
    forall i | 0 <= i < |doc'.requirements|
      ensures RequirementOk(ClosedPhases(doc, c.id), Index(doc'.requirements), doc'.requirements[i].1)
    {
      ClosedRequirementRows(doc, world, lock, c, i);
    }
    forall i | 0 <= i < |doc'.manifests|
      ensures ManifestOk(ClosedPhases(doc, c.id), doc'.requirements, doc'.manifests[i].0, doc'.manifests[i].1)
    {
      ClosedManifestRows(doc, world, lock, c, i);
    }
  }

  /** A closure whose checks pass leaves documents that validation accepts. */
  lemma {:induction false} ClosePreservesValidity(doc: Documents, world: World, lock: Lock, c: Closure)
    requires CanClose(doc, world, lock, c)
    ensures Valid(AfterClose(doc, world, lock, c), world)
  {
    ClosedIndexes(doc, world, lock, c);
    ClosedGraph(doc, c.id);
    ClosedPhaseRows(doc, world, lock, c);
    ClosedObligations(doc, world, lock, c);
    ClosedRows(doc, world, lock, c);
    ClosedProject(doc, c, ValidatedRequirements(doc, c).value);
  }

  /** The repository whose documents the control scripts rewrite. */
  class Repository {
    var documents: Documents
    var lock: Lock

    constructor (documents: Documents, lock: Lock)
      ensures this.documents == documents && this.lock == lock
    {
      this.documents, this.lock := documents, lock;
    }

    /** Marks the listed requirements validated, in order, refusing the first that is not satisfied. */
    method ValidateRequirements(ids: seq<Id>, reference: string) returns (r: Option<Table<Requirement>>)
      ensures r == ValidateUpTo(documents.requirements, ids, |ids|, reference)
      ensures Unique(documents.requirements) ==> Validates(documents.requirements, ids, r, reference)
    {
      if Unique(documents.requirements) { ValidatedExactly(documents.requirements, ids, reference); }
      var start, requirements, i := documents.requirements, documents.requirements, 0;
      while i < |ids|
        invariant 0 <= i <= |ids| && ValidateUpTo(start, ids, i, reference) == Some(requirements)
      {
        ValidateNext(start, ids, i, reference);
        var next := ValidateOne(requirements, ids[i], reference);
        if next.None? {
          RefusedStays(start, ids, i + 1, reference);
          return None;
        }
        requirements, i := next.value, i + 1;
      }
      r := Some(requirements);
    }

    /** Closes the phase exactly when every check passes; otherwise nothing is written. The validation
        after the documents are written cannot fail. */
    method Close(world: World, c: Closure) returns (closed: bool)
      modifies this
      ensures closed <==> CanClose(old(documents), world, old(lock), c)
      ensures closed ==>
        documents == AfterClose(old(documents), world, old(lock), c) && Valid(documents, world) && lock == Free
      ensures !closed ==> documents == old(documents) && lock == old(lock)
    {
      var valid := ValidateInvariants(documents, world);
      if !valid || HasBlockers(documents.obligations, c.id) || !GuardPasses(documents, c.id, c.branch, lock) {
        return false;
      }
      if !EvidenceOk(documents, world, c) { return false; }
      var requirements := ValidateRequirements(Index(documents.manifests)[c.id].requirements, c.reference);
      if requirements.None? { return false; }
      ClosePreservesValidity(documents, world, lock, c);
      documents := CloseOut(documents, c, requirements.value);
      if lock.Held? && lock.phase == c.id {
        lock := Free;
      }
      valid := ValidateInvariants(documents, world);
      assert valid;
      closed := true;
    }
  }

  lemma RefusedStays(requirements: Table<Requirement>, ids: seq<Id>, n: nat, reference: string)
    requires n <= |ids| && ValidateUpTo(requirements, ids, n, reference).None?
    ensures ValidateUpTo(requirements, ids, |ids|, reference).None?
  {
    var i := n;
    while i < |ids|
      invariant n <= i <= |ids| && ValidateUpTo(requirements, ids, i, reference).None?
    {
      ValidateNext(requirements, ids, i, reference);
      i := i + 1;
    }
  }

  lemma ClosedUnhindered(doc: Documents, c: Closure, requirements: Table<Requirement>)
    requires c.id in Index(doc.registry) && c.id in Index(doc.manifests) && doc.project.blocked <= {c.id}
    requires forall i | 0 <= i < |doc.registry| :: doc.registry[i].1.status == Blocked ==> doc.registry[i].0 == c.id
    ensures Unhindered(CloseOut(doc, c, requirements))
  {
  }

  /** After a closure with nothing blocked, the project offers no next phase exactly when all are READY. */
  lemma {:induction false} ClosureLeadsOn(doc: Documents, world: World, lock: Lock, c: Closure)
    requires CanClose(doc, world, lock, c)
    requires doc.project.blocked <= {c.id} && forall i | 0 <= i < |doc.registry| ::
      doc.registry[i].1.status == Blocked ==> doc.registry[i].0 == c.id
    ensures var doc' := AfterClose(doc, world, lock, c);
      Eligible(doc') == [] <==> forall p | p in Index(doc'.registry) :: Index(doc'.registry)[p].status == Ready
  {
    var doc' := AfterClose(doc, world, lock, c);
    ClosePreservesValidity(doc, world, lock, c);
    ClosedUnhindered(doc, c, ValidatedRequirements(doc, c).value);
    EligibleUnlessDone(doc', world);
  }
}
