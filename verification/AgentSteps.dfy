/** Every step of the agent protocol, by any worker, keeps the invariant. */
module AgentSteps {
  import opened Prelude
  import opened TurnLoop
  import TurnLoopProofs
  import opened AgentDb
  import opened AgentProtocol
  import opened AgentInvariant
  import opened AgentTables

  // ----- the journal grows by one moment ------------------------------------------------------

  lemma LegalSnoc(h: seq<Moment>, m: Moment)
    requires Legal(h) && MayFollow(h, m)
    ensures Legal(h + [m])
  {
    assert (h + [m])[..|h|] == h;
  }

  /** A moment that is no grant, no dispatch, no end. */
  predicate Plain(m: Moment) {
    m.Answered? || m.Errored? || m.Unrecorded?
  }

  lemma PlainMoment(db: Db, jobs: map<JobId, Job>, h: seq<Moment>, m: Moment)
    requires JournalInv(db, jobs, h) && Plain(m)
    requires AnswersOk(db.turns, [m]) && ErrorsOk(db.turns, [m])
    ensures JournalInv(db, jobs, h + [m])
  {
    LegalSnoc(h, m);
    PlainKeeps(h, m);
    assert AnswersOk(db.turns, h + [m]) by { assert [m][0] == m; }
    assert ErrorsOk(db.turns, h + [m]) by { assert [m][0] == m; }
  }

  lemma PlainKeeps(h: seq<Moment>, m: Moment)
    requires Plain(m)
    ensures forall x: Moment | !Plain(x) :: x in h + [m] <==> x in h
  {
  }

  /** A session ends: its end is journalled once. */
  lemma EndMoment(db: Db, db': Db, jobs: map<JobId, Job>, h: seq<Moment>, s: SessionId)
    requires JournalInv(db, jobs, h)
    requires s < |db.sessions| && !SessionTerminal(db.sessions[s].state)
    requires |db'.sessions| == |db.sessions| && db'.sessions == db.sessions[s := db'.sessions[s]]
    requires SessionTerminal(db'.sessions[s].state)
    requires db'.turns == db.turns && db'.modelPermits == db.modelPermits && db'.toolPermits == db.toolPermits
    ensures JournalInv(db', jobs, h + [SessionEnded(s)])
  {
    LegalSnoc(h, SessionEnded(s));
    assert EndsOk(db'.sessions, h + [SessionEnded(s)]);
    assert DispatchesOk(jobs, h + [SessionEnded(s)]);
  }

  /** Session rows change without any session ending. */
  lemma SessionsMove(db: Db, db': Db, jobs: map<JobId, Job>, h: seq<Moment>)
    requires JournalInv(db, jobs, h)
    requires |db'.sessions| >= |db.sessions|
    requires forall s | 0 <= s < |db'.sessions| ::
      SessionTerminal(db'.sessions[s].state) <==> (s < |db.sessions| && SessionTerminal(db.sessions[s].state))
    requires db'.turns == db.turns && db'.modelPermits == db.modelPermits && db'.toolPermits == db.toolPermits
    ensures JournalInv(db', jobs, h)
  {
  }

  /** A turn row changes from active to ended; nothing handed out or journalled mentions it as ended. */
  lemma TurnMoves(db: Db, db': Db, jobs: map<JobId, Job>, h: seq<Moment>, t: TurnId, row: TurnRow)
    requires JournalInv(db, jobs, h) && t < |db.turns| && Ends(db.turns[t], row)
    requires db'.turns == db.turns[t := row] && db'.sessions == db.sessions
    requires db'.modelPermits == db.modelPermits && db'.toolPermits == db.toolPermits
    ensures JournalInv(db', jobs, h)
  {
    assert ModelGrantsOk(db'.turns, db.modelPermits, h);
    assert ToolGrantsOk(db'.turns, db.toolPermits, h);
  }

  /** Jobs change without any loop standing at an undispatched permit anew. */
  lemma JobsMove(db: Db, jobs: map<JobId, Job>, jobs': map<JobId, Job>, h: seq<Moment>)
    requires JournalInv(db, jobs, h)
    requires forall id | id in jobs' && jobs'[id].stage.Looping? :: Undispatched(jobs'[id], jobs'[id].stage.loop, h)
    ensures JournalInv(db, jobs', h)
  {
  }

  // ----- what a job may rely on ------------------------------------------------------------------

  /** The turn a job works on is active and its own, and its session exists. */
  lemma RowFacts(a: System, id: JobId)
    requires Inv(a) && id in a.jobs
    ensures JobOk(a.db.turns, a.jobs[id]) && TurnOk(a.db.turns[a.jobs[id].turn])
    ensures a.jobs[id].session < |a.db.sessions| && SessionOk(a.db.sessions[a.jobs[id].session])
  {
    Unfold(a.db, a.jobs, a.journal);
  }

  lemma JobFacts(a: System, id: JobId)
    requires Inv(a) && id in a.jobs
    ensures JobOk(a.db.turns, a.jobs[id])
    ensures StageOk(a.jobs[id], a.db.modelPermits, a.db.toolPermits, a.db.toolRows)
    ensures a.jobs[id].session < |a.db.sessions| && SessionOk(a.db.sessions[a.jobs[id].session])
    ensures TurnOk(a.db.turns[a.jobs[id].turn])
  {
    Unfold(a.db, a.jobs, a.journal);
  }

  // ----- the stage of one job changes -----------------------------------------------------------

  lemma StageMoves(a: System, id: JobId, stage: Stage)
    requires Inv(a) && id in a.jobs
    requires StageOk(a.jobs[id].(stage := stage), a.db.modelPermits, a.db.toolPermits, a.db.toolRows)
    requires stage.Looping? ==> Undispatched(a.jobs[id], stage.loop, a.journal)
    ensures Inv(SetStage(a, id, stage))
  {
    Unfold(a.db, a.jobs, a.journal);
    var b := SetStage(a, id, stage);
    assert JobsOk(b.db.turns, b.jobs);
    assert StagesOk(b.jobs, b.db.modelPermits, b.db.toolPermits, b.db.toolRows);
    JobsMove(a.db, a.jobs, b.jobs, a.journal);
  }

  lemma DropWork(db: Db, jobs: map<JobId, Job>, id: JobId)
    requires WorkInv(db, jobs)
    ensures WorkInv(db, jobs - {id})
  {
  }

  lemma DropJournal(db: Db, jobs: map<JobId, Job>, h: seq<Moment>, id: JobId)
    requires JournalInv(db, jobs, h)
    ensures JournalInv(db, jobs - {id}, h)
  {
    JobsMove(db, jobs, jobs - {id}, h);
  }

  lemma DropAll(db: Db, jobs: map<JobId, Job>, h: seq<Moment>, id: JobId)
    requires AllInv(db, jobs, h)
    ensures AllInv(db, jobs - {id}, h)
  {
    Unfold(db, jobs, h);
    DropWork(db, jobs, id);
    DropJournal(db, jobs, h, id);
  }

  lemma DropInv(a: System, id: JobId)
    requires Inv(a)
    ensures Inv(Drop(a, id))
  {
    DropAll(a.db, a.jobs, a.journal, id);
  }

  // ----- steps without tables ---------------------------------------------------------------------

  lemma PrepareInv(a: System, id: JobId, limits: Limits, prompt: seq<Message>)
    requires Inv(a) && Enabled(a, Prepare(id, limits, prompt))
    ensures Inv(Apply(a, Prepare(id, limits, prompt)))
  {
    TurnLoopProofs.StartInv(limits, prompt);
    JobFacts(a, id);
    assert KeysOf([]) == [];
    StageMoves(a, id, Looping(limits, prompt, Start(limits, prompt)));
  }

  lemma HearModelInv(a: System, id: JobId, response: Response)
    requires Inv(a) && Enabled(a, HearModel(id, response))
    ensures Inv(Apply(a, HearModel(id, response)))
  {
    var j, l := a.jobs[id], LoopOf(a, id);
    var limits, prompt := j.stage.limits, j.stage.prompt;
    JobFacts(a, id);
    TurnLoopProofs.ReceiveModelInv(limits, prompt, l, response);
    var l' := ReceiveModel(limits, l, response);
    HeardModel(limits, l, response);
    StageMoves(a, id, Looping(limits, prompt, l'));
  }

  /** Hearing the model changes neither the permits nor the rows a loop should hold. */
  lemma HeardModel(limits: Limits, l: Loop, response: Response)
    requires l.phase == AwaitModel
    ensures var l' := ReceiveModel(limits, l, response);
      && !l'.phase.ModelPermitted? && !l'.phase.ToolPermitted?
      && l'.work.outcomes == l.work.outcomes
      && (!l'.phase.Raised? ==> Issued(l') == Issued(l) && Extra(l') == Extra(l) && NotedKeys(l') == NotedKeys(l))
  {
    if Validate(limits, response).None? && WantsTools(response) {
      DrainHolds(limits, OpenBlock(TurnLoop.Count(l.work, response), response), l.requested);
    }
  }

  /** Draining ends at a tool permit of this iteration, at the next model permit, or raised. */
  lemma {:induction false} DrainHolds(limits: Limits, w: Work, requested: nat)
    ensures var l := Drain(limits, w, requested);
      && l.work.outcomes == w.outcomes && l.work.executed == w.executed
      && (l.phase.NeedModelPermit? || l.phase.NeedToolPermit? || l.phase.Raised?)
      && (l.phase.NeedModelPermit? ==> l.work.iteration == w.iteration + 1)
      && (l.phase.NeedToolPermit? ==> l.work.iteration == w.iteration)
    decreases |w.pending|
  {
    if w.pending != [] && requested + 1 <= limits.callsPerTurn && w.pending[0].Semantic() in w.executed {
      DrainHolds(limits, Answer(w, w.executed[w.pending[0].Semantic()].payload), requested + 1);
    }
  }

  /** An executed call keeps its permit and is not recorded yet. */
  lemma HeardTool(t: TurnId, l: Loop, allowed: bool, ok: bool, payload: string, mp: map<ModelSlot, SessionId>,
                  tp: map<ToolSlot, ToolGrant>, rows: seq<ToolRow>)
    requires l.phase == AwaitTool && l.work.pending != [] && Holds(t, l, mp, tp, rows)
    ensures Holds(t, ReceiveTool(l, allowed, ok, payload), mp, tp, rows)
  {
    var l' := ReceiveTool(l, allowed, ok, payload);
    assert l'.work.outcomes[..|l.work.outcomes|] == l.work.outcomes;
    assert KeysOf(l'.work.outcomes) == KeysOf(l.work.outcomes) + [l.work.pending[0].Semantic()];
  }

  lemma HearToolInv(a: System, id: JobId, allowed: bool, ok: bool, payload: string)
    requires Inv(a) && Enabled(a, HearTool(id, allowed, ok, payload))
    ensures Inv(Apply(a, HearTool(id, allowed, ok, payload)))
  {
    var j, l := a.jobs[id], LoopOf(a, id);
    JobFacts(a, id);
    TurnLoopProofs.ReceiveToolInv(j.stage.limits, j.stage.prompt, l, allowed, ok, payload);
    HeardTool(j.turn, l, allowed, ok, payload, a.db.modelPermits, a.db.toolPermits, a.db.toolRows);
    StageMoves(a, id, j.stage.(loop := ReceiveTool(l, allowed, ok, payload)));
  }

  lemma GiveUpInv(a: System, id: JobId, stage: Stage)
    requires Inv(a) && id in a.jobs
    requires stage == Expiring || (stage.Failing? && stage.stale == None)
    ensures Inv(SetStage(a, id, stage))
  {
    StageMoves(a, id, stage);
  }

  // ----- permits --------------------------------------------------------------------------------

  lemma StageKept(j: Job, t: TurnId, mp: map<ModelSlot, SessionId>, mp': map<ModelSlot, SessionId>,
                  tp: map<ToolSlot, ToolGrant>, tp': map<ToolSlot, ToolGrant>, rows: seq<ToolRow>, rows': seq<ToolRow>)
    requires StageOk(j, mp, tp, rows) && j.turn != t
    requires forall i: nat :: ModelSlot(j.turn, i) in mp' <==> ModelSlot(j.turn, i) in mp
    requires forall k: Key :: ToolSlot(j.turn, k) in tp' <==> ToolSlot(j.turn, k) in tp
    requires RowKeys(rows', j.turn) == RowKeys(rows, j.turn)
    ensures StageOk(j, mp', tp', rows')
  {
    match j.stage
    case Prepared =>
    case Looping(limits, prompt, l) =>
    case Expiring =>
    case Failing(_, _, _) =>
  }

  /** Only the job of turn `t` sees a change in the permits and rows of `t`. */
  lemma WorkMoves(db: Db, db': Db, jobs: map<JobId, Job>, id: JobId, stage: Stage)
    requires WorkInv(db, jobs) && id in jobs && db'.turns == db.turns
    requires var t := jobs[id].turn;
      && (forall u: TurnId, i: nat | u != t :: ModelSlot(u, i) in db'.modelPermits <==>
            ModelSlot(u, i) in db.modelPermits)
      && (forall u: TurnId, k: Key | u != t :: ToolSlot(u, k) in db'.toolPermits <==> ToolSlot(u, k) in db.toolPermits)
      && (forall u: TurnId | u != t :: RowKeys(db'.toolRows, u) == RowKeys(db.toolRows, u))
    requires StageOk(jobs[id].(stage := stage), db'.modelPermits, db'.toolPermits, db'.toolRows)
    ensures WorkInv(db', jobs[id := jobs[id].(stage := stage)])
  {
    var jobs' := jobs[id := jobs[id].(stage := stage)];
    forall y | y in jobs' ensures StageOk(jobs'[y], db'.modelPermits, db'.toolPermits, db'.toolRows) {
      if y != id {
        StageKept(jobs[y], jobs[id].turn, db.modelPermits, db'.modelPermits, db.toolPermits, db'.toolPermits,
                  db.toolRows, db'.toolRows);
      }
    }
  }

  lemma RefusedInv(a: System, id: JobId, auth: Authorization)
    requires Inv(a) && id in a.jobs
    requires auth.Revoked? ==> SessionTerminal(auth.row.state) && SessionOk(auth.row)
    ensures Inv(SetStage(a, id, Refusal(auth)))
  {
    StageMoves(a, id, Refusal(auth));
  }

  lemma ModelGrantMoment(db: Db, db': Db, jobs: map<JobId, Job>, h: seq<Moment>, t: TurnId, i: nat)
    requires JournalInv(db, jobs, h) && t < |db.turns| && db.turns[t].session < |db.sessions|
    requires !SessionTerminal(db.sessions[db.turns[t].session].state) && ModelSlot(t, i) !in db.modelPermits
    requires db' == db.(modelPermits := db.modelPermits[ModelSlot(t, i) := db.turns[t].session])
    ensures JournalInv(db', jobs, h + [ModelGranted(db.turns[t].session, t, i, db.turns[t].owner)])
    ensures ModelDispatched(db.turns[t].session, t, i, db.turns[t].owner) !in h
  {
    var m := ModelGranted(db.turns[t].session, t, i, db.turns[t].owner);
    assert m !in h;
    LegalSnoc(h, m);
    assert ModelGrantsOk(db'.turns, db'.modelPermits, h + [m]);
    assert ToolGrantsOk(db'.turns, db'.toolPermits, h + [m]);
    assert DispatchesOk(jobs, h + [m]);
  }

  lemma ToolGrantMoment(db: Db, db': Db, jobs: map<JobId, Job>, h: seq<Moment>, t: TurnId, k: Key, n: nat)
    requires JournalInv(db, jobs, h) && t < |db.turns| && db.turns[t].session < |db.sessions|
    requires !SessionTerminal(db.sessions[db.turns[t].session].state) && ToolSlot(t, k) !in db.toolPermits
    requires db' == db.(toolPermits := db.toolPermits[ToolSlot(t, k) := ToolGrant(db.turns[t].session, n)])
    ensures JournalInv(db', jobs, h + [ToolGranted(db.turns[t].session, t, k, db.turns[t].owner)])
    ensures ToolDispatched(db.turns[t].session, t, k, db.turns[t].owner) !in h
  {
    var m := ToolGranted(db.turns[t].session, t, k, db.turns[t].owner);
    assert m !in h;
    LegalSnoc(h, m);
    assert ModelGrantsOk(db'.turns, db'.modelPermits, h + [m]);
    assert ToolGrantsOk(db'.turns, db'.toolPermits, h + [m]);
    assert DispatchesOk(jobs, h + [m]);
  }

  /** The permit a loop asks for is never there already, and its turn is always its own. */
  lemma OwnModelPermit(a: System, id: JobId)
    requires Inv(a) && LoopAt(a, id, NeedModelPermit)
    ensures var j := a.jobs[id];
      && j.session < |a.db.sessions| && Authority(a.db, j.session, j.turn, j.owner)
      && ModelSlot(j.turn, LoopOf(a, id).work.iteration) !in a.db.modelPermits
  {
    Unfold(a.db, a.jobs, a.journal);
    var j := a.jobs[id];
    assert JobOk(a.db.turns, j);
    assert StageOk(j, a.db.modelPermits, a.db.toolPermits, a.db.toolRows);
  }

  lemma ToolPermitFresh(j: Job, db: Db)
    requires j.stage.Looping? && j.stage.loop.phase == NeedToolPermit && j.stage.loop.work.pending != []
    requires StageOk(j, db.modelPermits, db.toolPermits, db.toolRows)
    ensures ToolSlot(j.turn, j.stage.loop.work.pending[0].Semantic()) !in db.toolPermits
  {
    var w := j.stage.loop.work;
    TurnLoopProofs.FreshKey(w, w.replies, TurnLoopProofs.Answered(w), w.pending[0].Semantic());
  }

  lemma OwnToolPermit(a: System, id: JobId)
    requires Inv(a) && LoopAt(a, id, NeedToolPermit) && LoopOf(a, id).work.pending != []
    ensures var j, w := a.jobs[id], LoopOf(a, id).work;
      && j.session < |a.db.sessions| && Authority(a.db, j.session, j.turn, j.owner)
      && ToolSlot(j.turn, w.pending[0].Semantic()) !in a.db.toolPermits
  {
    Unfold(a.db, a.jobs, a.journal);
    var j := a.jobs[id];
    assert JobOk(a.db.turns, j);
    assert StageOk(j, a.db.modelPermits, a.db.toolPermits, a.db.toolRows);
    ToolPermitFresh(j, a.db);
  }

  lemma GrantedModelStage(j: Job, l: Loop, db: Db, s: SessionId)
    requires j.stage.Looping? && j.stage.loop == l && l.phase == NeedModelPermit
    requires StageOk(j, db.modelPermits, db.toolPermits, db.toolRows)
    ensures StageOk(j.(stage := j.stage.(loop := GrantModel(l))),
                    db.modelPermits[ModelSlot(j.turn, l.work.iteration) := s], db.toolPermits, db.toolRows)
  {
    var mp := db.modelPermits[ModelSlot(j.turn, l.work.iteration) := s];
    assert ModelRange(mp, j.turn, Issued(GrantModel(l)));
  }

  lemma ModelGrantedInv(a: System, id: JobId)
    requires Inv(a) && Enabled(a, AskModel(id))
    requires var j := a.jobs[id];
      AuthorizeModel(a.db, j.session, j.turn, j.owner, LoopOf(a, id).work.iteration) == Permitted
    ensures Inv(Apply(a, AskModel(id)))
  {
    Unfold(a.db, a.jobs, a.journal);
    var j, l := a.jobs[id], LoopOf(a, id);
    var i := l.work.iteration;
    var db' := ModelPermitTx(a.db, j.session, j.turn, j.owner, i);
    ModelPermitTables(a.db, j.session, j.turn, j.owner, i);
    GrantedModelStage(j, l, a.db, j.session);
    WorkMoves(a.db, db', a.jobs, id, j.stage.(loop := GrantModel(l)));
    ModelGrantMoment(a.db, db', a.jobs, a.journal, j.turn, i);
    GrantedJobs(db', a.jobs, id, GrantModel(l), a.journal + [ModelGranted(j.session, j.turn, i, j.owner)]);
  }

  lemma AskModelInv(a: System, id: JobId)
    requires Inv(a) && Enabled(a, AskModel(id))
    ensures Inv(Apply(a, AskModel(id)))
  {
    var j := a.jobs[id];
    var auth := AuthorizeModel(a.db, j.session, j.turn, j.owner, LoopOf(a, id).work.iteration);
    RowFacts(a, id);
    if auth == Permitted {
      ModelGrantedInv(a, id);
    } else {
      RefusedInv(a, id, auth);
    }
  }

  lemma GrantedJobs(db: Db, jobs: map<JobId, Job>, id: JobId, l: Loop, h: seq<Moment>)
    requires JournalInv(db, jobs, h) && id in jobs && jobs[id].stage.Looping?
    requires Undispatched(jobs[id], l, h)
    ensures JournalInv(db, jobs[id := jobs[id].(stage := jobs[id].stage.(loop := l))], h)
  {
    JobsMove(db, jobs, jobs[id := jobs[id].(stage := jobs[id].stage.(loop := l))], h);
  }

  lemma GrantedToolStage(j: Job, l: Loop, db: Db, g: ToolGrant)
    requires j.stage.Looping? && j.stage.loop == l && l.phase == NeedToolPermit && l.work.pending != []
    requires StageOk(j, db.modelPermits, db.toolPermits, db.toolRows)
    ensures StageOk(j.(stage := j.stage.(loop := GrantTool(l))), db.modelPermits,
                    db.toolPermits[ToolSlot(j.turn, l.work.pending[0].Semantic()) := g], db.toolRows)
  {
    var tp := db.toolPermits[ToolSlot(j.turn, l.work.pending[0].Semantic()) := g];
    assert ToolRange(tp, j.turn, KeysOf(l.work.outcomes), Extra(GrantTool(l)));
  }

  lemma ToolGrantedInv(a: System, id: JobId)
    requires Inv(a) && Enabled(a, AskTool(id))
    requires var j := a.jobs[id];
      AuthorizeTool(a.db, j.session, j.turn, j.owner, LoopOf(a, id).work.pending[0].Semantic()) == Permitted
    ensures Inv(Apply(a, AskTool(id)))
  {
    Unfold(a.db, a.jobs, a.journal);
    var j, l := a.jobs[id], LoopOf(a, id);
    var k := l.work.pending[0].Semantic();
    var db' := ToolPermitTx(a.db, j.session, j.turn, j.owner, k, l.requested);
    ToolPermitTables(a.db, j.session, j.turn, j.owner, k, l.requested);
    GrantedToolStage(j, l, a.db, ToolGrant(j.session, l.requested));
    WorkMoves(a.db, db', a.jobs, id, j.stage.(loop := GrantTool(l)));
    ToolGrantMoment(a.db, db', a.jobs, a.journal, j.turn, k, l.requested);
    GrantedJobs(db', a.jobs, id, GrantTool(l), a.journal + [ToolGranted(j.session, j.turn, k, j.owner)]);
  }

  lemma AskToolInv(a: System, id: JobId)
    requires Inv(a) && Enabled(a, AskTool(id))
    ensures Inv(Apply(a, AskTool(id)))
  {
    var j := a.jobs[id];
    var auth := AuthorizeTool(a.db, j.session, j.turn, j.owner, LoopOf(a, id).work.pending[0].Semantic());
    RowFacts(a, id);
    if auth == Permitted {
      ToolGrantedInv(a, id);
    } else {
      RefusedInv(a, id, auth);
    }
  }

  // ----- dispatches -------------------------------------------------------------------------------

  lemma DispatchMoment(db: Db, jobs: map<JobId, Job>, h: seq<Moment>, m: Moment, id: JobId, l: Loop)
    requires JournalInv(db, jobs, h) && id in jobs && jobs[id].stage.Looping?
    requires (m.ModelDispatched? && ModelGranted(m.session, m.turn, m.iteration, m.owner) in h) ||
             (m.ToolDispatched? && ToolGranted(m.session, m.turn, m.key, m.owner) in h)
    requires m !in h && m.turn == jobs[id].turn
    requires forall y | y in jobs && jobs[y].turn == m.turn :: y == id
    requires !l.phase.ModelPermitted? && !l.phase.ToolPermitted?
    ensures JournalInv(db, jobs[id := jobs[id].(stage := jobs[id].stage.(loop := l))], h + [m])
  {
    LegalSnoc(h, m);
    var jobs' := jobs[id := jobs[id].(stage := jobs[id].stage.(loop := l))];
    assert DispatchesOk(jobs', h + [m]);
  }

  /** A permitted model call: its permit is journalled, its dispatch is not. */
  lemma ModelReady(db: Db, jobs: map<JobId, Job>, h: seq<Moment>, id: JobId)
    requires WorkInv(db, jobs) && JournalInv(db, jobs, h)
    requires id in jobs && jobs[id].stage.Looping? && jobs[id].stage.loop.phase == ModelPermitted
    ensures var j := jobs[id];
      && ModelGranted(j.session, j.turn, j.stage.loop.work.iteration, j.owner) in h
      && ModelDispatched(j.session, j.turn, j.stage.loop.work.iteration, j.owner) !in h
  {
    var j := jobs[id];
    assert JobOk(db.turns, j) && StageOk(j, db.modelPermits, db.toolPermits, db.toolRows);
    assert ModelSlot(j.turn, j.stage.loop.work.iteration) in db.modelPermits;
    assert Undispatched(j, j.stage.loop, h);
  }

  lemma ToolReady(db: Db, jobs: map<JobId, Job>, h: seq<Moment>, id: JobId)
    requires WorkInv(db, jobs) && JournalInv(db, jobs, h)
    requires id in jobs && jobs[id].stage.Looping? && jobs[id].stage.loop.phase == ToolPermitted
    requires jobs[id].stage.loop.work.pending != []
    ensures var j, k := jobs[id], jobs[id].stage.loop.work.pending[0].Semantic();
      ToolGranted(j.session, j.turn, k, j.owner) in h && ToolDispatched(j.session, j.turn, k, j.owner) !in h
  {
    var j := jobs[id];
    assert JobOk(db.turns, j) && StageOk(j, db.modelPermits, db.toolPermits, db.toolRows);
    assert ToolSlot(j.turn, j.stage.loop.work.pending[0].Semantic()) in db.toolPermits;
    assert Undispatched(j, j.stage.loop, h);
  }

  /** Sending a permitted call needs no further permit. */
  lemma SentWork(db: Db, jobs: map<JobId, Job>, id: JobId, l: Loop)
    requires WorkInv(db, jobs) && id in jobs && jobs[id].stage.Looping?
    requires (jobs[id].stage.loop.phase == ModelPermitted && l == SendModel(jobs[id].stage.loop)) ||
             (jobs[id].stage.loop.phase == ToolPermitted && l == SendTool(jobs[id].stage.loop))
    ensures WorkInv(db, jobs[id := jobs[id].(stage := jobs[id].stage.(loop := l))])
  {
    assert StageOk(jobs[id], db.modelPermits, db.toolPermits, db.toolRows);
    assert StageOk(jobs[id].(stage := jobs[id].stage.(loop := l)), db.modelPermits, db.toolPermits, db.toolRows);
    WorkMoves(db, db, jobs, id, jobs[id].stage.(loop := l));
  }

  lemma CallModelInv(a: System, id: JobId)
    requires Inv(a) && Enabled(a, CallModel(id))
    ensures Inv(Apply(a, CallModel(id)))
  {
    Unfold(a.db, a.jobs, a.journal);
    var j, l := a.jobs[id], LoopOf(a, id);
    SentWork(a.db, a.jobs, id, SendModel(l));
    ModelReady(a.db, a.jobs, a.journal, id);
    DispatchMoment(a.db, a.jobs, a.journal, ModelDispatched(j.session, j.turn, l.work.iteration, j.owner), id,
      SendModel(l));
  }

  lemma CallToolInv(a: System, id: JobId)
    requires Inv(a) && Enabled(a, CallTool(id))
    ensures Inv(Apply(a, CallTool(id)))
  {
    Unfold(a.db, a.jobs, a.journal);
    var j, l := a.jobs[id], LoopOf(a, id);
    SentWork(a.db, a.jobs, id, SendTool(l));
    ToolReady(a.db, a.jobs, a.journal, id);
    DispatchMoment(a.db, a.jobs, a.journal,
                   ToolDispatched(j.session, j.turn, l.work.pending[0].Semantic(), j.owner), id, SendTool(l));
  }

  // ----- tool rows --------------------------------------------------------------------------------

  /** Recording an outcome changes which rows a loop should have, and no permit. */
  lemma NotedCounts(limits: Limits, l: Loop)
    requires l.phase == NeedRecord && l.work.pending != [] && l.work.outcomes != []
    ensures var l' := Recorded(limits, l);
      && l'.work.outcomes == l.work.outcomes
      && (l'.phase.Raised? ||
          (Issued(l') == Issued(l) && Extra(l') == Extra(l) && NotedKeys(l') == KeysOf(l.work.outcomes)))
  {
    DrainHolds(limits, TurnLoop.Answer(l.work, l.work.outcomes[|l.work.outcomes| - 1].payload), l.requested);
  }

  lemma NotedHolds(t: TurnId, limits: Limits, l: Loop, db: Db, r: ToolRow)
    requires l.phase == NeedRecord && l.work.pending != [] && l.work.outcomes != []
    requires Holds(t, l, db.modelPermits, db.toolPermits, db.toolRows)
    requires r.turn == t && r.key == l.work.outcomes[|l.work.outcomes| - 1].key
    ensures var l' := Recorded(limits, l);
      l'.phase.Raised? || Holds(t, l', db.modelPermits, db.toolPermits, db.toolRows + [r])
  {
    NotedCounts(limits, l);
    RowKeysSnoc(db.toolRows, r, t);
    KeysLast(l.work.outcomes);
  }

  lemma KeysLast(os: seq<Outcome>)
    requires os != []
    ensures KeysOf(os) == KeysOf(os[..|os| - 1]) + [os[|os| - 1].key]
  {
  }

  lemma NotedWork(db: Db, db': Db, jobs: map<JobId, Job>, id: JobId)
    requires WorkInv(db, jobs) && id in jobs && jobs[id].stage.Looping?
    requires var l := jobs[id].stage.loop;
      && l.phase == NeedRecord && l.work.pending != [] && l.work.outcomes != []
      && db'.turns == db.turns && db'.modelPermits == db.modelPermits && db'.toolPermits == db.toolPermits
      && exists r: ToolRow :: db'.toolRows == db.toolRows + [r] && r.turn == jobs[id].turn
                              && r.key == l.work.outcomes[|l.work.outcomes| - 1].key
    ensures var stage := jobs[id].stage;
      WorkInv(db', jobs[id := jobs[id].(stage := stage.(loop := Recorded(stage.limits, stage.loop)))])
  {
    var j, l := jobs[id], jobs[id].stage.loop;
    var r: ToolRow :| db'.toolRows == db.toolRows + [r] && r.turn == j.turn
      && r.key == l.work.outcomes[|l.work.outcomes| - 1].key;
    assert StageOk(j, db.modelPermits, db.toolPermits, db.toolRows);
    TurnLoopProofs.RecordedInv(j.stage.limits, j.stage.prompt, l);
    NotedHolds(j.turn, j.stage.limits, l, db, r);
    OtherRows(db.toolRows, r);
    WorkMoves(db, db', jobs, id, j.stage.(loop := Recorded(j.stage.limits, l)));
  }

  lemma NotedFits(j: Job, db: Db)
    requires j.stage.Looping? && j.stage.loop.phase == NeedRecord && j.stage.loop.work.outcomes != []
    requires StageOk(j, db.modelPermits, db.toolPermits, db.toolRows)
    ensures |j.stage.loop.work.outcomes| == |RowKeys(db.toolRows, j.turn)| + 1
    ensures ModelSlot(j.turn, j.stage.loop.work.iteration) in db.modelPermits
  {
  }

  lemma NoteToolInv(a: System, id: JobId)
    requires Inv(a) && Enabled(a, NoteTool(id))
    ensures Inv(Apply(a, NoteTool(id)))
  {
    Unfold(a.db, a.jobs, a.journal);
    var j, l := a.jobs[id], LoopOf(a, id);
    var w := l.work;
    var o := w.outcomes[|w.outcomes| - 1];
    var db' := RecordToolTx(a.db, j.session, j.turn, o, w.iteration, |w.outcomes|);
    var l' := Recorded(j.stage.limits, l);
    assert JobOk(a.db.turns, j);
    assert StageOk(j, a.db.modelPermits, a.db.toolPermits, a.db.toolRows);
    NotedFits(j, a.db);
    RecordToolTables(a.db, j.session, j.turn, o, w.iteration, |w.outcomes|);
    assert db'.toolRows == a.db.toolRows + [ToolRow(j.session, j.turn, |w.outcomes|, w.iteration, o.key, StatusOf(o))];
    NotedWork(a.db, db', a.jobs, id);
    NotedUndispatched(j.stage.limits, l, j, a.journal);
    GrantedJobs(a.db, a.jobs, id, l', a.journal);
    SessionsMove(a.db, db', a.jobs[id := j.(stage := j.stage.(loop := l'))], a.journal);
  }

  lemma OtherRows(rows: seq<ToolRow>, r: ToolRow)
    ensures forall u: TurnId | u != r.turn :: RowKeys(rows + [r], u) == RowKeys(rows, u)
  {
    forall u: TurnId | u != r.turn ensures RowKeys(rows + [r], u) == RowKeys(rows, u) {
      RowKeysSnoc(rows, r, u);
    }
  }

  lemma NotedUndispatched(limits: Limits, l: Loop, j: Job, h: seq<Moment>)
    requires l.phase == NeedRecord && l.work.pending != [] && l.work.outcomes != []
    ensures Undispatched(j, Recorded(limits, l), h)
  {
    DrainHolds(limits, TurnLoop.Answer(l.work, l.work.outcomes[|l.work.outcomes| - 1].payload), l.requested);
  }

  // ----- sessions begin and end -----------------------------------------------------------------

  lemma StartSessionInv(a: System, correlation: Option<string>, at: Time)
    requires Inv(a)
    ensures Inv(Apply(a, StartSession(correlation, at)))
  {
    Unfold(a.db, a.jobs, a.journal);
    StartTables(a.db, correlation, at);
    SessionsMove(a.db, StartTx(a.db, correlation, at), a.jobs, a.journal);
  }

  lemma CloseInv(a: System, s: SessionId, target: SessionState, code: Option<Code>, at: Time)
    requires Inv(a) && s < |a.db.sessions| && !SessionTerminal(a.db.sessions[s].state)
    requires (target == Completed && code == None) || (target == Cancelled && code == Some(AgentCancelled))
             || (target == Expired && code == Some(SessionExpired))
    ensures Inv(NoteEnd(a, CloseTx(a.db, s, target, code, at), s))
    ensures NoteEnd(a, CloseTx(a.db, s, target, code, at), s).jobs == a.jobs
  {
    Unfold(a.db, a.jobs, a.journal);
    var db' := CloseTx(a.db, s, target, code, at);
    CloseTables(a.db, s, target, code, at);
    assert SessionOk(a.db.sessions[s]);
    EndMoment(a.db, db', a.jobs, a.journal, s);
  }

  lemma ExpireInv(a: System, s: SessionId, at: Time)
    requires Inv(a) && s < |a.db.sessions|
    ensures Inv(NoteEnd(a, ExpireTx(a.db, s, at), s))
    ensures NoteEnd(a, ExpireTx(a.db, s, at), s).jobs == a.jobs
  {
    if !SessionTerminal(a.db.sessions[s].state) {
      CloseInv(a, s, Expired, Some(SessionExpired), at);
    }
  }

  lemma EndSessionInv(a: System, s: SessionId, target: SessionState, at: Time)
    requires Inv(a) && Enabled(a, EndSession(s, target, at))
    ensures Inv(Apply(a, EndSession(s, target, at)))
  {
    if !SessionTerminal(a.db.sessions[s].state) {
      CloseInv(a, s, target, if target == Cancelled then Some(AgentCancelled) else None, at);
    }
  }

  lemma ExpireAfterTimeoutInv(a: System, id: JobId, at: Time)
    requires Inv(a) && Enabled(a, ExpireAfterTimeout(id, at))
    ensures Inv(Apply(a, ExpireAfterTimeout(id, at)))
  {
    var s := a.jobs[id].session;
    ExpireInv(a, s, at);
    GiveUpInv(NoteEnd(a, ExpireTx(a.db, s, at), s), id, Failing(SessionExpired, true, None));
  }

  // ----- a turn begins --------------------------------------------------------------------------

  lemma OpenedWork(db: Db, db': Db, jobs: map<JobId, Job>, id: JobId, j: Job)
    requires WorkInv(db, jobs) && PermitPart(db.turns, db.modelPermits, db.toolPermits, db.toolRows) && id !in jobs
    requires |db'.turns| == |db.turns| + 1 && db'.turns[..|db.turns|] == db.turns
    requires db'.modelPermits == db.modelPermits && db'.toolPermits == db.toolPermits && db'.toolRows == db.toolRows
    requires j.turn == |db.turns| && j.stage == Prepared && JobOk(db'.turns, j)
    ensures WorkInv(db', jobs[id := j])
  {
    NoRows(db.toolRows, |db.turns|);
    assert StageOk(j, db'.modelPermits, db'.toolPermits, db'.toolRows);
    forall y | y in jobs ensures JobOk(db'.turns, jobs[y]) && jobs[y].turn != j.turn {
      assert JobOk(db.turns, jobs[y]);
      assert db'.turns[jobs[y].turn] == db.turns[jobs[y].turn];
    }
  }

  lemma OpenedJournal(db: Db, db': Db, jobs: map<JobId, Job>, h: seq<Moment>, id: JobId, j: Job)
    requires JournalInv(db, jobs, h) && PermitPart(db.turns, db.modelPermits, db.toolPermits, db.toolRows)
    requires |db'.turns| == |db.turns| + 1 && db'.turns[..|db.turns|] == db.turns
    requires db'.modelPermits == db.modelPermits && db'.toolPermits == db.toolPermits
    requires |db'.sessions| == |db.sessions|
    requires forall s | 0 <= s < |db.sessions| :: db'.sessions[s].state == db.sessions[s].state
    requires j.stage == Prepared
    ensures JournalInv(db', jobs[id := j], h)
  {
    assert forall t | 0 <= t < |db.turns| :: db'.turns[t] == db.turns[t];
    assert ModelGrantsOk(db'.turns, db'.modelPermits, h);
    assert ToolGrantsOk(db'.turns, db'.toolPermits, h);
    assert AnswersOk(db'.turns, h);
    assert ErrorsOk(db'.turns, h);
    assert EndsOk(db'.sessions, h);
  }

  lemma OpenedInv(a: System, id: JobId, s: SessionId, request: Request, owner: nat, at: Time)
    requires Inv(a) && id !in a.jobs
    requires OpenDecision(a.db, s, request, at, a.config.maxSession).Opened?
    ensures Inv(SubmitStep(a, id, s, request, owner, at))
  {
    Unfold(a.db, a.jobs, a.journal);
    var db' := OpenTx(a.db, s, request, owner, at, a.config.maxSession);
    var t := |a.db.turns|;
    var j := Job(s, t, owner, request, Prepared);
    OpenedFacts(a.db, s, request, at, a.config.maxSession);
    OpenTables(a.db, s, request, owner, at, a.config.maxSession);
    assert db'.turns[..t] == a.db.turns;
    OpenedWork(a.db, db', a.jobs, id, j);
    OpenedJournal(a.db, db', a.jobs, a.journal, id, j);
    assert SubmitStep(a, id, s, request, owner, at) == a.(db := db', jobs := a.jobs[id := j]);
  }

  lemma ReplayInv(a: System, id: JobId, s: SessionId, request: Request, owner: nat, at: Time)
    requires Inv(a) && OpenDecision(a.db, s, request, at, a.config.maxSession).Replay?
    ensures Inv(SubmitStep(a, id, s, request, owner, at))
  {
    Unfold(a.db, a.jobs, a.journal);
    FindKeySpec(a.db.turns, s, request.key.value);
    var t := OpenDecision(a.db, s, request, at, a.config.maxSession).turn;
    assert TurnOk(a.db.turns[t]);
    PlainMoment(a.db, a.jobs, a.journal, Answered(s, request, ResponseFromTurn(t, a.db.turns[t])));
  }

  lemma SubmitInv(a: System, id: JobId, s: SessionId, request: Request, owner: nat, at: Time)
    requires Inv(a) && Enabled(a, Submit(id, s, request, owner, at))
    ensures Inv(Apply(a, Submit(id, s, request, owner, at)))
  {
    match OpenDecision(a.db, s, request, at, a.config.maxSession)
    case Opened(_) => OpenedInv(a, id, s, request, owner, at);
    case Replay(_) => ReplayInv(a, id, s, request, owner, at);
    case LifetimeOver => ExpireInv(a, s, at);
    case _ =>
      assert SubmitStep(a, id, s, request, owner, at) == a;
  }

  // ----- a turn ends ----------------------------------------------------------------------------

  lemma EndedWork(db: Db, db': Db, jobs: map<JobId, Job>, id: JobId, row: TurnRow)
    requires WorkInv(db, jobs) && id in jobs && jobs[id].turn < |db.turns|
    requires db'.turns == db.turns[jobs[id].turn := row]
    requires db'.modelPermits == db.modelPermits && db'.toolPermits == db.toolPermits && db'.toolRows == db.toolRows
    ensures WorkInv(db', jobs - {id})
  {
    forall y | y in jobs - {id} ensures JobOk(db'.turns, jobs[y]) {
      assert JobOk(db.turns, jobs[y]) && jobs[y].turn != jobs[id].turn;
    }
  }

  /** The journal after a turn and possibly its live session have moved and the job is gone. */
  lemma EndedJournal(db: Db, db': Db, jobs: map<JobId, Job>, h: seq<Moment>, id: JobId, t: TurnId, row: TurnRow)
    requires JournalInv(db, jobs, h) && t < |db.turns| && Ends(db.turns[t], row)
    requires db'.turns == db.turns[t := row] && |db'.sessions| == |db.sessions|
    requires forall s | 0 <= s < |db.sessions| ::
      SessionTerminal(db'.sessions[s].state) <==> SessionTerminal(db.sessions[s].state)
    requires db'.modelPermits == db.modelPermits && db'.toolPermits == db.toolPermits
    ensures JournalInv(db', jobs - {id}, h)
  {
    JobsMove(db, jobs, jobs - {id}, h);
    var db1 := db.(turns := db'.turns);
    TurnMoves(db, db1, jobs - {id}, h, t, row);
    SessionsMove(db1, db', jobs - {id}, h);
  }

  /** The tables part, folded. */
  ghost predicate Tables(db: Db) {
    forall n: nat :: Peek(n) ==> TablesInv(db)
  }

  lemma EndedAll(db: Db, db': Db, jobs: map<JobId, Job>, h: seq<Moment>, id: JobId, row: TurnRow)
    requires AllInv(db, jobs, h) && Tables(db') && id in jobs && jobs[id].turn < |db.turns|
    requires Ends(db.turns[jobs[id].turn], row) && db'.turns == db.turns[jobs[id].turn := row]
    requires |db'.sessions| == |db.sessions|
    requires forall s | 0 <= s < |db.sessions| ::
      SessionTerminal(db'.sessions[s].state) <==> SessionTerminal(db.sessions[s].state)
    requires db'.modelPermits == db.modelPermits && db'.toolPermits == db.toolPermits && db'.toolRows == db.toolRows
    ensures AllInv(db', jobs - {id}, h)
  {
    Unfold(db, jobs, h);
    assert Peek(0);
    EndedWork(db, db', jobs, id, row);
    EndedJournal(db, db', jobs, h, id, jobs[id].turn, row);
  }

  lemma PlainAll(db: Db, jobs: map<JobId, Job>, h: seq<Moment>, m: Moment)
    requires AllInv(db, jobs, h) && Plain(m)
    requires AnswersOk(db.turns, [m]) && ErrorsOk(db.turns, [m])
    ensures AllInv(db, jobs, h + [m])
  {
    Unfold(db, jobs, h);
    PlainMoment(db, jobs, h, m);
  }

  lemma StaleFact(a: System, id: JobId)
    requires Inv(a) && id in a.jobs && a.jobs[id].stage.Failing? && a.jobs[id].stage.stale.Some?
    ensures a.jobs[id].stage.cancelled && a.jobs[id].stage.code == RaisedFor(a.jobs[id].stage.stale.value)
  {
    Unfold(a.db, a.jobs, a.journal);
    assert StageOk(a.jobs[id], a.db.modelPermits, a.db.toolPermits, a.db.toolRows);
  }

  lemma FailKeepsTables(a: System, id: JobId, at: Time)
    requires Inv(a) && Enabled(a, Fail(id, at)) && JobOk(a.db.turns, a.jobs[id])
    ensures var j := a.jobs[id]; Tables(FailTx(a.db, j.session, j.turn, j.stage.code, j.stage.cancelled, at))
  {
    Unfold(a.db, a.jobs, a.journal);
    var j := a.jobs[id];
    FailTables(a.db, j.session, j.turn, j.stage.code, j.stage.cancelled, at);
  }

  lemma FailInv(a: System, id: JobId, at: Time)
    requires Inv(a) && Enabled(a, Fail(id, at))
    ensures Inv(FailStep(a, id, at))
  {
    var j := a.jobs[id];
    var db' := FailTx(a.db, j.session, j.turn, j.stage.code, j.stage.cancelled, at);
    RowFacts(a, id);
    FailKeepsTables(a, id, at);
    EndedAll(a.db, db', a.jobs, a.journal, id, db'.turns[j.turn]);
    if j.stage.stale.Some? { StaleFact(a, id); }
    PlainAll(db', a.jobs - {id}, a.journal, Errored(j.turn, RaisedBy(j.stage), j.stage.stale.Some?));
  }

  /** A loop that returned holds exactly the permits and rows of its outcome. */
  lemma ReturnedComplete(db: Db, j: Job)
    requires j.stage.Looping? && j.stage.loop.phase.Returned?
    requires StageOk(j, db.modelPermits, db.toolPermits, db.toolRows)
    ensures Complete(db, j.turn, j.stage.loop.phase.outcome)
  {
    var l := j.stage.loop;
    var blocks := TurnLoopProofs.Earlier(l.work);
    assert Peek(0);
    TurnLoopProofs.FirstsProperties(KeysOfCalls(Flatten(blocks)[..|Flatten(blocks)|]));
  }

  lemma CompletionKeepsTables(a: System, id: JobId, at: Time)
    requires Inv(a) && Enabled(a, Finish(id, at)) && JobOk(a.db.turns, a.jobs[id])
    requires StageOk(a.jobs[id], a.db.modelPermits, a.db.toolPermits, a.db.toolRows)
    requires !SessionTerminal(a.db.sessions[a.jobs[id].session].state)
    ensures var j, o := a.jobs[id], LoopOf(a, id).phase.outcome;
      Tables(FinishTx(a.db, j.session, j.turn, o, CorrelationOf(a, id), a.config.maxOutputChars, at))
  {
    Unfold(a.db, a.jobs, a.journal);
    var j := a.jobs[id];
    ReturnedComplete(a.db, j);
    CompleteTables(a.db, j.session, j.turn, LoopOf(a, id).phase.outcome, CorrelationOf(a, id),
      a.config.maxOutputChars, at);
  }

  lemma CompletedInv(a: System, id: JobId, at: Time)
    requires Inv(a) && Enabled(a, Finish(id, at)) && !SessionTerminal(a.db.sessions[a.jobs[id].session].state)
    ensures Inv(FinishStep(a, id, at))
  {
    var j, o := a.jobs[id], LoopOf(a, id).phase.outcome;
    var c, chars := CorrelationOf(a, id), a.config.maxOutputChars;
    var db' := FinishTx(a.db, j.session, j.turn, o, c, chars, at);
    var row := CompletedRow(a.db.turns[j.turn], o, c, chars, at);
    JobFacts(a, id);
    CompletionKeepsTables(a, id, at);
    EndedAll(a.db, db', a.jobs, a.journal, id, row);
    var response := FinishResponse(j.session, j.turn, row, o, c, chars);
    assert response == ResponseFromTurn(j.turn, row);
    PlainAll(db', a.jobs - {id}, a.journal, Answered(j.session, j.request, response));
  }

  lemma DiscardKeepsTables(a: System, id: JobId, at: Time)
    requires Inv(a) && Enabled(a, Finish(id, at)) && JobOk(a.db.turns, a.jobs[id])
    requires SessionTerminal(a.db.sessions[a.jobs[id].session].state)
    ensures var j, o := a.jobs[id], LoopOf(a, id).phase.outcome;
      Tables(FinishTx(a.db, j.session, j.turn, o, CorrelationOf(a, id), a.config.maxOutputChars, at))
  {
    Unfold(a.db, a.jobs, a.journal);
    DiscardTables(a.db, a.jobs[id].session, a.jobs[id].turn, at);
  }

  lemma DiscardedAll(db: Db, db': Db, jobs: map<JobId, Job>, h: seq<Moment>, id: JobId, row: TurnRow, m: Moment)
    requires AllInv(db, jobs, h) && Tables(db') && id in jobs && jobs[id].turn < |db.turns|
    requires Ends(db.turns[jobs[id].turn], row)
    requires db' == db.(turns := db.turns[jobs[id].turn := row], outbox := db'.outbox)
    requires Plain(m) && AnswersOk(db'.turns, [m]) && ErrorsOk(db'.turns, [m])
    ensures AllInv(db', jobs - {id}, h + [m])
  {
    EndedAll(db, db', jobs, h, id, row);
    PlainAll(db', jobs - {id}, h, m);
  }

  lemma DiscardedInv(a: System, id: JobId, at: Time)
    requires Inv(a) && Enabled(a, Finish(id, at)) && SessionTerminal(a.db.sessions[a.jobs[id].session].state)
    ensures Inv(FinishStep(a, id, at))
  {
    var j, o := a.jobs[id], LoopOf(a, id).phase.outcome;
    var srow := a.db.sessions[j.session];
    var db' := FinishTx(a.db, j.session, j.turn, o, CorrelationOf(a, id), a.config.maxOutputChars, at);
    RowFacts(a, id);
    DiscardKeepsTables(a, id, at);
    DiscardedAll(a.db, db', a.jobs, a.journal, id, EndedRow(a.db.turns[j.turn], TurnCancelled, StaleCode(srow), at),
                 Errored(j.turn, RaisedFor(srow.state), true));
  }

  // ----- all steps --------------------------------------------------------------------------------

  lemma InitInv(a: System)
    requires Init(a)
    ensures Inv(a)
  {
    assert forall k: Kind, t: TurnId :: Logged([], k, t) == 0;
  }

  predicate LoopLabel(l: Label) {
    l.AskModel? || l.CallModel? || l.HearModel? || l.AskTool? || l.CallTool? || l.HearTool? || l.NoteTool?
  }

  lemma LoopStepInv(a: System, l: Label)
    requires Inv(a) && Enabled(a, l) && LoopLabel(l)
    ensures Inv(Apply(a, l))
  {
    match l
    case AskModel(id) => AskModelInv(a, id);
    case CallModel(id) => CallModelInv(a, id);
    case HearModel(id, response) => HearModelInv(a, id, response);
    case AskTool(id) => AskToolInv(a, id);
    case CallTool(id) => CallToolInv(a, id);
    case HearTool(id, allowed, ok, payload) => HearToolInv(a, id, allowed, ok, payload);
    case NoteTool(id) => NoteToolInv(a, id);
  }

  predicate GiveUpLabel(l: Label) {
    l.Break? || l.TimeOut? || l.Interrupt? || l.Escape? || l.Crash?
  }

  lemma EscapeInv(a: System, id: JobId, raised: Option<Code>)
    requires Inv(a) && Enabled(a, Escape(id, raised))
    ensures Inv(Apply(a, Escape(id, raised)))
  {
    DropAll(a.db, a.jobs, a.journal, id);
    PlainAll(a.db, a.jobs - {id}, a.journal, Unrecorded(a.jobs[id].turn, raised));
  }

  lemma GiveUpStepInv(a: System, l: Label)
    requires Inv(a) && Enabled(a, l) && GiveUpLabel(l)
    ensures Inv(Apply(a, l))
  {
    match l
    case Break(id, code) => GiveUpInv(a, id, Failing(code, false, None));
    case TimeOut(id, at) =>
      GiveUpInv(a, id, Expiring);
      GiveUpInv(a, id, Failing(TurnTimeout, false, None));
    case Interrupt(id) => GiveUpInv(a, id, Failing(AgentCancelled, true, None));
    case Escape(id, raised) => EscapeInv(a, id, raised);
    case Crash(id) => DropInv(a, id);
  }

  lemma StepInv(a: System, l: Label)
    requires Inv(a) && Enabled(a, l)
    ensures Inv(Apply(a, l))
  {
    match l
    case StartSession(correlation, at) => StartSessionInv(a, correlation, at);
    case Submit(id, s, request, owner, at) => SubmitInv(a, id, s, request, owner, at);
    case Prepare(id, limits, prompt) => PrepareInv(a, id, limits, prompt);
    case ExpireAfterTimeout(id, at) => ExpireAfterTimeoutInv(a, id, at);
    case Fail(id, at) => FailInv(a, id, at);
    case Finish(id, at) =>
      if SessionTerminal(a.db.sessions[a.jobs[id].session].state) {
        DiscardedInv(a, id, at);
      } else {
        CompletedInv(a, id, at);
      }
    case EndSession(s, target, at) => EndSessionInv(a, s, target, at);
    case _ =>
      if LoopLabel(l) { LoopStepInv(a, l); } else { GiveUpStepInv(a, l); }
  }
}
