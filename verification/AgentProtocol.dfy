/**
  The multi-worker agent protocol: any number of `submit_turn` calls, running on any number of
  workers, interleaved with stop, cancel and expiry, over one database. A `Job` is one call between
  its claim of a turn and its end. `journal` lists, in global order, the moments the safety
  properties talk about.
*/
module AgentProtocol {
  import opened Prelude
  import opened TurnLoop
  import opened AgentDb

  type JobId = nat

  datatype Stage =
    | Prepared
    | Looping(limits: Limits, prompt: seq<Message>, loop: Loop)
    | Expiring
    | Failing(code: Code, cancelled: bool, stale: Option<SessionState>)

  datatype Job = Job(session: SessionId, turn: TurnId, owner: nat, request: Request, stage: Stage)

  datatype Moment =
    | SessionEnded(session: SessionId)
    | ModelGranted(session: SessionId, turn: TurnId, iteration: nat, owner: nat)
    | ModelDispatched(session: SessionId, turn: TurnId, iteration: nat, owner: nat)
    | ToolGranted(session: SessionId, turn: TurnId, key: Key, owner: nat)
    | ToolDispatched(session: SessionId, turn: TurnId, key: Key, owner: nat)
    | Answered(session: SessionId, request: Request, response: AgentResponse)
    | Errored(turn: TurnId, raised: Code, stale: bool)    // raised, and recorded in the same step
    | Unrecorded(turn: TurnId, error: Option<Code>)       // raised and not recorded; other exceptions have no code

  datatype Config = Config(maxSession: Time, maxOutputChars: nat)

  datatype System = System(config: Config, db: Db, jobs: map<JobId, Job>, journal: seq<Moment>)

  datatype Label =
    | StartSession(correlation: Option<string>, at: Time)
    | Submit(id: JobId, session: SessionId, request: Request, owner: nat, at: Time)
    | Prepare(id: JobId, limits: Limits, prompt: seq<Message>)
    | AskModel(id: JobId)
    | CallModel(id: JobId)
    | HearModel(id: JobId, response: Response)
    | AskTool(id: JobId)
    | CallTool(id: JobId)
    | HearTool(id: JobId, allowed: bool, ok: bool, payload: string)
    | NoteTool(id: JobId)
    | Break(id: JobId, code: Code)
    | TimeOut(id: JobId, at: Time)
    | Interrupt(id: JobId)
    | ExpireAfterTimeout(id: JobId, at: Time)
    | Fail(id: JobId, at: Time)
    | Escape(id: JobId, raised: Option<Code>)
    | Finish(id: JobId, at: Time)
    | EndSession(session: SessionId, target: SessionState, at: Time)
    | Crash(id: JobId)

  ghost predicate Init(a: System) {
    a.db == EmptyDb && a.jobs == map[] && a.journal == []
  }

  predicate InLoop(a: System, id: JobId) {
    id in a.jobs && a.jobs[id].stage.Looping?
  }

  /** The task of the turn is preparing the loop or in it. */
  predicate Working(a: System, id: JobId) {
    id in a.jobs && (a.jobs[id].stage == Prepared || InLoop(a, id))
  }

  predicate LoopAt(a: System, id: JobId, phase: Phase) {
    InLoop(a, id) && a.jobs[id].stage.loop.phase == phase
  }

  function LoopOf(a: System, id: JobId): Loop
    requires InLoop(a, id)
  {
    a.jobs[id].stage.loop
  }

  /** The code of the error the caller gets: of the ended session's state when that is why the turn
      failed, else the code being recorded. A bare task cancellation counts as the cancelled code. */
  function RaisedBy(stage: Stage): Code
    requires stage.Failing?
  {
    if stage.stale.Some? then RaisedFor(stage.stale.value) else stage.code
  }

  /** What can reach the caller with nothing recorded: any error before the loop, while the session expires
      or while the turn is finished; from the loop, only exceptions that have no code; and the error of a
      turn whose failure could not be recorded. */
  predicate Escapes(stage: Stage, raised: Option<Code>) {
    match stage
    case Prepared => true
    case Looping(_, _, l) => l.phase.Returned? || (!l.phase.Raised? && raised == None)
    case Expiring => true
    case Failing(_, _, _) => raised == Some(RaisedBy(stage))
  }

  predicate Enabled(a: System, l: Label) {
    match l
    case StartSession(_, _) => true
    case Submit(id, _, _, _, _) => id !in a.jobs
    case Prepare(id, limits, _) => id in a.jobs && a.jobs[id].stage == Prepared && 0 <= limits.maxIterations
    case AskModel(id) => LoopAt(a, id, NeedModelPermit)
    case CallModel(id) => LoopAt(a, id, ModelPermitted)
    case HearModel(id, _) => LoopAt(a, id, AwaitModel)
    case AskTool(id) => LoopAt(a, id, NeedToolPermit) && LoopOf(a, id).work.pending != []
    case CallTool(id) => LoopAt(a, id, ToolPermitted) && LoopOf(a, id).work.pending != []
    case HearTool(id, _, _, _) => LoopAt(a, id, AwaitTool) && LoopOf(a, id).work.pending != []
    case NoteTool(id) =>
      LoopAt(a, id, NeedRecord) && LoopOf(a, id).work.pending != [] && LoopOf(a, id).work.outcomes != []
    case Break(id, code) =>
      && Working(a, id)
      && (InLoop(a, id) ==>
            && !LoopOf(a, id).phase.Returned?
            && (LoopOf(a, id).phase.Raised? ==> code == CodeOf(LoopOf(a, id).phase.fault)))
    case TimeOut(id, _) => Working(a, id)
    case Interrupt(id) => Working(a, id)
    case ExpireAfterTimeout(id, _) => id in a.jobs && a.jobs[id].stage == Expiring
      && a.jobs[id].session < |a.db.sessions|
    case Fail(id, _) => id in a.jobs && a.jobs[id].stage.Failing?
    case Escape(id, raised) => id in a.jobs && Escapes(a.jobs[id].stage, raised)
    case Finish(id, _) =>
      && InLoop(a, id) && LoopOf(a, id).phase.Returned?
      && a.jobs[id].session < |a.db.sessions| && a.jobs[id].turn < |a.db.turns|
    case EndSession(s, target, _) => s < |a.db.sessions| && (target == Completed || target == Cancelled)
    case Crash(id) => id in a.jobs
  }

  function SetStage(a: System, id: JobId, stage: Stage): System
    requires id in a.jobs
  {
    a.(jobs := a.jobs[id := a.jobs[id].(stage := stage)])
  }

  function SetLoop(a: System, id: JobId, loop: Loop): System
    requires InLoop(a, id)
  {
    SetStage(a, id, a.jobs[id].stage.(loop := loop))
  }

  function Log(a: System, m: Moment): System {
    a.(journal := a.journal + [m])
  }

  /** The moment a commit ends a session, when it does. */
  function NoteEnd(a: System, db: Db, s: SessionId): System {
    var b := a.(db := db);
    if s < |a.db.sessions| && s < |db.sessions| && !SessionTerminal(a.db.sessions[s].state)
      && SessionTerminal(db.sessions[s].state)
    then Log(b, SessionEnded(s)) else b
  }

  function Drop(a: System, id: JobId): System {
    a.(jobs := a.jobs - {id})
  }

  /** A refused permit: the code and cancellation flag `submit_turn` passes on. */
  function Refusal(auth: Authorization): Stage {
    match auth
    case Revoked(row) => Failing(StaleCode(row), true, Some(row.state))
    case _ => Failing(InvalidState, false, None)
  }

  function CorrelationOf(a: System, id: JobId): Option<string>
    requires id in a.jobs && a.jobs[id].session < |a.db.sessions|
  {
    Correlation(a.jobs[id].request, a.db.sessions[a.jobs[id].session])
  }

  function SubmitStep(a: System, id: JobId, s: SessionId, request: Request, owner: nat, at: Time): System {
    var decision := OpenDecision(a.db, s, request, at, a.config.maxSession);
    var b := NoteEnd(a, OpenTx(a.db, s, request, owner, at, a.config.maxSession), s);
    match decision
    case Opened(t) => b.(jobs := b.jobs[id := Job(s, t, owner, request, Prepared)])
    case Replay(t) => if t < |a.db.turns| then Log(b, Answered(s, request, ResponseFromTurn(t, a.db.turns[t]))) else b
    case _ => b
  }

  function AskModelStep(a: System, id: JobId): System
    requires LoopAt(a, id, NeedModelPermit)
  {
    var j, i := a.jobs[id], LoopOf(a, id).work.iteration;
    var auth := AuthorizeModel(a.db, j.session, j.turn, j.owner, i);
    if auth == Permitted then
      Log(SetLoop(a.(db := ModelPermitTx(a.db, j.session, j.turn, j.owner, i)), id, GrantModel(LoopOf(a, id))),
          ModelGranted(j.session, j.turn, i, j.owner))
    else SetStage(a, id, Refusal(auth))
  }

  function AskToolStep(a: System, id: JobId): System
    requires LoopAt(a, id, NeedToolPermit) && LoopOf(a, id).work.pending != []
  {
    var j, l := a.jobs[id], LoopOf(a, id);
    var k := l.work.pending[0].Semantic();
    var auth := AuthorizeTool(a.db, j.session, j.turn, j.owner, k);
    if auth == Permitted then
      Log(SetLoop(a.(db := ToolPermitTx(a.db, j.session, j.turn, j.owner, k, l.requested)), id, GrantTool(l)),
          ToolGranted(j.session, j.turn, k, j.owner))
    else SetStage(a, id, Refusal(auth))
  }

  function FinishStep(a: System, id: JobId, at: Time): System
    requires Enabled(a, Finish(id, at))
  {
    var j, o := a.jobs[id], LoopOf(a, id).phase.outcome;
    var chars := a.config.maxOutputChars;
    var b := Drop(a.(db := FinishTx(a.db, j.session, j.turn, o, CorrelationOf(a, id), chars, at)), id);
    match FinishOutcome(a.db, j.session, j.turn, o, CorrelationOf(a, id), chars, at)
    case Delivered(response) => Log(b, Answered(j.session, j.request, response))
    case Stale(state) => Log(b, Errored(j.turn, RaisedFor(state), true))
  }

  function FailStep(a: System, id: JobId, at: Time): System
    requires Enabled(a, Fail(id, at))
  {
    var j := a.jobs[id];
    var b := Drop(a.(db := FailTx(a.db, j.session, j.turn, j.stage.code, j.stage.cancelled, at)), id);
    Log(b, Errored(j.turn, RaisedBy(j.stage), j.stage.stale.Some?))
  }

  function Apply(a: System, l: Label): System
    requires Enabled(a, l)
  {
    match l
    case StartSession(correlation, at) => a.(db := StartTx(a.db, correlation, at))
    case Submit(id, s, request, owner, at) => SubmitStep(a, id, s, request, owner, at)
    case Prepare(id, limits, prompt) => SetStage(a, id, Looping(limits, prompt, Start(limits, prompt)))
    case AskModel(id) => AskModelStep(a, id)
    case CallModel(id) =>
      var j := a.jobs[id];
      Log(SetLoop(a, id, SendModel(LoopOf(a, id))),
          ModelDispatched(j.session, j.turn, LoopOf(a, id).work.iteration, j.owner))
    case HearModel(id, response) => SetLoop(a, id, ReceiveModel(a.jobs[id].stage.limits, LoopOf(a, id), response))
    case AskTool(id) => AskToolStep(a, id)
    case CallTool(id) =>
      var j := a.jobs[id];
      Log(SetLoop(a, id, SendTool(LoopOf(a, id))),
          ToolDispatched(j.session, j.turn, LoopOf(a, id).work.pending[0].Semantic(), j.owner))
    case HearTool(id, allowed, ok, payload) => SetLoop(a, id, ReceiveTool(LoopOf(a, id), allowed, ok, payload))
    case NoteTool(id) =>
      var j, w := a.jobs[id], LoopOf(a, id).work;
      SetLoop(a.(db := RecordToolTx(a.db, j.session, j.turn, w.outcomes[|w.outcomes| - 1], w.iteration, |w.outcomes|)),
              id, Recorded(j.stage.limits, LoopOf(a, id)))
    case Break(id, code) => SetStage(a, id, Failing(code, false, None))
    case TimeOut(id, at) =>
      var s := a.jobs[id].session;
      SetStage(a, id, if s < |a.db.sessions| && a.db.sessions[s].startedAt + a.config.maxSession - at <= 0
                      then Expiring else Failing(TurnTimeout, false, None))
    case Interrupt(id) => SetStage(a, id, Failing(AgentCancelled, true, None))
    case ExpireAfterTimeout(id, at) =>
      var s := a.jobs[id].session;
      SetStage(NoteEnd(a, ExpireTx(a.db, s, at), s), id, Failing(SessionExpired, true, None))
    case Fail(id, at) => FailStep(a, id, at)
    case Escape(id, raised) => Log(Drop(a, id), Unrecorded(a.jobs[id].turn, raised))
    case Finish(id, at) => FinishStep(a, id, at)
    case EndSession(s, target, at) =>
      NoteEnd(a, TerminalizeTx(a.db, s, target, if target == Cancelled then Some(AgentCancelled) else None, at), s)
    case Crash(id) => Drop(a, id)
  }

  ghost predicate Next(a: System, b: System) {
    forall n: nat :: Peek(n) ==> exists l :: Enabled(a, l) && b == Apply(a, l)
  }

  /** The step that leads to position `i` of a run. */
  ghost predicate StepTo(run: seq<System>, i: nat) {
    0 < i < |run| ==> Next(run[i - 1], run[i])
  }

  /** A run: any interleaving of enabled steps from an empty database. */
  ghost predicate IsRun(run: seq<System>) {
    && run != []
    && Init(run[0])
    && forall i: nat :: StepTo(run, i)
  }
}
