/** What every reachable state of the agent protocol satisfies, table by table. */
module AgentInvariant {
  import opened Prelude
  import opened TurnLoop
  import TurnLoopProofs
  import opened AgentDb
  import opened AgentProtocol

  // ----- sessions -----------------------------------------------------------------------

  /** A session is live or ended in one of three ways, each with its own stored code. */
  predicate SessionOk(r: SessionRow) {
    && r.rank == Rank(r.state)
    && match r.state
       case Active => r.errorCode == None && r.disposition == None && r.endedAt == None
       case Completed => r.errorCode == None && r.disposition == Some(Completed) && r.endedAt.Some?
       case Cancelled => r.errorCode == Some(AgentCancelled) && r.disposition == Some(Cancelled) && r.endedAt.Some?
       case Expired => r.errorCode == Some(SessionExpired) && r.disposition == Some(Expired) && r.endedAt.Some?
       case _ => false
  }

  predicate SessionsOk(sessions: seq<SessionRow>) {
    forall s | 0 <= s < |sessions| :: SessionOk(sessions[s])
  }

  predicate UsageOk(sessions: seq<SessionRow>, usage: map<SessionId, Usage>) {
    forall s | 0 <= s < |sessions| && SessionTerminal(sessions[s].state) ::
      s in usage && usage[s] == UsageOf(sessions[s])
  }

  // ----- turns --------------------------------------------------------------------------

  /** How many turns belong to a session. */
  function CountOf(turns: seq<TurnRow>, s: SessionId): nat {
    if turns == [] then 0
    else CountOf(turns[..|turns| - 1], s) + if turns[|turns| - 1].session == s then 1 else 0
  }

  /** A turn's sequence number is its rank among its session's turns in commit order. */
  predicate RankOk(sessions: seq<SessionRow>, turns: seq<TurnRow>) {
    && (forall t | 0 <= t < |turns| ::
          turns[t].session < |sessions| && turns[t].sequence == CountOf(turns[..t], turns[t].session) + 1)
    && (forall s | 0 <= s < |sessions| :: sessions[s].turnCount == CountOf(turns, s))
  }

  predicate OneActive(turns: seq<TurnRow>) {
    forall t, u | 0 <= t < |turns| && 0 <= u < |turns| && turns[t].session == turns[u].session
                  && !TurnTerminal(turns[t].state) && !TurnTerminal(turns[u].state) :: t == u
  }

  predicate KeysUnique(turns: seq<TurnRow>) {
    forall t, u | 0 <= t < |turns| && 0 <= u < |turns| && turns[t].session == turns[u].session
                  && turns[t].key.Some? && turns[t].key == turns[u].key :: t == u
  }

  predicate TurnOk(r: TurnRow) {
    && r.fingerprint == Fingerprint(r.session, r.input)
    && match r.state
       case Running => r.errorCode == None && r.response == None && r.latency == None
       case TurnCompleted => r.errorCode == None && r.response.Some? && r.finish.Some? && r.latency.Some?
       case TurnFailed => r.errorCode.Some? && r.response == None
       case TurnCancelled => r.errorCode.Some? && r.response == None
       case _ => false
  }

  predicate TurnsOk(turns: seq<TurnRow>) {
    forall t | 0 <= t < |turns| :: TurnOk(turns[t])
  }

  datatype Tally = Tally(inputTokens: nat, outputTokens: nat, toolCalls: nat)

  function Add(a: Tally, b: Tally): Tally {
    Tally(a.inputTokens + b.inputTokens, a.outputTokens + b.outputTokens, a.toolCalls + b.toolCalls)
  }

  /** What a turn contributes to its session's counters: its own figures once completed. */
  function Share(r: TurnRow, s: SessionId): Tally {
    if r.session == s && r.state == TurnCompleted then Tally(r.inputTokens, r.outputTokens, r.toolCallCount)
    else Tally(0, 0, 0)
  }

  function Sum(turns: seq<TurnRow>, s: SessionId): Tally {
    if turns == [] then Tally(0, 0, 0)
    else Add(Sum(turns[..|turns| - 1], s), Share(turns[|turns| - 1], s))
  }

  function Counters(r: SessionRow): Tally {
    Tally(r.inputTokens, r.outputTokens, r.toolCallCount)
  }

  predicate SumsOk(sessions: seq<SessionRow>, turns: seq<TurnRow>) {
    forall s | 0 <= s < |sessions| :: Counters(sessions[s]) == Sum(turns, s)
  }

  // ----- events -------------------------------------------------------------------------

  datatype Kind = Started | Terminal | Ready

  predicate Matches(e: Event, k: Kind, t: TurnId) {
    match k
    case Started => e == TurnStarted(t)
    case Terminal => e == TurnCompletedEvent(t) || (e.TurnFailedEvent? && e.turn == t)
    case Ready => e == ResponseReady(t)
  }

  function Logged(outbox: seq<Event>, k: Kind, t: TurnId): nat {
    if outbox == [] then 0
    else Logged(outbox[..|outbox| - 1], k, t) + if Matches(outbox[|outbox| - 1], k, t) then 1 else 0
  }

  function Expected(turns: seq<TurnRow>, k: Kind, t: TurnId): nat {
    if t >= |turns| then 0
    else match k
         case Started => 1
         case Terminal => if TurnTerminal(turns[t].state) then 1 else 0
         case Ready => if turns[t].state == TurnCompleted then 1 else 0
  }

  ghost predicate EventsOk(turns: seq<TurnRow>, outbox: seq<Event>) {
    forall k: Kind, t: TurnId :: Logged(outbox, k, t) == Expected(turns, k, t)
  }

  /** A failure event carries the code stored on the turn. */
  predicate FailureCodesOk(turns: seq<TurnRow>, outbox: seq<Event>) {
    forall i | 0 <= i < |outbox| && outbox[i].TurnFailedEvent? ::
      outbox[i].turn < |turns| && turns[outbox[i].turn].errorCode == Some(outbox[i].error)
  }

  // ----- permits and tool rows ------------------------------------------------------------

  /** The keys recorded for a turn, in order. */
  function RowKeys(rows: seq<ToolRow>, t: TurnId): seq<Key> {
    if rows == [] then []
    else RowKeys(rows[..|rows| - 1], t) + if rows[|rows| - 1].turn == t then [rows[|rows| - 1].key] else []
  }

  predicate Distinct(ks: seq<Key>) {
    forall i, j | 0 <= i < j < |ks| :: ks[i] != ks[j]
  }

  /** Permits and tool rows belong to existing turns and to those turns' own sessions. */
  predicate PermitsOk(turns: seq<TurnRow>, modelPermits: map<ModelSlot, SessionId>,
                      toolPermits: map<ToolSlot, ToolGrant>, toolRows: seq<ToolRow>) {
    && (forall slot | slot in modelPermits :: slot.turn < |turns| && modelPermits[slot] == turns[slot.turn].session)
    && (forall slot | slot in toolPermits ::
          slot.turn < |turns| && toolPermits[slot].session == turns[slot.turn].session)
    && (forall i | 0 <= i < |toolRows| :: toolRows[i].turn < |turns|
          && toolRows[i].session == turns[toolRows[i].turn].session)
  }

  /** The model permits of `t` are exactly the iterations below `n`. */
  ghost predicate ModelRange(modelPermits: map<ModelSlot, SessionId>, t: TurnId, n: nat) {
    forall i: nat :: ModelSlot(t, i) in modelPermits <==> i < n
  }

  /** The tool permits of `t` are exactly the keys `ks`, plus `extra`. */
  ghost predicate ToolRange(toolPermits: map<ToolSlot, ToolGrant>, t: TurnId, ks: seq<Key>, extra: Option<Key>) {
    forall k: Key :: ToolSlot(t, k) in toolPermits <==> (k in ks || extra == Some(k))
  }

  /** Of a completed turn: permits and rows match what it reports. */
  ghost predicate DoneOk(turns: seq<TurnRow>, modelPermits: map<ModelSlot, SessionId>,
                         toolPermits: map<ToolSlot, ToolGrant>, toolRows: seq<ToolRow>) {
    forall t | 0 <= t < |turns| && turns[t].state == TurnCompleted ::
      && ModelRange(modelPermits, t, turns[t].toolIterations + 1)
      && var ks := RowKeys(toolRows, t);
         && |ks| == turns[t].toolCallCount
         && Distinct(ks)
         && ToolRange(toolPermits, t, ks, None)
  }

  // ----- jobs ---------------------------------------------------------------------------

  /** A job works on an active turn of its own. */
  predicate JobOk(turns: seq<TurnRow>, j: Job) {
    && j.turn < |turns|
    && turns[j.turn].state == Running
    && turns[j.turn].session == j.session
    && turns[j.turn].owner == j.owner
    && turns[j.turn].input == j.request.content
    && turns[j.turn].key == j.request.key
  }

  predicate JobsOk(turns: seq<TurnRow>, jobs: map<JobId, Job>) {
    && (forall id | id in jobs :: JobOk(turns, jobs[id]))
    && (forall x, y | x in jobs && y in jobs && jobs[x].turn == jobs[y].turn :: x == y)
  }

  /** How many model permits a loop has obtained. */
  function Issued(l: Loop): nat {
    l.work.iteration +
    if l.phase.NeedModelPermit? then 0 else 1
  }

  function Extra(l: Loop): Option<Key> {
    if (l.phase.ToolPermitted? || l.phase.AwaitTool?) && l.work.pending != [] then Some(l.work.pending[0].Semantic())
    else None
  }

  function NotedKeys(l: Loop): seq<Key> {
    var n := |l.work.outcomes|;
    KeysOf(if l.phase.NeedRecord? && n > 0 then l.work.outcomes[..n - 1] else l.work.outcomes)
  }

  ghost predicate Holds(t: TurnId, l: Loop, modelPermits: map<ModelSlot, SessionId>,
                        toolPermits: map<ToolSlot, ToolGrant>, toolRows: seq<ToolRow>) {
    && ModelRange(modelPermits, t, Issued(l))
    && ToolRange(toolPermits, t, KeysOf(l.work.outcomes), Extra(l))
    && RowKeys(toolRows, t) == NotedKeys(l)
  }

  /** A running loop holds exactly the permits and rows its position says. */
  ghost predicate StageOk(j: Job, modelPermits: map<ModelSlot, SessionId>,
                          toolPermits: map<ToolSlot, ToolGrant>, toolRows: seq<ToolRow>) {
    match j.stage
    case Prepared =>
      && ModelRange(modelPermits, j.turn, 0) && ToolRange(toolPermits, j.turn, [], None)
      && RowKeys(toolRows, j.turn) == []
    case Looping(limits, prompt, l) =>
      && TurnLoopProofs.Inv(limits, prompt, l)
      && (l.phase.Raised? || Holds(j.turn, l, modelPermits, toolPermits, toolRows))
    case Expiring => true
    case Failing(code, cancelled, stale) =>
      stale.Some? ==>
        cancelled && SessionTerminal(stale.value) && stale.value != Failed && code == RaisedFor(stale.value)
  }

  ghost predicate StagesOk(jobs: map<JobId, Job>, modelPermits: map<ModelSlot, SessionId>,
                           toolPermits: map<ToolSlot, ToolGrant>, toolRows: seq<ToolRow>) {
    forall id | id in jobs :: StageOk(jobs[id], modelPermits, toolPermits, toolRows)
  }

  // ----- the journal ----------------------------------------------------------------------

  /** `m` may follow `h`: no permit after its session's end, no permit and no dispatch twice, no
      dispatch without its own permit before it. */
  ghost predicate MayFollow(h: seq<Moment>, m: Moment) {
    match m
    case SessionEnded(s) => m !in h
    case ModelGranted(s, t, i, o) => m !in h && SessionEnded(s) !in h
    case ToolGranted(s, t, k, o) => m !in h && SessionEnded(s) !in h
    case ModelDispatched(s, t, i, o) => m !in h && ModelGranted(s, t, i, o) in h
    case ToolDispatched(s, t, k, o) => m !in h && ToolGranted(s, t, k, o) in h
    case _ => true
  }

  ghost predicate Legal(h: seq<Moment>) {
    h == [] || (Legal(h[..|h| - 1]) && MayFollow(h[..|h| - 1], h[|h| - 1]))
  }

  ghost predicate EndsOk(sessions: seq<SessionRow>, h: seq<Moment>) {
    forall s: SessionId :: SessionEnded(s) in h <==> (s < |sessions| && SessionTerminal(sessions[s].state))
  }

  /** The permit tables and the journal agree, and a permit names its turn's own session and owner. */
  ghost predicate ModelGrantsOk(turns: seq<TurnRow>, modelPermits: map<ModelSlot, SessionId>, h: seq<Moment>) {
    forall s: SessionId, t: TurnId, i: nat, o: nat :: ModelGranted(s, t, i, o) in h <==>
      (ModelSlot(t, i) in modelPermits && t < |turns| && turns[t].session == s && turns[t].owner == o)
  }

  ghost predicate ToolGrantsOk(turns: seq<TurnRow>, toolPermits: map<ToolSlot, ToolGrant>, h: seq<Moment>) {
    forall s: SessionId, t: TurnId, k: Key, o: nat :: ToolGranted(s, t, k, o) in h <==>
      (ToolSlot(t, k) in toolPermits && t < |turns| && turns[t].session == s && turns[t].owner == o)
  }

  /** A dispatch has its permit in the journal, and a permitted call is not dispatched yet. */
  ghost predicate DispatchesOk(jobs: map<JobId, Job>, h: seq<Moment>) {
    && (forall s: SessionId, t: TurnId, i: nat, o: nat :: ModelDispatched(s, t, i, o) in h ==>
          ModelGranted(s, t, i, o) in h)
    && (forall s: SessionId, t: TurnId, k: Key, o: nat :: ToolDispatched(s, t, k, o) in h ==>
          ToolGranted(s, t, k, o) in h)
    && (forall id | id in jobs && jobs[id].stage.Looping? :: Undispatched(jobs[id], jobs[id].stage.loop, h))
  }

  ghost predicate Undispatched(j: Job, l: Loop, h: seq<Moment>) {
    && (l.phase.ModelPermitted? ==> ModelDispatched(j.session, j.turn, l.work.iteration, j.owner) !in h)
    && (l.phase.ToolPermitted? && l.work.pending != [] ==>
          ToolDispatched(j.session, j.turn, l.work.pending[0].Semantic(), j.owner) !in h)
  }

  /** A response handed out is the one rebuilt from its completed turn. */
  ghost predicate AnswersOk(turns: seq<TurnRow>, h: seq<Moment>) {
    forall i | 0 <= i < |h| && h[i].Answered? ::
      var t := h[i].response.turn;
      && t < |turns|
      && turns[t].state == TurnCompleted
      && turns[t].session == h[i].session
      && turns[t].key == h[i].request.key
      && turns[t].input == h[i].request.content
      && h[i].response == ResponseFromTurn(t, turns[t])
  }

  /** A turn that failed carries the code of the error raised; one that lost its session is cancelled. */
  ghost predicate ErrorsOk(turns: seq<TurnRow>, h: seq<Moment>) {
    forall i | 0 <= i < |h| && h[i].Errored? ::
      && h[i].turn < |turns|
      && (turns[h[i].turn].state == TurnCancelled || (turns[h[i].turn].state == TurnFailed && !h[i].stale))
      && turns[h[i].turn].errorCode == Some(h[i].raised)
  }

  predicate SessionPart(sessions: seq<SessionRow>, usage: map<SessionId, Usage>, turns: seq<TurnRow>) {
    SessionsOk(sessions) && UsageOk(sessions, usage) && RankOk(sessions, turns) && SumsOk(sessions, turns)
  }

  predicate TurnPart(turns: seq<TurnRow>) {
    OneActive(turns) && KeysUnique(turns) && TurnsOk(turns)
  }

  ghost predicate EventPart(turns: seq<TurnRow>, outbox: seq<Event>) {
    EventsOk(turns, outbox) && FailureCodesOk(turns, outbox)
  }

  ghost predicate PermitPart(turns: seq<TurnRow>, modelPermits: map<ModelSlot, SessionId>,
                             toolPermits: map<ToolSlot, ToolGrant>, toolRows: seq<ToolRow>) {
    PermitsOk(turns, modelPermits, toolPermits, toolRows) && DoneOk(turns, modelPermits, toolPermits, toolRows)
  }

  /** A tool row carries its place among the rows of its turn and an iteration the turn was permitted. */
  ghost predicate RowFits(toolRows: seq<ToolRow>, modelPermits: map<ModelSlot, SessionId>, i: nat) {
    i < |toolRows| ==>
      && toolRows[i].sequence == |RowKeys(toolRows[..i], toolRows[i].turn)| + 1
      && ModelSlot(toolRows[i].turn, toolRows[i].iteration) in modelPermits
  }

  ghost predicate RowPart(toolRows: seq<ToolRow>, modelPermits: map<ModelSlot, SessionId>) {
    forall i: nat :: RowFits(toolRows, modelPermits, i)
  }

  ghost predicate TablesInv(db: Db) {
    && RowPart(db.toolRows, db.modelPermits)
    && SessionPart(db.sessions, db.usage, db.turns)
    && TurnPart(db.turns)
    && EventPart(db.turns, db.outbox)
    && PermitPart(db.turns, db.modelPermits, db.toolPermits, db.toolRows)
  }

  ghost predicate WorkInv(db: Db, jobs: map<JobId, Job>) {
    && JobsOk(db.turns, jobs)
    && StagesOk(jobs, db.modelPermits, db.toolPermits, db.toolRows)
  }

  ghost predicate JournalInv(db: Db, jobs: map<JobId, Job>, h: seq<Moment>) {
    && Legal(h)
    && EndsOk(db.sessions, h)
    && ModelGrantsOk(db.turns, db.modelPermits, h)
    && ToolGrantsOk(db.turns, db.toolPermits, h)
    && DispatchesOk(jobs, h)
    && AnswersOk(db.turns, h)
    && ErrorsOk(db.turns, h)
  }

  ghost predicate Body(db: Db, jobs: map<JobId, Job>, h: seq<Moment>) {
    TablesInv(db) && WorkInv(db, jobs) && JournalInv(db, jobs, h)
  }

  ghost predicate AllInv(db: Db, jobs: map<JobId, Job>, h: seq<Moment>) {
    forall n: nat :: Peek(n) ==> Body(db, jobs, h)
  }

  lemma Unfold(db: Db, jobs: map<JobId, Job>, h: seq<Moment>)
    requires AllInv(db, jobs, h)
    ensures Body(db, jobs, h)
  {
    assert Peek(0);
  }

  /** The invariant of the protocol. */
  ghost predicate Inv(a: System) {
    AllInv(a.db, a.jobs, a.journal)
  }
}
