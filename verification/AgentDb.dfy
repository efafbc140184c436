/**
  The rows of the agent runtime and the transactions of its service, as functions on the tables.
  A transaction that decides on a session's state holds the session row while it does, and a turn row
  is written only by the worker that owns it, so each transaction is one atomic step. Row identifiers
  are positions in commit order.
*/
module AgentDb {
  import opened Prelude
  import opened TurnLoop

  type SessionId = nat
  type TurnId = nat
  type Time = int

  // ----- state machines ---------------------------------------------------------------

  datatype SessionState = Pending | Active | WaitingTool | Responding | Completed | Failed | Cancelled | Expired

  predicate SessionTerminal(s: SessionState) {
    s == Completed || s == Failed || s == Cancelled || s == Expired
  }

  function Rank(s: SessionState): nat {
    match s
    case Pending => 0
    case Active => 1
    case WaitingTool => 2
    case Responding => 3
    case _ => 4
  }

  predicate LiveEdge(a: SessionState, b: SessionState) {
    match a
    case Pending => b == Active || b == Responding
    case Active => b == WaitingTool || b == Responding
    case WaitingTool => b == Active || b == Responding
    case Responding => b == Active
    case _ => false
  }

  datatype Folded = Folded(applied: bool, state: SessionState, disposition: Option<SessionState>)

  function Fold(current: SessionState, proposed: SessionState): Folded {
    if SessionTerminal(current) then Folded(false, current, Some(current))
    else if proposed == current then Folded(false, current, None)
    else if SessionTerminal(proposed) then Folded(true, proposed, Some(proposed))
    else if LiveEdge(current, proposed) then Folded(true, proposed, None)
    else Folded(false, current, None)
  }

  datatype TurnState = TurnPending | Running | AwaitingTools | Finalizing | TurnCompleted | TurnFailed | TurnCancelled

  predicate TurnTerminal(s: TurnState) {
    s == TurnCompleted || s == TurnFailed || s == TurnCancelled
  }

  // ----- rows -------------------------------------------------------------------------

  datatype SessionRow = SessionRow(state: SessionState, rank: nat, disposition: Option<SessionState>,
                                   errorCode: Option<Code>, inputTokens: nat, outputTokens: nat,
                                   toolCallCount: nat, turnCount: nat, correlation: Option<string>,
                                   startedAt: Time, lastActivityAt: Time, endedAt: Option<Time>)

  /** The request fingerprint, which identifies the session and the content. */
  datatype Fingerprint = Fingerprint(session: SessionId, content: string)

  datatype TurnRow = TurnRow(session: SessionId, sequence: nat, state: TurnState, input: string,
                             key: Option<string>, fingerprint: Fingerprint, owner: nat, createdAt: Time,
                             response: Option<string>, finish: Option<FinishReason>,
                             inputTokens: nat, outputTokens: nat, toolIterations: nat, toolCallCount: nat,
                             responseCorrelation: Option<string>, latency: Option<nat>, errorCode: Option<Code>)

  datatype ModelSlot = ModelSlot(turn: TurnId, iteration: nat)
  datatype ToolSlot = ToolSlot(turn: TurnId, key: Key)
  datatype ToolGrant = ToolGrant(session: SessionId, sequence: nat)

  datatype CallStatus = CallDenied | CallCompleted | CallFailed
  datatype ToolRow = ToolRow(session: SessionId, turn: TurnId, sequence: nat, iteration: nat, key: Key,
                             status: CallStatus)

  datatype Usage = Usage(inputTokens: nat, outputTokens: nat, totalTokens: nat, toolCallCount: nat, turnCount: nat)

  datatype Event =
    | SessionCreated(session: SessionId)
    | SessionStarted(session: SessionId)
    | SessionClosed(session: SessionId, state: SessionState, code: Option<Code>)
    | UsageRecorded(session: SessionId, usage: Usage)
    | TurnStarted(turn: TurnId)
    | TurnCompletedEvent(turn: TurnId)
    | TurnFailedEvent(turn: TurnId, error: Code)
    | ResponseReady(turn: TurnId)
    | ToolRequested(turn: TurnId, key: Key)
    | ToolFinished(turn: TurnId, key: Key, status: CallStatus)

  datatype Db = Db(sessions: seq<SessionRow>, turns: seq<TurnRow>,
                   modelPermits: map<ModelSlot, SessionId>, toolPermits: map<ToolSlot, ToolGrant>,
                   toolRows: seq<ToolRow>, usage: map<SessionId, Usage>, outbox: seq<Event>)

  const EmptyDb := Db([], [], map[], map[], [], map[], [])

  datatype Request = Request(content: string, key: Option<string>, correlation: Option<string>)

  datatype AgentResponse = AgentResponse(session: SessionId, turn: TurnId, content: string, finish: FinishReason,
                                         toolCalls: nat, inputTokens: nat, outputTokens: nat, totalTokens: nat,
                                         latency: Option<nat>, correlation: Option<string>)

  // ----- pure parts -------------------------------------------------------------------

  function Elapsed(start: Time, end: Time): nat {
    if end <= start then 0 else end - start
  }

  function Correlation(request: Request, session: SessionRow): Option<string> {
    if request.correlation.Some? && request.correlation.value != "" then request.correlation else session.correlation
  }

  function UsageOf(row: SessionRow): Usage {
    Usage(row.inputTokens, row.outputTokens, row.inputTokens + row.outputTokens, row.toolCallCount, row.turnCount)
  }

  /** The response rebuilt from a persisted turn. */
  function ResponseFromTurn(t: TurnId, row: TurnRow): AgentResponse {
    AgentResponse(row.session, t, if row.response.Some? then row.response.value else "",
                  if row.finish.Some? then row.finish.value else Stop,
                  row.toolCallCount, row.inputTokens, row.outputTokens, row.inputTokens + row.outputTokens,
                  row.latency, row.responseCorrelation)
  }

  /** The error code stored on a turn whose session ended first. */
  function StaleCode(row: SessionRow): Code {
    if row.errorCode.Some? then row.errorCode.value
    else if row.state == Expired then SessionExpired
    else if row.state == Cancelled then AgentCancelled
    else InvalidState
  }

  /** The code of the error raised for a turn whose session ended first. */
  function RaisedFor(state: SessionState): Code {
    if state == Expired then SessionExpired else if state == Cancelled then AgentCancelled else InvalidState
  }

  /** The turn of this session under this key, if any. */
  function FindKey(turns: seq<TurnRow>, s: SessionId, key: string): Option<TurnId> {
    if turns == [] then None
    else
      var n := |turns| - 1;
      if turns[n].session == s && turns[n].key == Some(key) then Some(n) else FindKey(turns[..n], s, key)
  }

  predicate HasActive(turns: seq<TurnRow>, s: SessionId) {
    exists t | 0 <= t < |turns| :: turns[t].session == s && !TurnTerminal(turns[t].state)
  }

  // ----- transactions -----------------------------------------------------------------

  function StartTx(db: Db, correlation: Option<string>, now: Time): Db {
    var s := |db.sessions|;
    var row := SessionRow(Active, Rank(Active), None, None, 0, 0, 0, 0, correlation, now, now, None);
    db.(sessions := db.sessions + [row],
        outbox := db.outbox + [SessionCreated(s), SessionStarted(s)])
  }

  /** Close a live session: terminal state, event and usage in one commit. */
  function CloseTx(db: Db, s: SessionId, target: SessionState, code: Option<Code>, now: Time): Db
    requires s < |db.sessions|
  {
    var row := db.sessions[s];
    var fold := Fold(row.state, target);
    var row' := row.(state := fold.state, rank := Rank(fold.state), disposition := fold.disposition,
                     errorCode := code, endedAt := Some(now));
    db.(sessions := db.sessions[s := row'], usage := db.usage[s := UsageOf(row')],
        outbox := db.outbox + [SessionClosed(s, fold.state, code), UsageRecorded(s, UsageOf(row'))])
  }

  /** Stop or cancel: nothing happens to a session that has already ended. */
  function TerminalizeTx(db: Db, s: SessionId, target: SessionState, code: Option<Code>, now: Time): Db
    requires s < |db.sessions|
  {
    if SessionTerminal(db.sessions[s].state) then db else CloseTx(db, s, target, code, now)
  }

  function ExpireTx(db: Db, s: SessionId, now: Time): Db
    requires s < |db.sessions|
  {
    if SessionTerminal(db.sessions[s].state) || !Fold(db.sessions[s].state, Expired).applied then db
    else CloseTx(db, s, Expired, Some(SessionExpired), now)
  }

  datatype OpenResult =
    | NotFound
    | Conflict
    | Replay(turn: TurnId)
    | KeyBusy
    | ReplayFailed(state: TurnState, code: Option<Code>)
    | SessionOver
    | LifetimeOver
    | Busy
    | Opened(turn: TurnId)

  function NewTurn(s: SessionId, sequence: nat, request: Request, owner: nat, now: Time): TurnRow {
    TurnRow(s, sequence, Running, request.content, request.key, Fingerprint(s, request.content), owner, now,
            None, None, 0, 0, 0, 0, None, None, None)
  }

  /** A key names one turn for ever: replay it, report it, or refuse it. */
  function ResolveExisting(existing: TurnRow, t: TurnId, fingerprint: Fingerprint): OpenResult {
    if existing.fingerprint != fingerprint then Conflict
    else if existing.state == TurnCompleted then Replay(t)
    else if !TurnTerminal(existing.state) then KeyBusy
    else ReplayFailed(existing.state, existing.errorCode)
  }

  function OpenDecision(db: Db, s: SessionId, request: Request, now: Time, maxSession: Time): OpenResult {
    if s >= |db.sessions| then NotFound
    else
      var existing := if request.key.Some? then FindKey(db.turns, s, request.key.value) else None;
      if existing.Some? && existing.value < |db.turns| then
        ResolveExisting(db.turns[existing.value], existing.value, Fingerprint(s, request.content))
      else if SessionTerminal(db.sessions[s].state) then SessionOver
      else if db.sessions[s].startedAt + maxSession - now <= 0 then LifetimeOver
      else if HasActive(db.turns, s) then Busy
      else Opened(|db.turns|)
  }

  function OpenTx(db: Db, s: SessionId, request: Request, owner: nat, now: Time, maxSession: Time): Db {
    match OpenDecision(db, s, request, now, maxSession)
    case LifetimeOver => ExpireTx(db, s, now)
    case Opened(t) =>
      var row := db.sessions[s];
      var sequence := row.turnCount + 1;
      db.(turns := db.turns + [NewTurn(s, sequence, request, owner, now)],
          sessions := db.sessions[s := row.(turnCount := sequence, lastActivityAt := now)],
          outbox := db.outbox + [TurnStarted(t)])
    case _ => db
  }

  datatype Authorization = Permitted | Revoked(row: SessionRow) | NotAuthoritative | AlreadyExists

  /** The turn exists, is active, belongs to the locked session and is owned by the caller. */
  predicate Authority(db: Db, s: SessionId, t: TurnId, owner: nat) {
    t < |db.turns| && !TurnTerminal(db.turns[t].state) && db.turns[t].session == s && db.turns[t].owner == owner
  }

  function AuthorizeModel(db: Db, s: SessionId, t: TurnId, owner: nat, iteration: nat): Authorization {
    if s < |db.sessions| && SessionTerminal(db.sessions[s].state) then Revoked(db.sessions[s])
    else if !Authority(db, s, t, owner) then NotAuthoritative
    else if ModelSlot(t, iteration) in db.modelPermits then AlreadyExists
    else Permitted
  }

  function ModelPermitTx(db: Db, s: SessionId, t: TurnId, owner: nat, iteration: nat): Db {
    if AuthorizeModel(db, s, t, owner, iteration) == Permitted
    then db.(modelPermits := db.modelPermits[ModelSlot(t, iteration) := s]) else db
  }

  function AuthorizeTool(db: Db, s: SessionId, t: TurnId, owner: nat, key: Key): Authorization {
    if s < |db.sessions| && SessionTerminal(db.sessions[s].state) then Revoked(db.sessions[s])
    else if !Authority(db, s, t, owner) then NotAuthoritative
    else if ToolSlot(t, key) in db.toolPermits then AlreadyExists
    else Permitted
  }

  function ToolPermitTx(db: Db, s: SessionId, t: TurnId, owner: nat, key: Key, sequence: nat): Db {
    if AuthorizeTool(db, s, t, owner, key) == Permitted
    then db.(toolPermits := db.toolPermits[ToolSlot(t, key) := ToolGrant(s, sequence)]) else db
  }

  function StatusOf(o: Outcome): CallStatus {
    if !o.allowed then CallDenied else if o.ok then CallCompleted else CallFailed
  }

  function RecordToolTx(db: Db, s: SessionId, t: TurnId, o: Outcome, iteration: nat, sequence: nat): Db {
    db.(toolRows := db.toolRows + [ToolRow(s, t, sequence, iteration, o.key, StatusOf(o))],
        outbox := db.outbox + [ToolRequested(t, o.key), ToolFinished(t, o.key, StatusOf(o))])
  }

  function Truncate(s: string, limit: nat): string {
    if |s| <= limit then s else s[..limit]
  }

  function CompletedRow(row: TurnRow, o: TurnOutcome, correlation: Option<string>, maxChars: nat, now: Time): TurnRow {
    row.(state := TurnCompleted, response := Some(Truncate(o.content, maxChars)), finish := Some(o.finish),
         inputTokens := o.inputTokens, outputTokens := o.outputTokens, toolIterations := o.toolIterations,
         toolCallCount := |o.toolCalls|, responseCorrelation := correlation,
         latency := Some(Elapsed(row.createdAt, now)))
  }

  function CreditedRow(row: SessionRow, o: TurnOutcome, now: Time): SessionRow {
    var live := Fold(row.state, Active).state;
    row.(state := live, rank := Rank(live), inputTokens := row.inputTokens + o.inputTokens,
         outputTokens := row.outputTokens + o.outputTokens, toolCallCount := row.toolCallCount + |o.toolCalls|,
         lastActivityAt := now)
  }

  function EndedRow(row: TurnRow, target: TurnState, code: Code, now: Time): TurnRow {
    row.(state := target, errorCode := Some(code), latency := Some(Elapsed(row.createdAt, now)))
  }

  datatype FinishResult = Delivered(response: AgentResponse) | Stale(state: SessionState)

  function FinishResponse(s: SessionId, t: TurnId, row: TurnRow, o: TurnOutcome, correlation: Option<string>,
                          maxChars: nat): AgentResponse {
    AgentResponse(s, t, Truncate(o.content, maxChars), o.finish, |o.toolCalls|, o.inputTokens, o.outputTokens,
                  o.inputTokens + o.outputTokens, row.latency, correlation)
  }

  /** Commit the outcome of a turn, or discard it when the session has ended meanwhile. */
  function FinishTx(db: Db, s: SessionId, t: TurnId, o: TurnOutcome, correlation: Option<string>, maxChars: nat,
                    now: Time): Db
    requires s < |db.sessions| && t < |db.turns|
  {
    if SessionTerminal(db.sessions[s].state) then
      var code := StaleCode(db.sessions[s]);
      db.(turns := db.turns[t := EndedRow(db.turns[t], TurnCancelled, code, now)],
          outbox := db.outbox + [TurnFailedEvent(t, code)])
    else
      var row := CreditedRow(db.sessions[s], o, now);
      db.(turns := db.turns[t := CompletedRow(db.turns[t], o, correlation, maxChars, now)],
          sessions := db.sessions[s := row], usage := db.usage[s := UsageOf(row)],
          outbox := db.outbox + [TurnCompletedEvent(t), ResponseReady(t), UsageRecorded(s, UsageOf(row))])
  }

  function FinishOutcome(db: Db, s: SessionId, t: TurnId, o: TurnOutcome, correlation: Option<string>, maxChars: nat,
                         now: Time): FinishResult
    requires s < |db.sessions| && t < |db.turns|
  {
    if SessionTerminal(db.sessions[s].state) then Stale(db.sessions[s].state)
    else
      var row := CompletedRow(db.turns[t], o, correlation, maxChars, now);
      Delivered(FinishResponse(s, t, row, o, correlation, maxChars))
  }

  /** Mark a turn failed or cancelled; a turn that has ended is left alone, an ended session too. */
  function FailTx(db: Db, s: SessionId, t: TurnId, code: Code, cancelled: bool, now: Time): Db {
    if t >= |db.turns| || TurnTerminal(db.turns[t].state) then db
    else
      var target := if cancelled then TurnCancelled else TurnFailed;
      db.(turns := db.turns[t := EndedRow(db.turns[t], target, code, now)],
          sessions :=
            (if s < |db.sessions| && !SessionTerminal(db.sessions[s].state)
             then db.sessions[s := db.sessions[s].(state := Active, rank := Rank(Active), lastActivityAt := now)]
             else db.sessions),
          outbox := db.outbox + [TurnFailedEvent(t, code)])
  }
}
