/**
  The service's transactions as they run: an object whose tables are updated in place. Each method is
  proved to commit exactly the transaction of `AgentDb` it stands for, so the safety of the protocol
  is the safety of this object's histories.
*/
module AgentStore {
  import opened Prelude
  import opened TurnLoop
  import opened AgentDb

  class Store {
    var sessions: seq<SessionRow>
    var turns: seq<TurnRow>
    var modelPermits: map<ModelSlot, SessionId>
    var toolPermits: map<ToolSlot, ToolGrant>
    var toolRows: seq<ToolRow>
    var usage: map<SessionId, Usage>
    var outbox: seq<Event>

    function View(): Db
      reads this
    {
      Db(sessions, turns, modelPermits, toolPermits, toolRows, usage, outbox)
    }

    constructor ()
      ensures View() == EmptyDb
    {
      sessions, turns, modelPermits, toolPermits := [], [], map[], map[];
      toolRows, usage, outbox := [], map[], [];
    }

    method RecordUsage(s: SessionId)
      requires s < |sessions|
      modifies this`usage, this`outbox
      ensures usage == old(usage)[s := UsageOf(sessions[s])]
      ensures outbox == old(outbox) + [UsageRecorded(s, UsageOf(sessions[s]))]
    {
      usage := usage[s := UsageOf(sessions[s])];
      outbox := outbox + [UsageRecorded(s, UsageOf(sessions[s]))];
    }

    method Close(s: SessionId, target: SessionState, code: Option<Code>, now: Time)
      requires s < |sessions|
      modifies this
      ensures View() == CloseTx(old(View()), s, target, code, now)
    {
      var fold := Fold(sessions[s].state, target);
      sessions := sessions[s := sessions[s].(state := fold.state, rank := Rank(fold.state),
                                             disposition := fold.disposition, errorCode := code, endedAt := Some(now))];
      outbox := outbox + [SessionClosed(s, fold.state, code)];
      RecordUsage(s);
      assert outbox == old(outbox) + [SessionClosed(s, fold.state, code), UsageRecorded(s, UsageOf(sessions[s]))];
    }

    /** Stop and cancel. */
    method Terminalize(s: SessionId, target: SessionState, code: Option<Code>, now: Time) returns (found: bool)
      modifies this
      ensures found <==> s < |old(sessions)|
      ensures View() == if found then TerminalizeTx(old(View()), s, target, code, now) else old(View())
    {
      if s >= |sessions| {
        return false;
      }
      if !SessionTerminal(sessions[s].state) {
        Close(s, target, code, now);
      }
      return true;
    }

    method ExpireNow(s: SessionId, now: Time)
      modifies this
      ensures View() == if s < |old(sessions)| then ExpireTx(old(View()), s, now) else old(View())
    {
      if s >= |sessions| || SessionTerminal(sessions[s].state) {
        return;
      }
      if Fold(sessions[s].state, Expired).applied {
        Close(s, Expired, Some(SessionExpired), now);
      }
    }

    /** The turn under this key, searched among the session's turns. */
    method ByKey(s: SessionId, key: string) returns (found: Option<TurnId>)
      ensures found == FindKey(turns, s, key)
    {
      var n := |turns|;
      assert turns[..n] == turns;
      while n > 0
        invariant n <= |turns|
        invariant FindKey(turns, s, key) == FindKey(turns[..n], s, key)
      {
        n := n - 1;
        assert turns[..n + 1][..n] == turns[..n];
        if turns[n].session == s && turns[n].key == Some(key) {
          return Some(n);
        }
      }
      return None;
    }

    method ActiveFor(s: SessionId) returns (active: bool)
      ensures active == HasActive(turns, s)
    {
      var t := 0;
      while t < |turns|
        invariant 0 <= t <= |turns|
        invariant forall u | 0 <= u < t :: !(turns[u].session == s && !TurnTerminal(turns[u].state))
      {
        if turns[t].session == s && !TurnTerminal(turns[t].state) {
          return true;
        }
        t := t + 1;
      }
      return false;
    }

    /** Claim execution of one logical turn, or say why not. */
    method OpenTurn(s: SessionId, request: Request, owner: nat, now: Time, maxSession: Time)
      returns (result: OpenResult)
      modifies this
      ensures result == OpenDecision(old(View()), s, request, now, maxSession)
      ensures View() == OpenTx(old(View()), s, request, owner, now, maxSession)
    {
      if s >= |sessions| {
        return NotFound;
      }
      if request.key.Some? {
        var existing := ByKey(s, request.key.value);
        if existing.Some? && existing.value < |turns| {
          return ResolveExisting(turns[existing.value], existing.value, Fingerprint(s, request.content));
        }
      }
      if SessionTerminal(sessions[s].state) {
        return SessionOver;
      }
      if sessions[s].startedAt + maxSession - now <= 0 {
        ExpireNow(s, now);
        return LifetimeOver;
      }
      var active := ActiveFor(s);
      if active {
        return Busy;
      }
      var sequence := sessions[s].turnCount + 1;
      var t := |turns|;
      turns := turns + [NewTurn(s, sequence, request, owner, now)];
      sessions := sessions[s := sessions[s].(turnCount := sequence, lastActivityAt := now)];
      outbox := outbox + [TurnStarted(t)];
      return Opened(t);
    }

    /** The linearization point of a model call. */
    method AuthorizeModelDispatch(s: SessionId, t: TurnId, owner: nat, iteration: nat) returns (auth: Authorization)
      modifies this`modelPermits
      ensures auth == AuthorizeModel(old(View()), s, t, owner, iteration)
      ensures View() == ModelPermitTx(old(View()), s, t, owner, iteration)
    {
      if s < |sessions| && SessionTerminal(sessions[s].state) {
        return Revoked(sessions[s]);
      }
      if t >= |turns| || TurnTerminal(turns[t].state) || turns[t].session != s || turns[t].owner != owner {
        return NotAuthoritative;
      }
      if ModelSlot(t, iteration) in modelPermits {
        return AlreadyExists;
      }
      modelPermits := modelPermits[ModelSlot(t, iteration) := s];
      return Permitted;
    }

    /** The linearization point of a tool dispatch. */
    method AuthorizeToolDispatch(s: SessionId, t: TurnId, owner: nat, key: Key, sequence: nat)
      returns (auth: Authorization)
      modifies this`toolPermits
      ensures auth == AuthorizeTool(old(View()), s, t, owner, key)
      ensures View() == ToolPermitTx(old(View()), s, t, owner, key, sequence)
    {
      if s < |sessions| && SessionTerminal(sessions[s].state) {
        return Revoked(sessions[s]);
      }
      if t >= |turns| || TurnTerminal(turns[t].state) || turns[t].session != s || turns[t].owner != owner {
        return NotAuthoritative;
      }
      if ToolSlot(t, key) in toolPermits {
        return AlreadyExists;
      }
      toolPermits := toolPermits[ToolSlot(t, key) := ToolGrant(s, sequence)];
      return Permitted;
    }

    method RecordToolCall(s: SessionId, t: TurnId, outcome: Outcome, iteration: nat, sequence: nat)
      modifies this`toolRows, this`outbox
      ensures View() == RecordToolTx(old(View()), s, t, outcome, iteration, sequence)
    {
      var status := if !outcome.allowed then CallDenied else if outcome.ok then CallCompleted else CallFailed;
      toolRows := toolRows + [ToolRow(s, t, sequence, iteration, outcome.key, status)];
      outbox := outbox + [ToolRequested(t, outcome.key), ToolFinished(t, outcome.key, status)];
    }

    method FinishTurn(s: SessionId, t: TurnId, outcome: TurnOutcome, request: Request, maxChars: nat, now: Time)
      returns (result: FinishResult)
      requires s < |sessions| && t < |turns|
      modifies this
      ensures var correlation := Correlation(request, old(sessions)[s]);
        && result == FinishOutcome(old(View()), s, t, outcome, correlation, maxChars, now)
        && View() == FinishTx(old(View()), s, t, outcome, correlation, maxChars, now)
    {
      var content := Truncate(outcome.content, maxChars);
      var correlation := Correlation(request, sessions[s]);
      if SessionTerminal(sessions[s].state) {
        var code := StaleCode(sessions[s]);
        turns := turns[t := EndedRow(turns[t], TurnCancelled, code, now)];
        outbox := outbox + [TurnFailedEvent(t, code)];
        return Stale(sessions[s].state);
      }
      var row := turns[t];
      row := row.(state := TurnCompleted, response := Some(content), finish := Some(outcome.finish),
                  inputTokens := outcome.inputTokens, outputTokens := outcome.outputTokens,
                  toolIterations := outcome.toolIterations, toolCallCount := |outcome.toolCalls|,
                  responseCorrelation := correlation, latency := Some(Elapsed(row.createdAt, now)));
      turns := turns[t := row];
      var live := Fold(sessions[s].state, Active).state;
      sessions := sessions[s := sessions[s].(state := live, rank := Rank(live),
                                             inputTokens := sessions[s].inputTokens + outcome.inputTokens,
                                             outputTokens := sessions[s].outputTokens + outcome.outputTokens,
                                             toolCallCount := sessions[s].toolCallCount + |outcome.toolCalls|,
                                             lastActivityAt := now)];
      outbox := outbox + [TurnCompletedEvent(t), ResponseReady(t)];
      RecordUsage(s);
      assert outbox == old(outbox) + [TurnCompletedEvent(t), ResponseReady(t), UsageRecorded(s, UsageOf(sessions[s]))];
      return Delivered(AgentResponse(s, t, content, outcome.finish, |outcome.toolCalls|, outcome.inputTokens,
                                     outcome.outputTokens, outcome.inputTokens + outcome.outputTokens,
                                     row.latency, correlation));
    }

    method FailTurn(s: SessionId, t: TurnId, code: Code, cancelled: bool, now: Time)
      modifies this
      ensures View() == FailTx(old(View()), s, t, code, cancelled, now)
    {
      if t >= |turns| || TurnTerminal(turns[t].state) {
        return;
      }
      turns := turns[t := EndedRow(turns[t], if cancelled then TurnCancelled else TurnFailed, code, now)];
      if s < |sessions| && !SessionTerminal(sessions[s].state) {
        sessions := sessions[s := sessions[s].(state := Active, rank := Rank(Active), lastActivityAt := now)];
      }
      outbox := outbox + [TurnFailedEvent(t, code)];
    }

    method StartSession(correlation: Option<string>, now: Time) returns (s: SessionId)
      modifies this`sessions, this`outbox
      ensures s == |old(sessions)| && View() == StartTx(old(View()), correlation, now)
    {
      s := |sessions|;
      sessions := sessions + [SessionRow(Active, Rank(Active), None, None, 0, 0, 0, 0, correlation, now, now, None)];
      outbox := outbox + [SessionCreated(s), SessionStarted(s)];
    }
  }
}
