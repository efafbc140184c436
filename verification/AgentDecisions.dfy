/**
  What the transactions of the agent service decide and write, said of the rows they find: when a turn
  is opened, replayed or refused, when a permit is granted, what ends a session, and how the response
  handed out comes from the outcome of the loop.
*/
module AgentDecisions {
  import opened Prelude
  import opened TurnLoop
  import opened AgentDb
  import opened AgentProtocol
  import opened AgentInvariant
  import opened AgentSteps
  import opened AgentSafety

  /** The session exists and has not ended. */
  predicate Lives(db: Db, s: SessionId) {
    s < |db.sessions| && db.sessions[s].state !in {Completed, Failed, Cancelled, Expired}
  }

  /** The turn of the session that carries the request's key. */
  predicate Named(db: Db, s: SessionId, request: Request, t: TurnId) {
    t < |db.turns| && db.turns[t].session == s && request.key.Some? && db.turns[t].key == request.key
  }

  ghost predicate KeyUsed(db: Db, s: SessionId, request: Request) {
    exists t: TurnId :: Named(db, s, request, t)
  }

  predicate Flying(db: Db, s: SessionId, t: TurnId) {
    t < |db.turns| && db.turns[t].session == s
    && db.turns[t].state !in {TurnCompleted, TurnFailed, TurnCancelled}
  }

  ghost predicate InFlight(db: Db, s: SessionId) {
    exists t: TurnId :: Flying(db, s, t)
  }

  // ----- opening a turn -------------------------------------------------------------------

  lemma {:induction false} FindKeyExactly(turns: seq<TurnRow>, s: SessionId, key: string)
    ensures var found := FindKey(turns, s, key);
      && (found.Some? ==> found.value < |turns| && turns[found.value].session == s
                          && turns[found.value].key == Some(key))
      && (found.None? ==> forall t | 0 <= t < |turns| :: !(turns[t].session == s && turns[t].key == Some(key)))
  {
    if turns != [] {
      FindKeyExactly(turns[..|turns| - 1], s, key);
    }
  }

  lemma ActiveExactly(db: Db, s: SessionId)
    ensures HasActive(db.turns, s) <==> InFlight(db, s)
  {
    if HasActive(db.turns, s) {
      var t :| 0 <= t < |db.turns| && db.turns[t].session == s && !TurnTerminal(db.turns[t].state);
      assert Flying(db, s, t);
    }
    if InFlight(db, s) {
      var t: TurnId :| Flying(db, s, t);
      assert !TurnTerminal(db.turns[t].state);
    }
  }

  lemma KeyExactly(db: Db, s: SessionId, request: Request)
    ensures KeyUsed(db, s, request) <==> request.key.Some? && FindKey(db.turns, s, request.key.value).Some?
    ensures request.key.Some? && FindKey(db.turns, s, request.key.value).Some? ==>
      Named(db, s, request, FindKey(db.turns, s, request.key.value).value)
  {
    if request.key.Some? {
      FindKeyExactly(db.turns, s, request.key.value);
      var found := FindKey(db.turns, s, request.key.value);
      if found.Some? { assert Named(db, s, request, found.value); }
    }
  }

  /** A request without a historical turn: what admits or refuses a new execution. */
  lemma {:induction false} AdmittedExactly(db: Db, s: SessionId, request: Request, now: Time, maxSession: Time)
    ensures var r := OpenDecision(db, s, request, now, maxSession);
      && (r == NotFound <==> s >= |db.sessions|)
      && (r == SessionOver <==> s < |db.sessions| && !KeyUsed(db, s, request) && !Lives(db, s))
      && (r == LifetimeOver <==>
            Lives(db, s) && !KeyUsed(db, s, request) && now >= db.sessions[s].startedAt + maxSession)
      && (r == Busy <==>
            Lives(db, s) && !KeyUsed(db, s, request) && now < db.sessions[s].startedAt + maxSession
            && InFlight(db, s))
      && (r.Opened? <==>
            Lives(db, s) && !KeyUsed(db, s, request) && now < db.sessions[s].startedAt + maxSession
            && !InFlight(db, s))
      && (r.Opened? ==> r.turn == |db.turns|)
  {
    KeyExactly(db, s, request);
    ActiveExactly(db, s);
  }

  lemma Historical(run: seq<System>, i: nat, s: SessionId, request: Request, t: TurnId)
    requires IsRun(run) && i < |run| && Named(run[i].db, s, request, t)
    ensures FindKey(run[i].db.turns, s, request.key.value) == Some(t)
    ensures TurnOk(run[i].db.turns[t]) && s < |run[i].db.sessions|
  {
    RunBody(run, i);
    KeyExactly(run[i].db, s, request);
  }

  /** In every run a key that was used decides alone: its one turn is replayed if it is COMPLETED and was
      asked for with the same content, and otherwise the request is refused for what that turn is. */
  lemma {:induction false} ReplayedExactly(run: seq<System>, i: nat, s: SessionId, request: Request, now: Time,
                                           t: TurnId)
    requires IsRun(run) && i < |run| && Named(run[i].db, s, request, t)
    ensures var turn := run[i].db.turns[t];
      var r := OpenDecision(run[i].db, s, request, now, run[i].config.maxSession);
      && (r == Replay(t) <==> turn.input == request.content && turn.state == TurnCompleted)
      && (r == Conflict <==> turn.input != request.content)
      && (r == KeyBusy <==>
            turn.input == request.content && turn.state !in {TurnCompleted, TurnFailed, TurnCancelled})
      && (r.ReplayFailed? <==> turn.input == request.content && turn.state in {TurnFailed, TurnCancelled})
      && (r.ReplayFailed? ==> r.state == turn.state && r.code == turn.errorCode)
  {
    Historical(run, i, s, request, t);
  }

  /** A replay names a turn that carries the key, and so does every other answer about a historical turn. */
  lemma {:induction false} HistoryOnlyByKey(db: Db, s: SessionId, request: Request, now: Time, maxSession: Time)
    ensures var r := OpenDecision(db, s, request, now, maxSession);
      && (r.Replay? ==> Named(db, s, request, r.turn))
      && (r.Replay? || r == Conflict || r == KeyBusy || r.ReplayFailed? <==>
            s < |db.sessions| && KeyUsed(db, s, request))
  {
    KeyExactly(db, s, request);
  }

  /** A new turn. */
  predicate Fresh(row: TurnRow, s: SessionId, sequence: nat, request: Request, owner: nat, at: Time) {
    && row.session == s && row.sequence == sequence && row.state == Running
    && row.input == request.content && row.key == request.key && row.owner == owner && row.createdAt == at
    && row.response == None && row.finish == None && row.errorCode == None && row.latency == None
    && row.inputTokens == row.outputTokens == row.toolCallCount == row.toolIterations == 0
  }

  /** Session `s`, and nothing else, ends: state, code and time on its row, its usage, two events, and the
      moment in the journal. */
  ghost predicate Closes(a: System, b: System, s: SessionId, target: SessionState, code: Option<Code>, at: Time) {
    && s < |a.db.sessions|
    && var row := a.db.sessions[s].(state := target, rank := 4, disposition := Some(target), errorCode := code,
                                    endedAt := Some(at));
       && b.db.sessions == a.db.sessions[s := row] && b.db.turns == a.db.turns
       && b.db.modelPermits == a.db.modelPermits && b.db.toolPermits == a.db.toolPermits
       && b.db.toolRows == a.db.toolRows
       && b.db.usage.Keys == a.db.usage.Keys + {s} && Reports(b.db.usage[s], Counters(row), row.turnCount)
       && b.db.outbox == a.db.outbox + [SessionClosed(s, target, code), UsageRecorded(s, b.db.usage[s])]
       && b.journal == a.journal + [SessionEnded(s)]
  }

  lemma SessionFacts(run: seq<System>, i: nat, s: SessionId)
    requires IsRun(run) && i < |run| && s < |run[i].db.sessions|
    ensures SessionOk(run[i].db.sessions[s]) && run[i].db.sessions[s].turnCount == CountOf(run[i].db.turns, s)
  {
    RunBody(run, i);
  }

  /** A turn of session `s`, and nothing else, begins, with `id` at it. */
  ghost predicate Begins(a: System, b: System, id: JobId, s: SessionId, n: nat, request: Request, owner: nat,
                         at: Time) {
    && s < |a.db.sessions| && |b.db.turns| == |a.db.turns| + 1 && b.db.turns[..|a.db.turns|] == a.db.turns
    && Fresh(b.db.turns[|a.db.turns|], s, n, request, owner, at)
    && b.db.sessions == a.db.sessions[s := a.db.sessions[s].(turnCount := n, lastActivityAt := at)]
    && b.jobs == a.jobs[id := Job(s, |a.db.turns|, owner, request, Prepared)] && b.journal == a.journal
    && b.db.outbox == a.db.outbox + [TurnStarted(|a.db.turns|)]
  }

  lemma SubmitBegins(a: System, l: Label)
    requires l.Submit? && Enabled(a, l) && OpenDecision(a.db, l.session, l.request, l.at, a.config.maxSession).Opened?
    ensures l.session < |a.db.sessions|
    ensures Begins(a, Apply(a, l), l.id, l.session, a.db.sessions[l.session].turnCount + 1, l.request, l.owner, l.at)
  {
    AdmittedExactly(a.db, l.session, l.request, l.at, a.config.maxSession);
  }

  lemma SubmitExpires(a: System, l: Label)
    requires l.Submit? && Enabled(a, l) && l.session < |a.db.sessions| && SessionOk(a.db.sessions[l.session])
    requires OpenDecision(a.db, l.session, l.request, l.at, a.config.maxSession) == LifetimeOver
    ensures var b := Apply(a, l); Closes(a, b, l.session, Expired, Some(SessionExpired), l.at) && b.jobs == a.jobs
  {
    AdmittedExactly(a.db, l.session, l.request, l.at, a.config.maxSession);
  }

  lemma SubmitIdle(a: System, l: Label)
    requires l.Submit? && Enabled(a, l)
    ensures var r := OpenDecision(a.db, l.session, l.request, l.at, a.config.maxSession);
      !r.Opened? && r != LifetimeOver ==> Apply(a, l).db == a.db && Apply(a, l).jobs == a.jobs
  {
  }

  /** What a submission writes: a RUNNING turn with the next number, an expiry, or nothing. */
  lemma {:induction false} SubmitWrites(run: seq<System>, i: nat, l: Label)
    requires IsRun(run) && i < |run| && l.Submit? && Enabled(run[i], l)
    ensures var a, b, s := run[i], Apply(run[i], l), l.session;
      match OpenDecision(a.db, s, l.request, l.at, a.config.maxSession)
      case Opened(_) => Begins(a, b, l.id, s, CountOf(a.db.turns, s) + 1, l.request, l.owner, l.at)
      case LifetimeOver => Closes(a, b, s, Expired, Some(SessionExpired), l.at) && b.jobs == a.jobs
      case _ => b.db == a.db && b.jobs == a.jobs
  {
    var a, s := run[i], l.session;
    AdmittedExactly(a.db, s, l.request, l.at, a.config.maxSession);
    if s < |a.db.sessions| { SessionFacts(run, i, s); }
    match OpenDecision(a.db, s, l.request, l.at, a.config.maxSession)
    case Opened(_) => SubmitBegins(a, l);
    case LifetimeOver => SubmitExpires(a, l);
    case _ => SubmitIdle(a, l);
  }

  // ----- ending a session -------------------------------------------------------------------

  /** A stop or a cancellation ends the session if and only if it has not ended, as COMPLETED without a code
      or as CANCELLED with one; otherwise nothing happens. */
  lemma {:induction false} StopEndsExactly(run: seq<System>, i: nat, s: SessionId, target: SessionState, at: Time)
    requires IsRun(run) && i < |run| && Enabled(run[i], EndSession(s, target, at))
    ensures var a, b := run[i], Apply(run[i], EndSession(s, target, at));
      && (Lives(a.db, s) ==>
            Closes(a, b, s, target, if target == Cancelled then Some(AgentCancelled) else None, at) && b.jobs == a.jobs)
      && (!Lives(a.db, s) ==> b == a)
  {
    SessionFacts(run, i, s);
  }

  /** A turn cut off by its deadline expires its session if and only if the lifetime is over; otherwise the
      turn fails by its timeout. */
  lemma {:induction false} TimeOutExactly(run: seq<System>, i: nat, id: JobId, at: Time)
    requires IsRun(run) && i < |run| && Enabled(run[i], TimeOut(id, at))
    ensures var a, b := run[i], Apply(run[i], TimeOut(id, at));
      && a.jobs[id].session < |a.db.sessions|
      && b.db == a.db && b.journal == a.journal
      && b.jobs == a.jobs[id := a.jobs[id].(stage :=
           if at >= a.db.sessions[a.jobs[id].session].startedAt + a.config.maxSession
           then Expiring else Failing(TurnTimeout, false, None))]
  {
    RunInv(run, i);
    RowFacts(run[i], id);
  }

  lemma {:induction false} ExpiryEndsExactly(run: seq<System>, i: nat, id: JobId, at: Time)
    requires IsRun(run) && i < |run| && Enabled(run[i], ExpireAfterTimeout(id, at))
    ensures var a, b := run[i], Apply(run[i], ExpireAfterTimeout(id, at));
      var s := a.jobs[id].session;
      && b.jobs == a.jobs[id := a.jobs[id].(stage := Failing(SessionExpired, true, None))]
      && (Lives(a.db, s) ==> Closes(a, b, s, Expired, Some(SessionExpired), at))
      && (!Lives(a.db, s) ==> b.db == a.db && b.journal == a.journal)
  {
    RunInv(run, i);
    RowFacts(run[i], id);
  }

  /** A new session is live, empty and starts now. */
  lemma {:induction false} StartWrites(a: System, correlation: Option<string>, at: Time)
    ensures var b := Apply(a, StartSession(correlation, at));
      && |b.db.sessions| == |a.db.sessions| + 1 && b.db.sessions[..|a.db.sessions|] == a.db.sessions
      && Lives(b.db, |a.db.sessions|)
      && var row := b.db.sessions[|a.db.sessions|];
         && row.startedAt == row.lastActivityAt == at && row.endedAt == None && row.correlation == correlation
         && row.inputTokens == row.outputTokens == row.toolCallCount == row.turnCount == 0 && row.rank == 1
         && b.db.outbox == a.db.outbox + [SessionCreated(|a.db.sessions|), SessionStarted(|a.db.sessions|)]
         && b.db.turns == a.db.turns && b.jobs == a.jobs && b.journal == a.journal
  {
  }

  // ----- permits ------------------------------------------------------------------------------

  /** The code a turn is told when its session has ended. */
  predicate Tells(state: SessionState, code: Code) {
    && (state == Expired ==> code == SessionExpired) && (state == Cancelled ==> code == AgentCancelled)
    && (state == Completed ==> code == InvalidState)
  }

  /** A worker that asks for a model permit gets it, and the row and the moment with it, if and only if its
      session has not ended; otherwise its turn is to be cancelled with the code of that end. */
  lemma {:induction false} ModelPermitExactly(run: seq<System>, i: nat, id: JobId)
    requires IsRun(run) && i < |run| && Enabled(run[i], AskModel(id))
    ensures var a, b := run[i], Apply(run[i], AskModel(id));
      var j, n := a.jobs[id], LoopOf(a, id).work.iteration;
      && j.session < |a.db.sessions|
      && (Lives(a.db, j.session) ==>
            && b.db == a.db.(modelPermits := a.db.modelPermits[ModelSlot(j.turn, n) := j.session])
            && ModelSlot(j.turn, n) !in a.db.modelPermits
            && b.journal == a.journal + [ModelGranted(j.session, j.turn, n, j.owner)]
            && LoopAt(b, id, ModelPermitted))
      && (!Lives(a.db, j.session) ==>
            && b.db == a.db && b.journal == a.journal && id in b.jobs && b.jobs[id].stage.Failing?
            && b.jobs[id].stage.cancelled && b.jobs[id].stage.stale == Some(a.db.sessions[j.session].state)
            && Tells(a.db.sessions[j.session].state, b.jobs[id].stage.code))
  {
    RunInv(run, i);
    OwnModelPermit(run[i], id);
    RowFacts(run[i], id);
  }

  lemma {:induction false} ToolPermitExactly(run: seq<System>, i: nat, id: JobId)
    requires IsRun(run) && i < |run| && Enabled(run[i], AskTool(id))
    ensures var a, b := run[i], Apply(run[i], AskTool(id));
      var j, k := a.jobs[id], LoopOf(a, id).work.pending[0].Semantic();
      && j.session < |a.db.sessions|
      && (Lives(a.db, j.session) ==>
            && b.db == a.db.(toolPermits := a.db.toolPermits[
                               ToolSlot(j.turn, k) := ToolGrant(j.session, LoopOf(a, id).requested)])
            && ToolSlot(j.turn, k) !in a.db.toolPermits
            && b.journal == a.journal + [ToolGranted(j.session, j.turn, k, j.owner)]
            && LoopAt(b, id, ToolPermitted))
      && (!Lives(a.db, j.session) ==>
            && b.db == a.db && b.journal == a.journal && id in b.jobs && b.jobs[id].stage.Failing?
            && b.jobs[id].stage.cancelled && b.jobs[id].stage.stale == Some(a.db.sessions[j.session].state)
            && Tells(a.db.sessions[j.session].state, b.jobs[id].stage.code))
  {
    RunInv(run, i);
    OwnToolPermit(run[i], id);
    RowFacts(run[i], id);
  }

  /** The permit decisions on any tables, each refusal with its own guard. */
  lemma {:induction false} ModelAuthorityExactly(db: Db, s: SessionId, t: TurnId, owner: nat, n: nat)
    ensures var auth := AuthorizeModel(db, s, t, owner, n);
      var ended := s < |db.sessions| && !Lives(db, s);
      var own := Flying(db, s, t) && db.turns[t].owner == owner;
      && (auth == Permitted <==> !ended && own && ModelSlot(t, n) !in db.modelPermits)
      && (auth.Revoked? <==> ended) && (auth.Revoked? ==> auth.row == db.sessions[s])
      && (auth == NotAuthoritative <==> !ended && !own)
      && (auth == AlreadyExists <==> !ended && own && ModelSlot(t, n) in db.modelPermits)
  {
    assert s < |db.sessions| ==> (Lives(db, s) <==> !SessionTerminal(db.sessions[s].state));
  }

  lemma {:induction false} ToolAuthorityExactly(db: Db, s: SessionId, t: TurnId, owner: nat, k: Key)
    ensures var auth := AuthorizeTool(db, s, t, owner, k);
      var ended := s < |db.sessions| && !Lives(db, s);
      var own := Flying(db, s, t) && db.turns[t].owner == owner;
      && (auth == Permitted <==> !ended && own && ToolSlot(t, k) !in db.toolPermits)
      && (auth.Revoked? <==> ended) && (auth.Revoked? ==> auth.row == db.sessions[s])
      && (auth == NotAuthoritative <==> !ended && !own)
      && (auth == AlreadyExists <==> !ended && own && ToolSlot(t, k) in db.toolPermits)
  {
    assert s < |db.sessions| ==> (Lives(db, s) <==> !SessionTerminal(db.sessions[s].state));
  }

  // ----- the end of a turn ------------------------------------------------------------------------

  /** `part` is `whole` cut to the limit. */
  predicate Cut(whole: string, part: string, limit: nat) {
    part <= whole && |part| == if |whole| <= limit then |whole| else limit
  }

  /** The row of a COMPLETED turn carries the outcome of its loop. */
  predicate Keeps(row: TurnRow, j: Job, o: TurnOutcome, limit: nat) {
    && row.session == j.session && row.key == j.request.key && row.input == j.request.content
    && row.state == TurnCompleted && row.response.Some? && Cut(o.content, row.response.value, limit)
    && row.finish == Some(o.finish) && row.inputTokens == o.inputTokens && row.outputTokens == o.outputTokens
    && row.toolIterations == o.toolIterations && row.toolCallCount == |o.toolCalls| && row.errorCode == None
  }

  /** A response carries the outcome of the loop of its turn. */
  predicate Delivers(r: AgentResponse, j: Job, o: TurnOutcome, limit: nat) {
    && r.session == j.session && r.turn == j.turn && Cut(o.content, r.content, limit)
    && r.finish == o.finish && r.toolCalls == |o.toolCalls|
    && r.inputTokens == o.inputTokens && r.outputTokens == o.outputTokens
    && r.totalTokens == o.inputTokens + o.outputTokens
  }

  predicate Latency(latency: Option<nat>, start: Time, end: Time) {
    latency.Some? && (end >= start ==> latency.value == end - start) && (end < start ==> latency.value == 0)
  }

  /** The correlation of the request, if it has one that is not empty, else of the session. */
  predicate Correlates(c: Option<string>, request: Request, row: SessionRow) {
    c == if request.correlation !in {None, Some("")} then request.correlation else row.correlation
  }

  /** A turn finished while its session is live: the caller gets the outcome of the loop, the turn keeps it,
      and the session is credited with it. */
  lemma {:induction false} FinishDelivers(run: seq<System>, i: nat, id: JobId, at: Time)
    requires IsRun(run) && i < |run| && Enabled(run[i], Finish(id, at))
    requires Lives(run[i].db, run[i].jobs[id].session)
    ensures var a, b := run[i], Apply(run[i], Finish(id, at));
      var j, o := a.jobs[id], LoopOf(a, id).phase.outcome;
      && b.jobs == a.jobs - {id} && |b.journal| == |a.journal| + 1 && b.journal[..|a.journal|] == a.journal
      && var m := b.journal[|a.journal|];
         && m.Answered? && m.session == j.session && m.request == j.request
         && Delivers(m.response, j, o, a.config.maxOutputChars)
         && Latency(m.response.latency, a.db.turns[j.turn].createdAt, at)
         && Correlates(m.response.correlation, j.request, a.db.sessions[j.session])
    ensures var a, b := run[i], Apply(run[i], Finish(id, at));
      var j, o := a.jobs[id], LoopOf(a, id).phase.outcome;
      && j.turn < |b.db.turns| == |a.db.turns| && Keeps(b.db.turns[j.turn], j, o, a.config.maxOutputChars)
      && (forall t | 0 <= t < |a.db.turns| && t != j.turn :: b.db.turns[t] == a.db.turns[t])
      && var row := a.db.sessions[j.session];
         b.db.sessions == a.db.sessions[j.session := row.(
           inputTokens := row.inputTokens + o.inputTokens, outputTokens := row.outputTokens + o.outputTokens,
           toolCallCount := row.toolCallCount + |o.toolCalls|, lastActivityAt := at)]
    ensures var a, b := run[i], Apply(run[i], Finish(id, at));
      var j := a.jobs[id];
      && j.session in b.db.usage && j.session < |b.db.sessions|
      && Reports(b.db.usage[j.session], Counters(b.db.sessions[j.session]), b.db.sessions[j.session].turnCount)
      && b.db.outbox == a.db.outbox + [TurnCompletedEvent(j.turn), ResponseReady(j.turn),
                                       UsageRecorded(j.session, b.db.usage[j.session])]
  {
    RunInv(run, i);
    JobFacts(run[i], id);
  }

  /** A turn finished after its session ended: the outcome is dropped, the turn is CANCELLED, and the caller
      is told how the session ended. */
  lemma {:induction false} LateFinishCancels(run: seq<System>, i: nat, id: JobId, at: Time)
    requires IsRun(run) && i < |run| && Enabled(run[i], Finish(id, at))
    requires !Lives(run[i].db, run[i].jobs[id].session)
    ensures var a, b := run[i], Apply(run[i], Finish(id, at));
      var j := a.jobs[id];
      && b.jobs == a.jobs - {id} && |b.journal| == |a.journal| + 1 && b.journal[..|a.journal|] == a.journal
      && var m := b.journal[|a.journal|];
         && m.Errored? && m.turn == j.turn && m.stale && Tells(a.db.sessions[j.session].state, m.raised)
         && Stops(a.db, b.db, j.turn, TurnCancelled, m.raised, at) && b.db.sessions == a.db.sessions
  {
    RunInv(run, i);
    RowFacts(run[i], id);
  }

  /** Turn `t`, and no other, ends without a response. */
  predicate Stops(a: Db, b: Db, t: TurnId, state: TurnState, code: Code, at: Time) {
    && t < |a.turns| && |b.turns| == |a.turns|
    && b.turns == a.turns[t := b.turns[t]]
    && b.turns[t] == a.turns[t].(state := state, errorCode := Some(code), latency := b.turns[t].latency)
    && Latency(b.turns[t].latency, a.turns[t].createdAt, at)
    && b.outbox == a.outbox + [TurnFailedEvent(t, code)]
  }

  /** A failing turn becomes CANCELLED or FAILED with its code, and its session stays what it is. */
  lemma {:induction false} FailWrites(run: seq<System>, i: nat, id: JobId, at: Time)
    requires IsRun(run) && i < |run| && Enabled(run[i], Fail(id, at))
    ensures var a, b := run[i], Apply(run[i], Fail(id, at));
      var j := a.jobs[id];
      && b.jobs == a.jobs - {id}
      && Stops(a.db, b.db, j.turn, if j.stage.cancelled then TurnCancelled else TurnFailed, j.stage.code, at)
      && j.session < |a.db.sessions|
      && b.db.sessions == (if Lives(a.db, j.session)
                           then a.db.sessions[j.session := a.db.sessions[j.session].(lastActivityAt := at)]
                           else a.db.sessions)
      && b.journal == a.journal + [Errored(j.turn, j.stage.code, j.stage.stale.Some?)]
  {
    RunInv(run, i);
    JobFacts(run[i], id);
  }

  /** A recorded tool call: its turn, number, iteration and key, DENIED if it was not allowed, and otherwise
      COMPLETED or FAILED as it went. */
  lemma {:induction false} NoteWrites(a: System, id: JobId)
    requires Enabled(a, NoteTool(id))
    ensures var b := Apply(a, NoteTool(id));
      var j, w := a.jobs[id], LoopOf(a, id).work;
      var o := w.outcomes[|w.outcomes| - 1];
      && |b.db.toolRows| == |a.db.toolRows| + 1 && b.db.toolRows[..|a.db.toolRows|] == a.db.toolRows
      && var row := b.db.toolRows[|a.db.toolRows|];
         && row.session == j.session && row.turn == j.turn && row.sequence == |w.outcomes|
         && row.iteration == w.iteration && row.key == o.key
         && (row.status == CallDenied <==> !o.allowed) && (row.status == CallCompleted <==> o.allowed && o.ok)
         && b.db == a.db.(toolRows := b.db.toolRows,
                          outbox := a.db.outbox + [ToolRequested(j.turn, o.key),
                                                   ToolFinished(j.turn, o.key, row.status)])
  {
  }

  /** A loop that raised fails its turn with the code of what was wrong: the reply, a call in it, or a bound. */
  lemma {:induction false} BrokenLoopFails(a: System, id: JobId, code: Code)
    requires Enabled(a, Break(id, code)) && LoopAt(a, id, Raised(LoopFault(a, id))) && !LoopFault(a, id).External?
    ensures var f := LoopFault(a, id);
      && Apply(a, Break(id, code)) == a.(jobs := a.jobs[id := a.jobs[id].(stage := Failing(code, false, None))])
      && (code == OutputInvalid <==> f in {ContentOverLimit, DuplicateCallIds, TooManyCalls})
      && (code == ToolInvalid <==> f == BadStructure)
      && (code == ToolLoopLimit <==> f in {IterationCeiling, BudgetExhausted, NotConverged})
  {
  }

  function LoopFault(a: System, id: JobId): Fault {
    if InLoop(a, id) && LoopOf(a, id).phase.Raised? then LoopOf(a, id).phase.fault else NotConverged
  }

  /** A proposed session state is taken if and only if the session has not ended and the move is an end or a
      live edge; an end is absorbing. */
  lemma {:induction false} FoldExactly(current: SessionState, proposed: SessionState)
    ensures var ends := {Completed, Failed, Cancelled, Expired};
      var fold := Fold(current, proposed);
      && (fold.applied <==>
            current !in ends &&
            (proposed in ends || (current, proposed) in {
               (Pending, Active), (Pending, Responding), (Active, WaitingTool), (Active, Responding),
               (WaitingTool, Active), (WaitingTool, Responding), (Responding, Active)}))
      && fold.state == (if fold.applied then proposed else current)
      && fold.disposition == (if fold.state in ends then Some(fold.state) else None)
  {
  }

  // ----- every answer is the outcome of one loop ----------------------------------------------------

  /** In `a` the worker `id` is at turn `t` and its loop has returned. */
  predicate Done(a: System, id: JobId, t: TurnId) {
    InLoop(a, id) && LoopOf(a, id).phase.Returned? && a.jobs[id].turn == t
  }

  /** And `row` carries what it returned. */
  ghost predicate Origin(a: System, id: JobId, t: TurnId, row: TurnRow) {
    forall n: nat :: Glance(n) ==>
      Done(a, id, t) && Keeps(row, a.jobs[id], LoopOf(a, id).phase.outcome, a.config.maxOutputChars)
  }

  lemma SubmitCompletes(a: System, l: Label, t: TurnId)
    requires l.Submit? && Enabled(a, l)
    ensures t < |Apply(a, l).db.turns| && Apply(a, l).db.turns[t].state == TurnCompleted ==>
      t < |a.db.turns| && a.db.turns[t].state == TurnCompleted
  {
    AdmittedExactly(a.db, l.session, l.request, l.at, a.config.maxSession);
  }

  lemma FinishCompletes(a: System, id: JobId, at: Time, t: TurnId)
    requires Inv(a) && Enabled(a, Finish(id, at)) && t < |a.db.turns| && a.db.turns[t].state != TurnCompleted
    requires FinishStep(a, id, at).db.turns[t].state == TurnCompleted
    ensures Done(a, id, t)
    ensures Keeps(FinishStep(a, id, at).db.turns[t], a.jobs[id], LoopOf(a, id).phase.outcome, a.config.maxOutputChars)
  {
    RowFacts(a, id);
  }

  lemma OthersComplete(a: System, l: Label, t: TurnId)
    requires (l.Fail? || l.EndSession? || l.StartSession? || l.ExpireAfterTimeout?) && Enabled(a, l)
    ensures t < |Apply(a, l).db.turns| && Apply(a, l).db.turns[t].state == TurnCompleted ==>
      t < |a.db.turns| && a.db.turns[t].state == TurnCompleted
  {
  }

  /** Only the worker of a turn completes it, with the outcome its loop returned. */
  lemma CompletedBy(a: System, l: Label, t: TurnId)
    requires Inv(a) && Enabled(a, l)
    requires t < |Apply(a, l).db.turns| && Apply(a, l).db.turns[t].state == TurnCompleted
    requires t < |a.db.turns| ==> a.db.turns[t].state != TurnCompleted
    ensures l.Finish? && Done(a, l.id, t)
    ensures Keeps(Apply(a, l).db.turns[t], a.jobs[l.id], LoopOf(a, l.id).phase.outcome, a.config.maxOutputChars)
  {
    if l.Submit? {
      SubmitCompletes(a, l, t);
    } else if l.Finish? {
      FinishCompletes(a, l.id, l.at, t);
    } else if !MovesSessions(l) {
      SessionsKept(a, l);
    } else {
      OthersComplete(a, l, t);
    }
  }

  lemma StepLabel(run: seq<System>, i: nat) returns (l: Label)
    requires IsRun(run) && 0 < i < |run|
    ensures Enabled(run[i - 1], l) && run[i] == Apply(run[i - 1], l)
  {
    assert StepTo(run, i);
    assert Peek(0);
    l :| Enabled(run[i - 1], l) && run[i] == Apply(run[i - 1], l);
  }

  lemma StepCompletes(a: System, l: Label, t: TurnId) returns (id: JobId)
    requires Inv(a) && Enabled(a, l)
    requires t < |Apply(a, l).db.turns| && Apply(a, l).db.turns[t].state == TurnCompleted
    requires t < |a.db.turns| ==> a.db.turns[t].state != TurnCompleted
    ensures Origin(a, id, t, Apply(a, l).db.turns[t])
  {
    CompletedBy(a, l, t);
    id := l.id;
  }

  /** Turn `t` was COMPLETED before step `i`. */
  predicate Kept(run: seq<System>, i: nat, t: TurnId)
    requires 0 < i < |run|
  {
    t < |run[i - 1].db.turns| && run[i - 1].db.turns[t].state == TurnCompleted
  }

  /** A COMPLETED turn carries, cut to the limit, the outcome one worker's loop had returned at it. */
  lemma {:induction false} CompletedTurnsKeepOutcomes(run: seq<System>, i: nat, t: TurnId) returns (k: nat, id: JobId)
    requires IsRun(run) && i < |run| && t < |run[i].db.turns| && run[i].db.turns[t].state == TurnCompleted
    ensures k < i && Origin(run[k], id, t, run[i].db.turns[t])
  {
    if i > 0 {
      if Kept(run, i, t) {
        k, id := CompletedTurnsKeepOutcomes(run, i - 1, t);
        TerminalRowsAbsorb(run, i - 1, i, t);
      } else {
        k := i - 1;
        RunInv(run, k);
        var l := StepLabel(run, i);
        id := StepCompletes(run[k], l, t);
      }
    }
  }

  /** Every response ever handed out, first or replayed, delivers the outcome one worker's loop had returned
      for that turn, whose session, key and content are those of the request. */
  lemma {:induction false} AnswersAreOutcomes(run: seq<System>, i: nat, x: nat) returns (k: nat, id: JobId)
    requires IsRun(run) && i < |run| && x < |run[i].journal| && run[i].journal[x].Answered?
    ensures var m := run[i].journal[x];
      && k < i && Done(run[k], id, m.response.turn) && run[k].jobs[id].session == m.session
      && Delivers(m.response, run[k].jobs[id], LoopOf(run[k], id).phase.outcome, run[k].config.maxOutputChars)
      && run[k].jobs[id].request.content == m.request.content && run[k].jobs[id].request.key == m.request.key
  {
    RunBody(run, i);
    var t := run[i].journal[x].response.turn;
    k, id := CompletedTurnsKeepOutcomes(run, i, t);
    assert Glance(0);
  }
}
