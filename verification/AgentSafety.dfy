/**
  The safety of the agent protocol over whole runs: any number of workers, any interleaving, any
  crash, any answer of the models and the tools.
*/
module AgentSafety {
  import opened Prelude
  import opened TurnLoop
  import opened AgentDb
  import opened AgentProtocol
  import opened AgentInvariant
  import opened AgentTables
  import opened AgentSteps

  lemma {:induction false} RunInv(run: seq<System>, i: nat)
    requires IsRun(run) && i < |run|
    ensures Inv(run[i])
  {
    if i == 0 {
      InitInv(run[0]);
    } else {
      RunInv(run, i - 1);
      assert StepTo(run, i);
      NextInv(run[i - 1], run[i]);
    }
  }

  lemma NextInv(a: System, b: System)
    requires Inv(a) && Next(a, b)
    ensures Inv(b)
  {
    assert Peek(0);
    var l :| Enabled(a, l) && b == Apply(a, l);
    StepInv(a, l);
  }

  lemma RunBody(run: seq<System>, i: nat)
    requires IsRun(run) && i < |run|
    ensures Body(run[i].db, run[i].jobs, run[i].journal)
  {
    RunInv(run, i);
    Unfold(run[i].db, run[i].jobs, run[i].journal);
  }

  // ----- permits ------------------------------------------------------------------------------

  /** A completed turn holds exactly the model permits of iterations 0 to `toolIterations` and exactly
      one tool permit per recorded call, as many as it reports, no two alike. */
  lemma {:induction false} CompletedTurnPermits(run: seq<System>, i: nat, t: TurnId)
    requires IsRun(run) && i < |run|
    requires t < |run[i].db.turns| && run[i].db.turns[t].state == TurnCompleted
    ensures var db := run[i].db;
      && (forall n: nat :: ModelSlot(t, n) in db.modelPermits <==> n <= db.turns[t].toolIterations)
      && var ks := RowKeys(db.toolRows, t);
         && |ks| == db.turns[t].toolCallCount
         && (forall x, y | 0 <= x < y < |ks| :: ks[x] != ks[y])
         && (forall k: Key :: ToolSlot(t, k) in db.toolPermits <==> k in ks)
  {
    RunBody(run, i);
    var db := run[i].db;
    assert ModelRange(db.modelPermits, t, db.turns[t].toolIterations + 1);
    assert ToolRange(db.toolPermits, t, RowKeys(db.toolRows, t), None);
  }

  /** A tool row names its turn's own session and carries its place among the turn's rows, counted from
      one in commit order, and an iteration whose model call was permitted. */
  lemma {:induction false} ToolRowsAreNumbered(run: seq<System>, i: nat, r: nat)
    requires IsRun(run) && i < |run| && r < |run[i].db.toolRows|
    ensures var rows := run[i].db.toolRows;
      && rows[r].turn < |run[i].db.turns| && rows[r].session == run[i].db.turns[rows[r].turn].session
      && rows[r].sequence == |RowKeys(rows[..r], rows[r].turn)| + 1
      && ModelSlot(rows[r].turn, rows[r].iteration) in run[i].db.modelPermits
  {
    RunBody(run, i);
    assert RowFits(run[i].db.toolRows, run[i].db.modelPermits, r);
  }

  /** When a worker asks for a permit, the only refusal it can meet is that its session has ended:
      the checks of turn, parent session and owner pass, and the permit does not exist yet. */
  lemma {:induction false} OnlyRevocationRefuses(run: seq<System>, i: nat, id: JobId)
    requires IsRun(run) && i < |run|
    ensures var a := run[i];
      LoopAt(a, id, NeedModelPermit) ==>
        var j := a.jobs[id];
        var auth := AuthorizeModel(a.db, j.session, j.turn, j.owner, LoopOf(a, id).work.iteration);
        auth == Permitted || (auth.Revoked? && SessionTerminal(auth.row.state))
    ensures var a := run[i];
      LoopAt(a, id, NeedToolPermit) && LoopOf(a, id).work.pending != [] ==>
        var j := a.jobs[id];
        var auth := AuthorizeTool(a.db, j.session, j.turn, j.owner, LoopOf(a, id).work.pending[0].Semantic());
        auth == Permitted || (auth.Revoked? && SessionTerminal(auth.row.state))
  {
    RunInv(run, i);
    var a := run[i];
    if LoopAt(a, id, NeedModelPermit) { OwnModelPermit(a, id); }
    if LoopAt(a, id, NeedToolPermit) && LoopOf(a, id).work.pending != [] { OwnToolPermit(a, id); }
  }

  lemma {:induction false} LegalAt(h: seq<Moment>, j: nat)
    requires Legal(h) && j < |h|
    ensures MayFollow(h[..j], h[j])
  {
    var n := |h| - 1;
    if j < n {
      LegalAt(h[..n], j);
      assert h[..n][..j] == h[..j];
    }
  }

  predicate Grant(m: Moment) {
    m.ModelGranted? || m.ToolGranted?
  }

  predicate Dispatch(m: Moment) {
    m.ModelDispatched? || m.ToolDispatched?
  }

  /** The permit a dispatch rests on. */
  function PermitFor(m: Moment): Moment
    requires Dispatch(m)
  {
    match m
    case ModelDispatched(s, t, n, o) => ModelGranted(s, t, n, o)
    case ToolDispatched(s, t, k, o) => ToolGranted(s, t, k, o)
  }

  /** Every dispatch is preceded by its own permit; no permit and no dispatch happens twice; no
      permit of a session commits after that session's end. */
  lemma {:induction false} PermitsFence(run: seq<System>, i: nat, x: nat, y: nat)
    requires IsRun(run) && i < |run| && x < |run[i].journal| && y < |run[i].journal|
    ensures var h := run[i].journal;
      && (Dispatch(h[y]) ==> exists p :: 0 <= p < y && h[p] == PermitFor(h[y]))
      && (x < y && (Grant(h[x]) || Dispatch(h[x])) ==> h[x] != h[y])
      && (x < y && h[x].SessionEnded? && Grant(h[y]) ==> h[y].session != h[x].session)
  {
    RunBody(run, i);
    var h := run[i].journal;
    LegalAt(h, y);
    if x < y { assert h[..y][x] == h[x]; }
    if Dispatch(h[y]) {
      assert PermitFor(h[y]) in h[..y];
      var p :| 0 <= p < y && h[..y][p] == PermitFor(h[y]);
      assert h[p] == PermitFor(h[y]);
    }
  }

  /** A permit names the turn's own session and the turn's owner, and its row is in the permit table. */
  lemma {:induction false} PermitsAreOwn(run: seq<System>, i: nat, x: nat)
    requires IsRun(run) && i < |run| && x < |run[i].journal| && Grant(run[i].journal[x])
    ensures var db, m := run[i].db, run[i].journal[x];
      && m.turn < |db.turns| && db.turns[m.turn].session == m.session && db.turns[m.turn].owner == m.owner
      && (m.ModelGranted? ==> ModelSlot(m.turn, m.iteration) in db.modelPermits)
      && (m.ToolGranted? ==> ToolSlot(m.turn, m.key) in db.toolPermits)
  {
    RunBody(run, i);
    assert run[i].journal[x] in run[i].journal;
  }

  // ----- absorption ---------------------------------------------------------------------------

  predicate MovesSessions(l: Label) {
    l.StartSession? || l.Submit? || l.ExpireAfterTimeout? || l.Fail? || l.Finish? || l.EndSession?
  }

  lemma SessionsKept(a: System, l: Label)
    requires Enabled(a, l) && !MovesSessions(l)
    ensures Apply(a, l).db.sessions == a.db.sessions && Apply(a, l).db.turns == a.db.turns
  {
  }

  /** No transaction touches the row of a session that has ended. */
  lemma TxAbsorbsSession(db: Db, s: SessionId)
    requires s < |db.sessions| && SessionTerminal(db.sessions[s].state)
    ensures forall x: SessionId, target, code, at | x < |db.sessions| ::
      TerminalizeTx(db, x, target, code, at).sessions[s] == db.sessions[s]
    ensures forall x: SessionId, at | x < |db.sessions| :: ExpireTx(db, x, at).sessions[s] == db.sessions[s]
    ensures forall x: SessionId, t: TurnId, code, cancelled, at ::
      FailTx(db, x, t, code, cancelled, at).sessions[s] == db.sessions[s]
    ensures forall x: SessionId, t: TurnId, o, c, n: nat, at | x < |db.sessions| && t < |db.turns| ::
      FinishTx(db, x, t, o, c, n, at).sessions[s] == db.sessions[s]
  {
  }

  lemma OpenAbsorbsSession(db: Db, x: SessionId, request: Request, owner: nat, at: Time, maxSession: Time, s: SessionId)
    requires s < |db.sessions| && SessionTerminal(db.sessions[s].state)
    ensures OpenTx(db, x, request, owner, at, maxSession).sessions[s] == db.sessions[s]
  {
    TxAbsorbsSession(db, s);
    if OpenDecision(db, x, request, at, maxSession).Opened? {
      OpenedFacts(db, x, request, at, maxSession);
    }
  }

  /** The row of a session that has ended, unchanged by a step. */
  ghost predicate Spares(a: System, l: Label, s: SessionId)
    requires Enabled(a, l) && s < |a.db.sessions|
  {
    var b := Apply(a, l);
    s < |b.db.sessions| && b.db.sessions[s] == a.db.sessions[s]
  }

  lemma SubmitSpares(a: System, l: Label, s: SessionId)
    requires l.Submit? && Enabled(a, l) && s < |a.db.sessions| && SessionTerminal(a.db.sessions[s].state)
    ensures Spares(a, l, s)
  {
    OpenAbsorbsSession(a.db, l.session, l.request, l.owner, l.at, a.config.maxSession, s);
  }

  lemma FinishSpares(a: System, l: Label, s: SessionId)
    requires (l.Finish? || l.Fail?) && Enabled(a, l) && s < |a.db.sessions| && SessionTerminal(a.db.sessions[s].state)
    ensures Spares(a, l, s)
  {
    TxAbsorbsSession(a.db, s);
  }

  lemma EndSpares(a: System, l: Label, s: SessionId)
    requires (l.StartSession? || l.EndSession? || l.ExpireAfterTimeout?) && Enabled(a, l)
    requires s < |a.db.sessions| && SessionTerminal(a.db.sessions[s].state)
    ensures Spares(a, l, s)
  {
    TxAbsorbsSession(a.db, s);
  }

  lemma StepAbsorbsSession(a: System, l: Label, s: SessionId)
    requires Enabled(a, l) && s < |a.db.sessions| && SessionTerminal(a.db.sessions[s].state)
    ensures Spares(a, l, s)
  {
    if l.Submit? {
      SubmitSpares(a, l, s);
    } else if l.Finish? || l.Fail? {
      FinishSpares(a, l, s);
    } else if l.StartSession? || l.EndSession? || l.ExpireAfterTimeout? {
      EndSpares(a, l, s);
    } else {
      SessionsKept(a, l);
    }
  }

  lemma FailAbsorbsTurn(a: System, id: JobId, at: Time, t: TurnId)
    requires Inv(a) && Enabled(a, Fail(id, at)) && t < |a.db.turns| && TurnTerminal(a.db.turns[t].state)
    ensures var b := FailStep(a, id, at); t < |b.db.turns| && b.db.turns[t] == a.db.turns[t]
  {
    RowFacts(a, id);
  }

  lemma FinishAbsorbsTurn(a: System, id: JobId, at: Time, t: TurnId)
    requires Inv(a) && Enabled(a, Finish(id, at)) && t < |a.db.turns| && TurnTerminal(a.db.turns[t].state)
    ensures var b := FinishStep(a, id, at); t < |b.db.turns| && b.db.turns[t] == a.db.turns[t]
  {
    RowFacts(a, id);
  }

  lemma SubmitAbsorbsTurn(a: System, l: Label, t: TurnId)
    requires l.Submit? && Enabled(a, l) && t < |a.db.turns|
    ensures var b := Apply(a, l); t < |b.db.turns| && b.db.turns[t] == a.db.turns[t]
  {
    if OpenDecision(a.db, l.session, l.request, l.at, a.config.maxSession).Opened? {
      OpenedFacts(a.db, l.session, l.request, l.at, a.config.maxSession);
    }
  }

  lemma StepAbsorbsTurn(a: System, l: Label, t: TurnId)
    requires Inv(a) && Enabled(a, l) && t < |a.db.turns| && TurnTerminal(a.db.turns[t].state)
    ensures var b := Apply(a, l); t < |b.db.turns| && b.db.turns[t] == a.db.turns[t]
  {
    if !MovesSessions(l) {
      SessionsKept(a, l);
    } else if l.Fail? {
      FailAbsorbsTurn(a, l.id, l.at, t);
    } else if l.Finish? {
      FinishAbsorbsTurn(a, l.id, l.at, t);
    } else if l.Submit? {
      SubmitAbsorbsTurn(a, l, t);
    }
  }

  /** A session row that has ended is the same in the later database. */
  predicate SessionKept(a: Db, b: Db, s: SessionId) {
    s < |a.sessions| && SessionTerminal(a.sessions[s].state) ==> s < |b.sessions| && b.sessions[s] == a.sessions[s]
  }

  /** A turn row that has ended is the same in the later database. */
  predicate TurnKept(a: Db, b: Db, t: TurnId) {
    t < |a.turns| && TurnTerminal(a.turns[t].state) ==> t < |b.turns| && b.turns[t] == a.turns[t]
  }

  predicate KeptBy(a: System, b: System, n: nat) {
    SessionKept(a.db, b.db, n) && TurnKept(a.db, b.db, n)
  }

  /** What every single step keeps, the whole run keeps. */
  lemma {:induction false} KeptThroughout(run: seq<System>, i: nat, j: nat, n: nat)
    requires i <= j < |run| && forall k | 0 < k < |run| :: KeptBy(run[k - 1], run[k], n)
    ensures KeptBy(run[i], run[j], n)
    decreases j
  {
    if i < j {
      KeptThroughout(run, i, j - 1, n);
      assert KeptBy(run[j - 1], run[j], n);
    }
  }

  lemma NextAbsorbs(a: System, b: System, n: nat)
    requires Inv(a) && Next(a, b)
    ensures KeptBy(a, b, n)
  {
    assert Peek(0);
    var l :| Enabled(a, l) && b == Apply(a, l);
    if n < |a.db.sessions| && SessionTerminal(a.db.sessions[n].state) { StepAbsorbsSession(a, l, n); }
    if n < |a.db.turns| && TurnTerminal(a.db.turns[n].state) { StepAbsorbsTurn(a, l, n); }
  }

  /** Once a session or a turn has ended its row never changes again. */
  lemma {:induction false} TerminalRowsAbsorb(run: seq<System>, i: nat, j: nat, n: nat)
    requires IsRun(run) && i <= j < |run|
    ensures SessionKept(run[i].db, run[j].db, n) && TurnKept(run[i].db, run[j].db, n)
  {
    forall k | 0 < k < |run|
      ensures KeptBy(run[k - 1], run[k], n)
    {
      RunInv(run, k - 1);
      assert StepTo(run, k);
      NextAbsorbs(run[k - 1], run[k], n);
    }
    KeptThroughout(run, i, j, n);
  }

  // ----- idempotency --------------------------------------------------------------------------

  /** All responses handed out for one session and key come from one execution and are equal field by
      field, and all were asked for with the same content. */
  lemma {:induction false} OneAnswerPerKey(run: seq<System>, i: nat, x: nat, y: nat)
    requires IsRun(run) && i < |run| && x < |run[i].journal| && y < |run[i].journal|
    requires run[i].journal[x].Answered? && run[i].journal[y].Answered?
    requires run[i].journal[x].session == run[i].journal[y].session
    requires run[i].journal[x].request.key.Some? && run[i].journal[x].request.key == run[i].journal[y].request.key
    ensures run[i].journal[x].response == run[i].journal[y].response
    ensures run[i].journal[x].request.content == run[i].journal[y].request.content
  {
    RunBody(run, i);
  }

  /** A key names at most one turn, and a response under it needs that turn's content. */
  lemma {:induction false} OneExecutionPerKey(run: seq<System>, i: nat, t: TurnId, u: TurnId)
    requires IsRun(run) && i < |run| && t < |run[i].db.turns| && u < |run[i].db.turns|
    requires run[i].db.turns[t].session == run[i].db.turns[u].session
    requires run[i].db.turns[t].key.Some? && run[i].db.turns[t].key == run[i].db.turns[u].key
    ensures t == u
    ensures forall x | 0 <= x < |run[i].journal| && run[i].journal[x].Answered? ::
      run[i].journal[x].session == run[i].db.turns[t].session
        && run[i].journal[x].request.key == run[i].db.turns[t].key ==>
        run[i].journal[x].response.turn == t && run[i].journal[x].request.content == run[i].db.turns[t].input
  {
    RunBody(run, i);
  }

  // ----- bookkeeping --------------------------------------------------------------------------

  lemma {:induction false} CountOfMonotone(turns: seq<TurnRow>, s: SessionId, m: nat, n: nat)
    requires m <= n <= |turns|
    ensures CountOf(turns[..m], s) <= CountOf(turns[..n], s)
    decreases n
  {
    if m < n {
      CountOfMonotone(turns, s, m, n - 1);
      assert turns[..n][..n - 1] == turns[..n - 1];
    }
  }

  lemma {:induction false} FindSequence(turns: seq<TurnRow>, s: SessionId, n: nat, k: nat) returns (t: TurnId)
    requires n <= |turns| && 1 <= k <= CountOf(turns[..n], s)
    ensures t < n && turns[t].session == s && CountOf(turns[..t], s) + 1 == k
  {
    assert turns[..n][..n - 1] == turns[..n - 1];
    if turns[n - 1].session == s && CountOf(turns[..n], s) == k {
      t := n - 1;
    } else {
      t := FindSequence(turns, s, n - 1, k);
    }
  }

  ghost predicate HasSequence(turns: seq<TurnRow>, s: SessionId, k: nat) {
    exists t :: 0 <= t < |turns| && turns[t].session == s && turns[t].sequence == k
  }

  /** The turns of `s` are numbered 1 to `count`, each number once and in commit order. */
  ghost predicate NumberedExactly(turns: seq<TurnRow>, s: SessionId, count: nat) {
    && (forall t | 0 <= t < |turns| && turns[t].session == s :: 1 <= turns[t].sequence <= count)
    && (forall t, u | 0 <= t < u < |turns| && turns[t].session == s && turns[u].session == s ::
          turns[t].sequence < turns[u].sequence)
    && (forall k: nat | 1 <= k <= count :: HasSequence(turns, s, k))
  }

  lemma RanksNumberExactly(sessions: seq<SessionRow>, turns: seq<TurnRow>, s: SessionId)
    requires RankOk(sessions, turns) && s < |sessions|
    ensures NumberedExactly(turns, s, sessions[s].turnCount)
  {
    assert turns[..|turns|] == turns;
    forall t, u | 0 <= t < u <= |turns| && turns[t].session == s
      ensures CountOf(turns[..t], s) + 1 <= CountOf(turns[..u], s)
    {
      CountOfMonotone(turns, s, t + 1, u);
      assert turns[..t + 1][..t] == turns[..t];
    }
    forall k: nat | 1 <= k <= sessions[s].turnCount ensures HasSequence(turns, s, k) {
      var t := FindSequence(turns, s, |turns|, k);
      assert turns[t].sequence == k;
    }
  }

  /** A session's turns are numbered 1 to `turnCount`, each number once, and at most one is active. */
  lemma {:induction false} SequencesAreExact(run: seq<System>, i: nat, s: SessionId)
    requires IsRun(run) && i < |run| && s < |run[i].db.sessions|
    ensures var db := run[i].db;
      && NumberedExactly(db.turns, s, db.sessions[s].turnCount)
      && (forall t, u | 0 <= t < |db.turns| && 0 <= u < |db.turns| && db.turns[t].session == s
            && db.turns[u].session == s
                        && !TurnTerminal(db.turns[t].state) && !TurnTerminal(db.turns[u].state) :: t == u)
  {
    RunBody(run, i);
    RanksNumberExactly(run[i].db.sessions, run[i].db.turns, s);
  }

  /** A usage row of these sums and this many turns. */
  predicate Reports(u: Usage, sum: Tally, turns: nat) {
    && u.inputTokens == sum.inputTokens && u.outputTokens == sum.outputTokens
    && u.totalTokens == sum.inputTokens + sum.outputTokens
    && u.toolCallCount == sum.toolCalls && u.turnCount == turns
  }

  /** The counters of a session are the sums over its completed turns; an ended session's usage row
      repeats those sums, their total and its number of turns. */
  lemma {:induction false} CountersAreSums(run: seq<System>, i: nat, s: SessionId)
    requires IsRun(run) && i < |run| && s < |run[i].db.sessions|
    ensures var db := run[i].db;
      && Counters(db.sessions[s]) == Sum(db.turns, s)
      && (SessionTerminal(db.sessions[s].state) ==>
            s in db.usage && Reports(db.usage[s], Sum(db.turns, s), db.sessions[s].turnCount))
  {
    RunBody(run, i);
  }

  // ----- events and codes -----------------------------------------------------------------------

  /** A turn has one start event; one terminal event exactly when it has ended; one ready event exactly
      when it has completed; and a failure event carries the code on the row. */
  lemma {:induction false} EventsMatchTurns(run: seq<System>, i: nat, t: TurnId)
    requires IsRun(run) && i < |run| && t < |run[i].db.turns|
    ensures var db := run[i].db;
      && Logged(db.outbox, Started, t) == 1
      && Logged(db.outbox, Terminal, t) == (if TurnTerminal(db.turns[t].state) then 1 else 0)
      && Logged(db.outbox, Ready, t) == (if db.turns[t].state == TurnCompleted then 1 else 0)
      && (forall n | 0 <= n < |db.outbox| && db.outbox[n].TurnFailedEvent? && db.outbox[n].turn == t ::
            db.turns[t].errorCode == Some(db.outbox[n].error))
  {
    RunBody(run, i);
    var db := run[i].db;
    assert Logged(db.outbox, Started, t) == Expected(db.turns, Started, t);
    assert Logged(db.outbox, Terminal, t) == Expected(db.turns, Terminal, t);
    assert Logged(db.outbox, Ready, t) == Expected(db.turns, Ready, t);
  }

  /** A turn no worker is at any more. */
  ghost predicate Orphan(a: System, t: TurnId) {
    t < |a.db.turns| && forall id | id in a.jobs :: a.jobs[id].turn != t
  }

  /** The row of a turn nobody is at, unchanged by a step, with still nobody at it. */
  ghost predicate StaysOrphan(a: System, b: System, t: TurnId) {
    Orphan(a, t) ==> Orphan(b, t) && b.db.turns[t] == a.db.turns[t]
  }

  lemma SubmitOrphan(a: System, l: Label, t: TurnId)
    requires l.Submit? && Enabled(a, l)
    ensures StaysOrphan(a, Apply(a, l), t)
  {
    if OpenDecision(a.db, l.session, l.request, l.at, a.config.maxSession).Opened? {
      OpenedFacts(a.db, l.session, l.request, l.at, a.config.maxSession);
    }
  }

  lemma EndOrphan(a: System, l: Label, t: TurnId)
    requires (l.Finish? || l.Fail?) && Enabled(a, l)
    ensures StaysOrphan(a, Apply(a, l), t)
  {
  }

  lemma DropOrphan(a: System, l: Label, t: TurnId)
    requires (l.Escape? || l.Crash?) && Enabled(a, l)
    ensures StaysOrphan(a, Apply(a, l), t)
  {
  }

  lemma SessionOrphan(a: System, l: Label, t: TurnId)
    requires (l.StartSession? || l.EndSession? || l.ExpireAfterTimeout?) && Enabled(a, l)
    ensures StaysOrphan(a, Apply(a, l), t)
  {
  }

  lemma WorkOrphan(a: System, l: Label, t: TurnId)
    requires !MovesSessions(l) && !l.Escape? && !l.Crash? && Enabled(a, l)
    ensures StaysOrphan(a, Apply(a, l), t)
  {
    SessionsKept(a, l);
  }

  lemma StepOrphan(a: System, l: Label, t: TurnId)
    requires Enabled(a, l)
    ensures StaysOrphan(a, Apply(a, l), t)
  {
    if l.Submit? {
      SubmitOrphan(a, l, t);
    } else if l.Finish? || l.Fail? {
      EndOrphan(a, l, t);
    } else if l.Escape? || l.Crash? {
      DropOrphan(a, l, t);
    } else if MovesSessions(l) {
      SessionOrphan(a, l, t);
    } else {
      WorkOrphan(a, l, t);
    }
  }

  lemma NextOrphan(a: System, b: System, t: TurnId)
    requires Next(a, b)
    ensures StaysOrphan(a, b, t)
  {
    assert Peek(0);
    var l :| Enabled(a, l) && b == Apply(a, l);
    StepOrphan(a, l, t);
  }

  lemma {:induction false} OrphanThroughout(run: seq<System>, i: nat, j: nat, t: TurnId)
    requires i <= j < |run| && forall k | 0 < k < |run| :: StaysOrphan(run[k - 1], run[k], t)
    ensures StaysOrphan(run[i], run[j], t)
    decreases j
  {
    if i < j {
      OrphanThroughout(run, i, j - 1, t);
      assert StaysOrphan(run[j - 1], run[j], t);
    }
  }

  /** A turn no worker is at, because its worker crashed or could not record its failure, keeps its row
      as it is for ever. */
  lemma {:induction false} OrphanedTurnsStay(run: seq<System>, i: nat, j: nat, t: TurnId)
    requires IsRun(run) && i <= j < |run|
    ensures StaysOrphan(run[i], run[j], t)
  {
    forall k | 0 < k < |run|
      ensures StaysOrphan(run[k - 1], run[k], t)
    {
      assert StepTo(run, k);
      NextOrphan(run[k - 1], run[k], t);
    }
    OrphanThroughout(run, i, j, t);
  }

  /** An error that was raised and not recorded is of an active turn that nobody is at. */
  ghost predicate UnrecordedOk(a: System, m: Moment) {
    m.Unrecorded? ==> Orphan(a, m.turn) && a.db.turns[m.turn].state == Running
  }

  /** The steps of a turn at work journal no unrecorded failure. */
  lemma WorkJournal(a: System, l: Label)
    requires !MovesSessions(l) && !l.Escape? && Enabled(a, l)
    ensures a.journal <= Apply(a, l).journal
    ensures forall x | |a.journal| <= x < |Apply(a, l).journal| :: !Apply(a, l).journal[x].Unrecorded?
  {
  }

  lemma JournalGrows(a: System, l: Label)
    requires Enabled(a, l)
    ensures a.journal <= Apply(a, l).journal
    ensures forall x | |a.journal| <= x < |Apply(a, l).journal| :: Apply(a, l).journal[x].Unrecorded? ==>
      l.Escape? && l.id in a.jobs && Apply(a, l).journal[x].turn == a.jobs[l.id].turn
  {
    if !MovesSessions(l) && !l.Escape? {
      WorkJournal(a, l);
    }
  }

  lemma EscapeOrphans(a: System, id: JobId, raised: Option<Code>)
    requires Inv(a) && Enabled(a, Escape(id, raised))
    ensures var b := Apply(a, Escape(id, raised));
      Orphan(b, a.jobs[id].turn) && b.db.turns[a.jobs[id].turn].state == Running
  {
    Unfold(a.db, a.jobs, a.journal);
    assert JobOk(a.db.turns, a.jobs[id]);
  }

  lemma NextUnrecorded(a: System, b: System, x: nat)
    requires Inv(a) && Next(a, b) && x < |b.journal|
    requires x < |a.journal| ==> UnrecordedOk(a, a.journal[x])
    ensures UnrecordedOk(b, b.journal[x])
  {
    assert Peek(0);
    var l :| Enabled(a, l) && b == Apply(a, l);
    JournalGrows(a, l);
    if b.journal[x].Unrecorded? {
      if x < |a.journal| {
        StepOrphan(a, l, b.journal[x].turn);
      } else {
        EscapeOrphans(a, l.id, l.raised);
      }
    }
  }

  lemma {:induction false} RunUnrecorded(run: seq<System>, i: nat, x: nat)
    requires IsRun(run) && i < |run| && x < |run[i].journal|
    ensures UnrecordedOk(run[i], run[i].journal[x])
    decreases i
  {
    if i > 0 {
      RunInv(run, i - 1);
      assert StepTo(run, i);
      if x < |run[i - 1].journal| { RunUnrecorded(run, i - 1, x); }
      NextUnrecorded(run[i - 1], run[i], x);
    }
  }

  /** Every error raised to a caller of a turn, on every path: the code recorded on the turn, if any, is
      the code of that error. A recorded one ended the turn, and cancelled it when it lost its session; one
      that was not recorded, with a code or without, left the turn active and without a code. */
  lemma {:induction false} ErrorsAreTruthful(run: seq<System>, i: nat, x: nat)
    requires IsRun(run) && i < |run| && x < |run[i].journal|
    ensures var db, m := run[i].db, run[i].journal[x];
      m.Errored? ==>
        && m.turn < |db.turns| && db.turns[m.turn].errorCode == Some(m.raised)
        && (db.turns[m.turn].state == TurnCancelled || (db.turns[m.turn].state == TurnFailed && !m.stale))
    ensures var db, m := run[i].db, run[i].journal[x];
      m.Unrecorded? ==>
        m.turn < |db.turns| && db.turns[m.turn].state == Running && db.turns[m.turn].errorCode == None
  {
    RunBody(run, i);
    RunUnrecorded(run, i, x);
    var db, m := run[i].db, run[i].journal[x];
    if m.Unrecorded? {
      assert TurnOk(db.turns[m.turn]);
    }
  }

  /** The stored code equals the raised one in every session state a run can reach. */
  lemma {:induction false} StaleCodeIsTruthful(run: seq<System>, i: nat, s: SessionId)
    requires IsRun(run) && i < |run| && s < |run[i].db.sessions| && SessionTerminal(run[i].db.sessions[s].state)
    ensures StaleCode(run[i].db.sessions[s]) == RaisedFor(run[i].db.sessions[s].state)
  {
    RunBody(run, i);
    assert SessionOk(run[i].db.sessions[s]);
  }
}
