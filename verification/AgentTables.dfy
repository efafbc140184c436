/** Every transaction keeps the tables consistent. */
module AgentTables {
  import opened Prelude
  import opened TurnLoop
  import opened AgentDb
  import opened AgentInvariant

  // ----- counting lemmas ------------------------------------------------------------------

  lemma {:induction false} CountOfUpdate(turns: seq<TurnRow>, t: TurnId, row: TurnRow, s: SessionId)
    requires t < |turns| && row.session == turns[t].session
    ensures CountOf(turns[t := row], s) == CountOf(turns, s)
  {
    var n := |turns| - 1;
    if t < n {
      CountOfUpdate(turns[..n], t, row, s);
      assert turns[t := row][..n] == turns[..n][t := row];
    } else {
      assert turns[t := row][..n] == turns[..n];
    }
  }

  lemma CountOfSnoc(turns: seq<TurnRow>, row: TurnRow, s: SessionId)
    ensures CountOf(turns + [row], s) == CountOf(turns, s) + if row.session == s then 1 else 0
  {
    assert (turns + [row])[..|turns|] == turns;
  }

  lemma UpdateSlice<T>(s: seq<T>, i: nat, x: T)
    requires i < |s|
    ensures i < |s| - 1 ==> s[i := x][..|s| - 1] == s[..|s| - 1][i := x] && s[i := x][|s| - 1] == s[|s| - 1]
    ensures i == |s| - 1 ==> s[i := x][..|s| - 1] == s[..|s| - 1] && s[i := x][|s| - 1] == x
  {
  }

  lemma AddSwaps(a: Tally, b: Tally, c: Tally)
    ensures Add(Add(a, b), c) == Add(Add(a, c), b) && Add(a, Tally(0, 0, 0)) == a
  {
  }

  lemma {:induction false} SumUpdate(turns: seq<TurnRow>, t: TurnId, row: TurnRow, s: SessionId)
    requires t < |turns| && Share(turns[t], s) == Tally(0, 0, 0)
    ensures Sum(turns[t := row], s) == Add(Sum(turns, s), Share(row, s))
  {
    var n := |turns| - 1;
    UpdateSlice(turns, t, row);
    if t < n {
      SumUpdate(turns[..n], t, row, s);
      SumsAlong(turns, turns[t := row], Share(row, s), s);
    } else {
      SumLast(turns[t := row], s);
      SumLast(turns, s);
      AddSwaps(Sum(turns[..n], s), Share(row, s), Share(row, s));
    }
  }

  /** Two lists with the same last turn differ in their sums as they do without it. */
  lemma SumsAlong(a: seq<TurnRow>, b: seq<TurnRow>, share: Tally, s: SessionId)
    requires a != [] && |b| == |a| && b[|b| - 1] == a[|a| - 1]
    requires Sum(b[..|b| - 1], s) == Add(Sum(a[..|a| - 1], s), share)
    ensures Sum(b, s) == Add(Sum(a, s), share)
  {
    SumLast(a, s);
    SumLast(b, s);
    AddSwaps(Sum(a[..|a| - 1], s), share, Share(a[|a| - 1], s));
  }

  lemma SumLast(turns: seq<TurnRow>, s: SessionId)
    requires turns != []
    ensures Sum(turns, s) == Add(Sum(turns[..|turns| - 1], s), Share(turns[|turns| - 1], s))
  {
  }

  lemma SumSnoc(turns: seq<TurnRow>, row: TurnRow, s: SessionId)
    ensures Sum(turns + [row], s) == Add(Sum(turns, s), Share(row, s))
  {
    assert (turns + [row])[..|turns|] == turns;
  }

  lemma LoggedSnoc(outbox: seq<Event>, e: Event, k: Kind, t: TurnId)
    ensures Logged(outbox + [e], k, t) == Logged(outbox, k, t) + if Matches(e, k, t) then 1 else 0
  {
    assert (outbox + [e])[..|outbox|] == outbox;
  }

  lemma RowKeysSnoc(rows: seq<ToolRow>, r: ToolRow, t: TurnId)
    ensures RowKeys(rows + [r], t) == RowKeys(rows, t) + if r.turn == t then [r.key] else []
  {
    assert (rows + [r])[..|rows|] == rows;
  }

  lemma {:induction false} NoRows(rows: seq<ToolRow>, t: TurnId)
    requires forall i | 0 <= i < |rows| :: rows[i].turn != t
    ensures RowKeys(rows, t) == []
  {
    if rows != [] {
      NoRows(rows[..|rows| - 1], t);
    }
  }

  lemma {:induction false} FindKeySpec(turns: seq<TurnRow>, s: SessionId, key: string)
    ensures match FindKey(turns, s, key)
            case Some(t) => t < |turns| && turns[t].session == s && turns[t].key == Some(key)
            case None => forall t | 0 <= t < |turns| :: !(turns[t].session == s && turns[t].key == Some(key))
  {
    if turns != [] {
      FindKeySpec(turns[..|turns| - 1], s, key);
    }
  }

  // ----- events ---------------------------------------------------------------------------

  predicate Neutral(e: Event) {
    !e.TurnStarted? && !e.TurnCompletedEvent? && !e.TurnFailedEvent? && !e.ResponseReady?
  }

  lemma NeutralEvent(turns: seq<TurnRow>, outbox: seq<Event>, e: Event)
    requires EventPart(turns, outbox) && Neutral(e)
    ensures EventPart(turns, outbox + [e])
  {
    forall k: Kind, t: TurnId ensures Logged(outbox + [e], k, t) == Expected(turns, k, t) {
      LoggedSnoc(outbox, e, k, t);
    }
  }

  lemma NeutralEvents(turns: seq<TurnRow>, outbox: seq<Event>, e: Event, f: Event)
    requires EventPart(turns, outbox) && Neutral(e) && Neutral(f)
    ensures EventPart(turns, outbox + [e, f])
  {
    NeutralEvent(turns, outbox, e);
    NeutralEvent(turns, outbox + [e], f);
    assert outbox + [e, f] == outbox + [e] + [f];
  }

  lemma StartedEvent(turns: seq<TurnRow>, outbox: seq<Event>, row: TurnRow)
    requires EventPart(turns, outbox) && row.state == Running
    ensures EventPart(turns + [row], outbox + [TurnStarted(|turns|)])
  {
    var e := TurnStarted(|turns|);
    forall k: Kind, t: TurnId ensures Logged(outbox + [e], k, t) == Expected(turns + [row], k, t) {
      LoggedSnoc(outbox, e, k, t);
      assert Logged(outbox, k, t) == Expected(turns, k, t);
    }
  }

  lemma FailedEvent(turns: seq<TurnRow>, outbox: seq<Event>, t: TurnId, row: TurnRow, code: Code)
    requires EventPart(turns, outbox)
    requires t < |turns| && turns[t].state == Running && turns[t].errorCode == None
    requires (row.state == TurnFailed || row.state == TurnCancelled) && row.errorCode == Some(code)
    ensures EventPart(turns[t := row], outbox + [TurnFailedEvent(t, code)])
  {
    var e := TurnFailedEvent(t, code);
    forall k: Kind, u: TurnId ensures Logged(outbox + [e], k, u) == Expected(turns[t := row], k, u) {
      LoggedSnoc(outbox, e, k, u);
      assert Logged(outbox, k, u) == Expected(turns, k, u);
    }
  }

  lemma CompletedEvents(turns: seq<TurnRow>, outbox: seq<Event>, t: TurnId, row: TurnRow)
    requires EventPart(turns, outbox)
    requires t < |turns| && turns[t].state == Running && turns[t].errorCode == None && row.state == TurnCompleted
    ensures EventPart(turns[t := row], outbox + [TurnCompletedEvent(t)] + [ResponseReady(t)])
  {
    var o1 := outbox + [TurnCompletedEvent(t)];
    forall k: Kind, u: TurnId ensures Logged(o1 + [ResponseReady(t)], k, u) == Expected(turns[t := row], k, u) {
      LoggedSnoc(outbox, TurnCompletedEvent(t), k, u);
      LoggedSnoc(o1, ResponseReady(t), k, u);
      assert Logged(outbox, k, u) == Expected(turns, k, u);
    }
  }

  // ----- one row changes --------------------------------------------------------------------

  lemma RankUpdate(sessions: seq<SessionRow>, turns: seq<TurnRow>, t: TurnId, row: TurnRow)
    requires RankOk(sessions, turns) && t < |turns|
    requires row.session == turns[t].session && row.sequence == turns[t].sequence
    ensures RankOk(sessions, turns[t := row])
  {
    var turns' := turns[t := row];
    forall u | 0 <= u < |turns'|
      ensures turns'[u].session < |sessions| && turns'[u].sequence == CountOf(turns'[..u], turns'[u].session) + 1
    {
      if u <= t {
        assert turns'[..u] == turns[..u];
      } else {
        assert turns'[..u] == turns[..u][t := row];
        CountOfUpdate(turns[..u], t, row, turns[u].session);
      }
    }
    forall s | 0 <= s < |sessions| ensures sessions[s].turnCount == CountOf(turns', s) {
      CountOfUpdate(turns, t, row, s);
    }
  }

  /** A terminal outcome written over an active turn. */
  ghost predicate Ends(was: TurnRow, row: TurnRow) {
    && was.state == Running && TurnTerminal(row.state)
    && row.session == was.session && row.sequence == was.sequence && row.key == was.key
    && row.fingerprint == was.fingerprint && row.input == was.input && row.owner == was.owner
  }

  lemma TurnEnds(turns: seq<TurnRow>, t: TurnId, row: TurnRow)
    requires TurnPart(turns)
    requires t < |turns| && Ends(turns[t], row) && TurnOk(row)
    ensures TurnPart(turns[t := row])
  {
  }

  /** A session row changes in state, code and times only. */
  lemma SessionKeepsCounters(sessions: seq<SessionRow>, usage: map<SessionId, Usage>, turns: seq<TurnRow>,
                             s: SessionId, row: SessionRow, usage': map<SessionId, Usage>)
    requires SessionPart(sessions, usage, turns) && s < |sessions| && !SessionTerminal(sessions[s].state)
    requires SessionOk(row) && Counters(row) == Counters(sessions[s]) && row.turnCount == sessions[s].turnCount
    requires usage' == usage[s := UsageOf(row)] || (usage' == usage && !SessionTerminal(row.state))
    ensures SessionPart(sessions[s := row], usage', turns)
  {
  }

  /** A turn ends without changing any counter. */
  lemma SessionsUnaffected(sessions: seq<SessionRow>, usage: map<SessionId, Usage>, turns: seq<TurnRow>, t: TurnId,
                           row: TurnRow)
    requires SessionPart(sessions, usage, turns) && t < |turns| && Ends(turns[t], row) && row.state != TurnCompleted
    ensures SessionPart(sessions, usage, turns[t := row])
  {
    RankUpdate(sessions, turns, t, row);
    var turns' := turns[t := row];
    forall s | 0 <= s < |sessions| ensures Counters(sessions[s]) == Sum(turns', s) {
      SumUpdate(turns, t, row, s);
    }
  }

  lemma DoneKept(turns: seq<TurnRow>, t: TurnId, row: TurnRow, mp: map<ModelSlot, SessionId>,
                 tp: map<ToolSlot, ToolGrant>, rows: seq<ToolRow>)
    requires PermitPart(turns, mp, tp, rows)
    requires t < |turns| && Ends(turns[t], row)
    requires row.state == TurnCompleted ==>
      && ModelRange(mp, t, row.toolIterations + 1) && |RowKeys(rows, t)| == row.toolCallCount
      && Distinct(RowKeys(rows, t)) && ToolRange(tp, t, RowKeys(rows, t), None)
    ensures PermitPart(turns[t := row], mp, tp, rows)
  {
    var turns' := turns[t := row];
    assert PermitsOk(turns', mp, tp, rows);
    forall u | 0 <= u < |turns'| && turns'[u].state == TurnCompleted
      ensures ModelRange(mp, u, turns'[u].toolIterations + 1) && |RowKeys(rows, u)| == turns'[u].toolCallCount
      ensures Distinct(RowKeys(rows, u)) && ToolRange(tp, u, RowKeys(rows, u), None)
    {
      if u != t { assert turns'[u] == turns[u]; }
    }
  }

  // ----- transactions -------------------------------------------------------------------------

  lemma StartTables(db: Db, correlation: Option<string>, now: Time)
    requires TablesInv(db)
    ensures TablesInv(StartTx(db, correlation, now))
  {
    var s := |db.sessions|;
    NeutralEvents(db.turns, db.outbox, SessionCreated(s), SessionStarted(s));
    NewSession(db.sessions, db.usage, db.turns,
               SessionRow(Active, Rank(Active), None, None, 0, 0, 0, 0, correlation, now, now, None));
  }

  lemma NewSession(sessions: seq<SessionRow>, usage: map<SessionId, Usage>, turns: seq<TurnRow>, row: SessionRow)
    requires SessionPart(sessions, usage, turns)
    requires SessionOk(row) && row.state == Active && row.turnCount == 0 && Counters(row) == Tally(0, 0, 0)
    ensures SessionPart(sessions + [row], usage, turns)
  {
    NewRank(sessions, turns, row);
    NewSums(sessions, turns, row);
  }

  lemma NewRank(sessions: seq<SessionRow>, turns: seq<TurnRow>, row: SessionRow)
    requires RankOk(sessions, turns) && row.turnCount == 0
    ensures RankOk(sessions + [row], turns)
  {
    NoTurns(turns, |sessions|);
  }

  lemma NewSums(sessions: seq<SessionRow>, turns: seq<TurnRow>, row: SessionRow)
    requires RankOk(sessions, turns) && SumsOk(sessions, turns) && Counters(row) == Tally(0, 0, 0)
    ensures SumsOk(sessions + [row], turns)
  {
    NoTurns(turns, |sessions|);
  }

  lemma {:induction false} NoTurns(turns: seq<TurnRow>, s: SessionId)
    requires forall t | 0 <= t < |turns| :: turns[t].session < s
    ensures CountOf(turns, s) == 0 && Sum(turns, s) == Tally(0, 0, 0)
  {
    if turns != [] {
      NoTurns(turns[..|turns| - 1], s);
    }
  }

  lemma CloseTables(db: Db, s: SessionId, target: SessionState, code: Option<Code>, now: Time)
    requires TablesInv(db) && s < |db.sessions| && !SessionTerminal(db.sessions[s].state)
    requires (target == Completed && code == None) || (target == Cancelled && code == Some(AgentCancelled))
             || (target == Expired && code == Some(SessionExpired))
    ensures TablesInv(CloseTx(db, s, target, code, now))
  {
    var row := db.sessions[s].(state := target, rank := Rank(target), disposition := Some(target),
                               errorCode := code, endedAt := Some(now));
    assert SessionOk(db.sessions[s]);
    SessionKeepsCounters(db.sessions, db.usage, db.turns, s, row, db.usage[s := UsageOf(row)]);
    NeutralEvents(db.turns, db.outbox, SessionClosed(s, target, code), UsageRecorded(s, UsageOf(row)));
  }

  lemma OpenedRank(sessions: seq<SessionRow>, turns: seq<TurnRow>, s: SessionId, row: SessionRow, turn: TurnRow)
    requires RankOk(sessions, turns) && s < |sessions|
    requires turn.session == s && turn.sequence == sessions[s].turnCount + 1 == row.turnCount
    ensures RankOk(sessions[s := row], turns + [turn])
  {
    var turns' := turns + [turn];
    forall u | 0 <= u < |turns'|
      ensures turns'[u].session < |sessions| && turns'[u].sequence == CountOf(turns'[..u], turns'[u].session) + 1
    {
      assert turns'[..u] == turns[..u];
      if u == |turns| { assert turns[..u] == turns; }
    }
    forall x | 0 <= x < |sessions| ensures sessions[s := row][x].turnCount == CountOf(turns', x) {
      CountOfSnoc(turns, turn, x);
    }
  }

  /** A new turn is the only active one of its session, under a key of its own. */
  lemma OpenedTurns(turns: seq<TurnRow>, turn: TurnRow)
    requires TurnPart(turns)
    requires TurnOk(turn) && !HasActive(turns, turn.session)
    requires forall t | 0 <= t < |turns| && turns[t].session == turn.session ::
      turns[t].key.None? || turns[t].key != turn.key
    ensures TurnPart(turns + [turn])
  {
  }

  lemma OpenedSessions(sessions: seq<SessionRow>, usage: map<SessionId, Usage>, turns: seq<TurnRow>,
                       s: SessionId, row: SessionRow, turn: TurnRow)
    requires SessionPart(sessions, usage, turns) && s < |sessions| && !SessionTerminal(sessions[s].state)
    requires turn.state == Running && turn.session == s
    requires turn.sequence == sessions[s].turnCount + 1 == row.turnCount
    requires SessionOk(row) && row.state == sessions[s].state && Counters(row) == Counters(sessions[s])
    ensures SessionPart(sessions[s := row], usage, turns + [turn])
  {
    OpenedRank(sessions, turns, s, row, turn);
    var sessions', turns' := sessions[s := row], turns + [turn];
    forall x | 0 <= x < |sessions'| ensures Counters(sessions'[x]) == Sum(turns', x) {
      SumSnoc(turns, turn, x);
    }
  }

  lemma OpenedPermits(turns: seq<TurnRow>, turn: TurnRow, mp: map<ModelSlot, SessionId>,
                      tp: map<ToolSlot, ToolGrant>, rows: seq<ToolRow>)
    requires PermitPart(turns, mp, tp, rows) && turn.state == Running
    ensures PermitPart(turns + [turn], mp, tp, rows)
  {
  }

  /** What the admission gates of an opened turn have established. */
  lemma OpenedFacts(db: Db, s: SessionId, request: Request, now: Time, maxSession: Time)
    requires OpenDecision(db, s, request, now, maxSession).Opened?
    ensures s < |db.sessions| && !SessionTerminal(db.sessions[s].state) && !HasActive(db.turns, s)
    ensures OpenDecision(db, s, request, now, maxSession) == Opened(|db.turns|)
    ensures forall t | 0 <= t < |db.turns| && db.turns[t].session == s ::
      db.turns[t].key.None? || db.turns[t].key != request.key
  {
    if request.key.Some? { FindKeySpec(db.turns, s, request.key.value); }
  }

  lemma OpenTables(db: Db, s: SessionId, request: Request, owner: nat, now: Time, maxSession: Time)
    requires TablesInv(db) && OpenDecision(db, s, request, now, maxSession).Opened?
    ensures TablesInv(OpenTx(db, s, request, owner, now, maxSession))
  {
    OpenedFacts(db, s, request, now, maxSession);
    var row := db.sessions[s].(turnCount := db.sessions[s].turnCount + 1, lastActivityAt := now);
    var turn := NewTurn(s, row.turnCount, request, owner, now);
    assert SessionOk(db.sessions[s]);
    AdmittedTables(db, s, row, turn);
    assert OpenTx(db, s, request, owner, now, maxSession) ==
           db.(turns := db.turns + [turn], sessions := db.sessions[s := row],
             outbox := db.outbox + [TurnStarted(|db.turns|)]);
  }

  lemma AdmittedTables(db: Db, s: SessionId, row: SessionRow, turn: TurnRow)
    requires TablesInv(db) && s < |db.sessions| && !SessionTerminal(db.sessions[s].state)
    requires turn.state == Running && turn.session == s && TurnOk(turn) && !HasActive(db.turns, s)
    requires forall t | 0 <= t < |db.turns| && db.turns[t].session == s ::
      db.turns[t].key.None? || db.turns[t].key != turn.key
    requires turn.sequence == db.sessions[s].turnCount + 1 == row.turnCount
    requires SessionOk(row) && row.state == db.sessions[s].state && Counters(row) == Counters(db.sessions[s])
    ensures TablesInv(db.(turns := db.turns + [turn], sessions := db.sessions[s := row],
                          outbox := db.outbox + [TurnStarted(|db.turns|)]))
  {
    OpenedTurns(db.turns, turn);
    OpenedSessions(db.sessions, db.usage, db.turns, s, row, turn);
    OpenedPermits(db.turns, turn, db.modelPermits, db.toolPermits, db.toolRows);
    StartedEvent(db.turns, db.outbox, turn);
  }

  lemma ModelPermitDone(turns: seq<TurnRow>, mp: map<ModelSlot, SessionId>, tp: map<ToolSlot, ToolGrant>,
                        rows: seq<ToolRow>, t: TurnId, i: nat, s: SessionId)
    requires PermitPart(turns, mp, tp, rows) && t < |turns| && turns[t].state != TurnCompleted && turns[t].session == s
    ensures PermitPart(turns, mp[ModelSlot(t, i) := s], tp, rows)
  {
    forall u | 0 <= u < |turns| && turns[u].state == TurnCompleted
      ensures ModelRange(mp[ModelSlot(t, i) := s], u, turns[u].toolIterations + 1)
    {
      assert ModelRange(mp, u, turns[u].toolIterations + 1);
    }
  }

  lemma ModelPermitTables(db: Db, s: SessionId, t: TurnId, owner: nat, i: nat)
    requires TablesInv(db) && AuthorizeModel(db, s, t, owner, i) == Permitted
    ensures TablesInv(ModelPermitTx(db, s, t, owner, i))
  {
    PermitsGrow(db.toolRows, db.modelPermits, ModelSlot(t, i), s);
    ModelPermitDone(db.turns, db.modelPermits, db.toolPermits, db.toolRows, t, i, s);
  }

  lemma ToolPermitTables(db: Db, s: SessionId, t: TurnId, owner: nat, k: Key, sequence: nat)
    requires TablesInv(db) && AuthorizeTool(db, s, t, owner, k) == Permitted
    ensures TablesInv(ToolPermitTx(db, s, t, owner, k, sequence))
  {
    var db' := ToolPermitTx(db, s, t, owner, k, sequence);
    assert DoneOk(db'.turns, db'.modelPermits, db'.toolPermits, db'.toolRows) by {
      forall u | 0 <= u < |db.turns| && db.turns[u].state == TurnCompleted
        ensures ToolRange(db'.toolPermits, u, RowKeys(db.toolRows, u), None)
      {
        assert ToolRange(db.toolPermits, u, RowKeys(db.toolRows, u), None);
      }
    }
  }

  lemma RowsGrow(rows: seq<ToolRow>, row: ToolRow, mp: map<ModelSlot, SessionId>)
    requires RowPart(rows, mp) && row.sequence == |RowKeys(rows, row.turn)| + 1
    requires ModelSlot(row.turn, row.iteration) in mp
    ensures RowPart(rows + [row], mp)
  {
    var longer := rows + [row];
    forall i: nat
      ensures RowFits(longer, mp, i)
    {
      assert RowFits(rows, mp, i);
      if i < |longer| {
        assert longer[..i] == rows[..i];
        assert i == |rows| ==> rows[..i] == rows;
      }
    }
  }

  lemma PermitsGrow(rows: seq<ToolRow>, mp: map<ModelSlot, SessionId>, slot: ModelSlot, s: SessionId)
    requires RowPart(rows, mp)
    ensures RowPart(rows, mp[slot := s])
  {
    var more := mp[slot := s];
    forall i: nat
      ensures RowFits(rows, more, i)
    {
      assert RowFits(rows, mp, i);
    }
  }

  lemma RecordToolDone(turns: seq<TurnRow>, mp: map<ModelSlot, SessionId>, tp: map<ToolSlot, ToolGrant>,
                       rows: seq<ToolRow>, row: ToolRow)
    requires PermitPart(turns, mp, tp, rows) && row.turn < |turns| && turns[row.turn].state == Running
    requires row.session == turns[row.turn].session
    ensures PermitPart(turns, mp, tp, rows + [row])
  {
    var longer := rows + [row];
    forall u | 0 <= u < |turns| && turns[u].state == TurnCompleted
      ensures RowKeys(longer, u) == RowKeys(rows, u)
    {
      RowKeysSnoc(rows, row, u);
    }
  }

  lemma RecordToolTables(db: Db, s: SessionId, t: TurnId, o: Outcome, i: nat, sequence: nat)
    requires TablesInv(db) && t < |db.turns| && db.turns[t].state == Running
    requires s == db.turns[t].session && sequence == |RowKeys(db.toolRows, t)| + 1 && ModelSlot(t, i) in db.modelPermits
    ensures TablesInv(RecordToolTx(db, s, t, o, i, sequence))
  {
    var row := ToolRow(s, t, sequence, i, o.key, StatusOf(o));
    RowsGrow(db.toolRows, row, db.modelPermits);
    RecordToolDone(db.turns, db.modelPermits, db.toolPermits, db.toolRows, row);
    NeutralEvents(db.turns, db.outbox, ToolRequested(t, o.key), ToolFinished(t, o.key, StatusOf(o)));
  }

  /** The turn ends without an answer; its session may be touched in state and activity only. */
  lemma LostTurnTables(db: Db, t: TurnId, row: TurnRow, code: Code, sessions: seq<SessionRow>)
    requires TablesInv(db) && t < |db.turns| && db.turns[t].state == Running && db.turns[t].errorCode == None
    requires Ends(db.turns[t], row) && TurnOk(row) && row.state != TurnCompleted && row.errorCode == Some(code)
    requires SessionPart(sessions, db.usage, db.turns)
    ensures TablesInv(db.(turns := db.turns[t := row], sessions := sessions,
                          outbox := db.outbox + [TurnFailedEvent(t, code)]))
  {
    SessionsUnaffected(sessions, db.usage, db.turns, t, row);
    TurnEnds(db.turns, t, row);
    FailedEvent(db.turns, db.outbox, t, row, code);
    DoneKept(db.turns, t, row, db.modelPermits, db.toolPermits, db.toolRows);
  }

  lemma FailTables(db: Db, s: SessionId, t: TurnId, code: Code, cancelled: bool, now: Time)
    requires TablesInv(db) && t < |db.turns| && db.turns[t].state == Running && db.turns[t].session == s
    ensures TablesInv(FailTx(db, s, t, code, cancelled, now))
  {
    var row := EndedRow(db.turns[t], if cancelled then TurnCancelled else TurnFailed, code, now);
    assert s < |db.sessions| && TurnOk(db.turns[t]) && SessionOk(db.sessions[s]);
    if SessionTerminal(db.sessions[s].state) {
      LostTurnTables(db, t, row, code, db.sessions);
    } else {
      var srow := db.sessions[s].(state := Active, rank := Rank(Active), lastActivityAt := now);
      SessionKeepsCounters(db.sessions, db.usage, db.turns, s, srow, db.usage);
      LostTurnTables(db, t, row, code, db.sessions[s := srow]);
    }
  }

  lemma DiscardTables(db: Db, s: SessionId, t: TurnId, now: Time)
    requires TablesInv(db) && t < |db.turns| && db.turns[t].state == Running && s < |db.sessions|
    ensures TablesInv(db.(turns := db.turns[t := EndedRow(db.turns[t], TurnCancelled, StaleCode(db.sessions[s]), now)],
                          outbox := db.outbox + [TurnFailedEvent(t, StaleCode(db.sessions[s]))]))
  {
    assert TurnOk(db.turns[t]);
    LostTurnTables(db, t, EndedRow(db.turns[t], TurnCancelled, StaleCode(db.sessions[s]), now),
                   StaleCode(db.sessions[s]), db.sessions);
  }

  /** What a completing turn must hold. */
  ghost predicate Complete(db: Db, t: TurnId, o: TurnOutcome) {
    && ModelRange(db.modelPermits, t, o.toolIterations + 1)
    && RowKeys(db.toolRows, t) == KeysOf(o.toolCalls)
    && Distinct(KeysOf(o.toolCalls))
    && ToolRange(db.toolPermits, t, KeysOf(o.toolCalls), None)
  }

  lemma CompletedOutbox(turns: seq<TurnRow>, outbox: seq<Event>, t: TurnId, row: TurnRow, e: Event)
    requires EventPart(turns, outbox) && Neutral(e)
    requires t < |turns| && turns[t].state == Running && turns[t].errorCode == None && row.state == TurnCompleted
    ensures EventPart(turns[t := row], outbox + [TurnCompletedEvent(t), ResponseReady(t), e])
  {
    CompletedEvents(turns, outbox, t, row);
    NeutralEvent(turns[t := row], outbox + [TurnCompletedEvent(t)] + [ResponseReady(t)], e);
    assert outbox + [TurnCompletedEvent(t), ResponseReady(t), e]
        == outbox + [TurnCompletedEvent(t)] + [ResponseReady(t)] + [e];
  }

  /** Completing a turn moves its figures into its session's counters and usage. */
  lemma CreditedSession(sessions: seq<SessionRow>, usage: map<SessionId, Usage>, turns: seq<TurnRow>,
                        s: SessionId, row: SessionRow, t: TurnId, turn: TurnRow)
    requires SessionPart(sessions, usage, turns) && s < |sessions| && !SessionTerminal(sessions[s].state)
    requires t < |turns| && Ends(turns[t], turn) && turn.session == s && turn.state == TurnCompleted
    requires SessionOk(row) && row.turnCount == sessions[s].turnCount
    requires Counters(row) == Add(Counters(sessions[s]), Share(turn, s))
    ensures SessionPart(sessions[s := row], usage[s := UsageOf(row)], turns[t := turn])
  {
    var sessions', turns' := sessions[s := row], turns[t := turn];
    assert RankOk(sessions', turns);
    RankUpdate(sessions', turns, t, turn);
    forall x | 0 <= x < |sessions'| ensures Counters(sessions'[x]) == Sum(turns', x) {
      SumUpdate(turns, t, turn, x);
    }
  }

  lemma CompleteTables(db: Db, s: SessionId, t: TurnId, o: TurnOutcome, correlation: Option<string>, maxChars: nat,
                       now: Time)
    requires TablesInv(db) && t < |db.turns| && db.turns[t].state == Running && db.turns[t].session == s
    requires s < |db.sessions| && !SessionTerminal(db.sessions[s].state) && Complete(db, t, o)
    ensures TablesInv(FinishTx(db, s, t, o, correlation, maxChars, now))
  {
    var row := CompletedRow(db.turns[t], o, correlation, maxChars, now);
    var srow := CreditedRow(db.sessions[s], o, now);
    assert TurnOk(db.turns[t]) && SessionOk(db.sessions[s]);
    CreditedSession(db.sessions, db.usage, db.turns, s, srow, t, row);
    TurnEnds(db.turns, t, row);
    CompletedOutbox(db.turns, db.outbox, t, row, UsageRecorded(s, UsageOf(srow)));
    assert |KeysOf(o.toolCalls)| == |o.toolCalls|;
    DoneKept(db.turns, t, row, db.modelPermits, db.toolPermits, db.toolRows);
  }
}
