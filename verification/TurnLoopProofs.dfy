/**
  Every state the turn loop can reach agrees with the memo-free reference: the transcript is the
  reference conversation, the executions are the first occurrences of the requested keys, and the
  budgets hold.
*/
module TurnLoopProofs {
  import opened Prelude
  import opened TurnLoop

  // ----- facts about the reference --------------------------------------------------

  lemma {:induction false} FirstsProperties(ks: seq<Key>)
    ensures forall k :: k in Firsts(ks) <==> k in ks
    ensures forall i, j | 0 <= i < j < |Firsts(ks)| :: Firsts(ks)[i] != Firsts(ks)[j]
    ensures |Firsts(ks)| <= |ks|
  {
    if ks != [] {
      var front := ks[..|ks| - 1];
      FirstsProperties(front);
      assert ks == front + [ks[|ks| - 1]];
    }
  }

  lemma FirstsSnoc(ks: seq<Key>, k: Key)
    ensures Firsts(ks + [k]) == if k in ks then Firsts(ks) else Firsts(ks) + [k]
  {
    assert (ks + [k])[..|ks|] == ks;
  }

  lemma FlattenSnoc(rs: seq<Response>, r: Response)
    ensures Flatten(rs + [r]) == Flatten(rs) + r.calls
  {
    assert (rs + [r])[..|rs|] == rs;
  }

  lemma {:induction false} PayloadIsFirst(os: seq<Outcome>, j: nat)
    requires j < |os|
    requires forall i | 0 <= i < j :: os[i].key != os[j].key
    ensures PayloadOf(os, os[j].key) == os[j].payload
  {
    if j > 0 {
      assert os[1..][j - 1] == os[j];
      forall i | 0 <= i < j - 1 ensures os[1..][i].key != os[j].key {
        assert os[1..][i] == os[i + 1];
      }
      PayloadIsFirst(os[1..], j - 1);
    }
  }

  lemma {:induction false} PayloadStable(os: seq<Outcome>, o: Outcome, k: Key)
    requires k in KeysOf(os)
    ensures PayloadOf(os + [o], k) == PayloadOf(os, k)
  {
    assert os != [];
    if os[0].key != k {
      assert (os + [o])[1..] == os[1..] + [o];
      var j :| 0 <= j < |os| && os[j].key == k;
      assert KeysOf(os[1..])[j - 1] == k;
      PayloadStable(os[1..], o, k);
    }
  }

  lemma AnswersStable(cs: seq<Call>, os: seq<Outcome>, o: Outcome)
    requires forall i | 0 <= i < |cs| :: cs[i].Semantic() in KeysOf(os)
    ensures Answers(cs, os + [o]) == Answers(cs, os)
  {
    forall i | 0 <= i < |cs| ensures Answers(cs, os + [o])[i] == Answers(cs, os)[i] {
      PayloadStable(os, o, cs[i].Semantic());
    }
  }

  lemma {:induction false} RenderStable(rs: seq<Response>, os: seq<Outcome>, o: Outcome)
    requires forall i | 0 <= i < |Flatten(rs)| :: Flatten(rs)[i].Semantic() in KeysOf(os)
    ensures Render(rs, os + [o]) == Render(rs, os)
  {
    if rs != [] {
      var init, r := rs[..|rs| - 1], rs[|rs| - 1];
      var n := |Flatten(init)|;
      forall i | 0 <= i < n ensures Flatten(init)[i].Semantic() in KeysOf(os) {
        assert Flatten(rs)[i] == Flatten(init)[i];
      }
      forall i | 0 <= i < |r.calls| ensures r.calls[i].Semantic() in KeysOf(os) {
        assert Flatten(rs)[n + i] == r.calls[i];
      }
      RenderStable(init, os, o);
      AnswersStable(r.calls, os, o);
    }
  }

  // ----- the invariant ----------------------------------------------------------------

  predicate ModelPhase(p: Phase) {
    p.NeedModelPermit? || p.ModelPermitted? || p.AwaitModel?
  }

  /** The cache holds exactly the outcomes, under their own keys. */
  ghost predicate Cached(executed: map<Key, Outcome>, outcomes: seq<Outcome>) {
    && (forall k :: k in executed <==> k in KeysOf(outcomes))
    && (forall j | 0 <= j < |outcomes| ::
          outcomes[j].key in executed && executed[outcomes[j].key] == outcomes[j])
  }

  /** The executions are the first occurrences among the first `known` requested calls. */
  ghost predicate Memo(executed: map<Key, Outcome>, outcomes: seq<Outcome>, blocks: seq<Response>, known: nat) {
    && known <= |Flatten(blocks)|
    && forall n: nat :: Peek(n) ==>
         KeysOf(outcomes) == Firsts(KeysOfCalls(Flatten(blocks)[..known])) && Cached(executed, outcomes)
  }

  function Last(w: Work): Response
    requires w.replies != []
  {
    w.replies[|w.replies| - 1]
  }

  function Earlier(w: Work): seq<Response>
    requires w.replies != []
  {
    w.replies[..|w.replies| - 1]
  }

  /** How many calls of the last block are answered. */
  function Taken(w: Work): int
    requires w.replies != []
  {
    |Last(w).calls| - |w.pending|
  }

  /** How many calls of the turn are answered. */
  function Answered(w: Work): int
    requires w.replies != []
  {
    |Flatten(Earlier(w))| + Taken(w)
  }

  /** Inside the block of the last reply: the calls before `pending` are answered, the rest are not. */
  ghost predicate InBlock(limits: Limits, prompt: seq<Message>, w: Work) {
    && w.replies != []
    && w.iteration + 1 == |w.replies|
    && w.iteration < limits.maxIterations
    && WantsTools(Last(w))
    && 0 <= Taken(w)
    && w.pending == Last(w).calls[Taken(w)..]
    && forall n: nat :: Peek(n) ==> w.messages == PartTranscript(prompt, w)
  }

  /** The messages with the calls before `pending` answered. */
  ghost function PartTranscript(prompt: seq<Message>, w: Work): seq<Message>
    requires w.replies != [] && 0 <= Taken(w)
  {
    prompt + Render(Earlier(w), w.outcomes) + [Assistant(Last(w).content, Last(w).calls)]
    + Answers(Last(w).calls[..Taken(w)], w.outcomes)
  }

  /** Between blocks: every assistant block so far is completely answered. */
  ghost predicate BetweenBlocks(prompt: seq<Message>, w: Work, blocks: seq<Response>) {
    && w.pending == []
    && w.messages == prompt + Render(blocks, w.outcomes)
    && Memo(w.executed, w.outcomes, blocks, |Flatten(blocks)|)
  }

  ghost predicate Totals(limits: Limits, w: Work) {
    && w.inputTokens == InputSum(w.replies)
    && w.outputTokens == OutputSum(w.replies)
    && |w.outcomes| <= limits.callsPerTurn
    && |w.replies| <= limits.maxIterations + 1
    && (forall i | 0 <= i < |w.replies| :: Validate(limits, w.replies[i]).None?)
    && (forall i | 0 <= i < |w.replies| && i < w.iteration :: WantsTools(w.replies[i]))
  }

  ghost predicate AtModel(limits: Limits, prompt: seq<Message>, w: Work, requested: nat) {
    && w.iteration == |w.replies| <= limits.maxIterations
    && requested == |Flatten(w.replies)| <= limits.callsPerTurn
    && BetweenBlocks(prompt, w, w.replies)
  }

  ghost predicate BeforeTool(limits: Limits, prompt: seq<Message>, w: Work, requested: nat) {
    && InBlock(limits, prompt, w) && w.pending != []
    && requested == Answered(w) + 1 <= limits.callsPerTurn
    && Memo(w.executed, w.outcomes, w.replies, Answered(w))
    && w.pending[0].Semantic() !in w.executed
  }

  ghost predicate AfterTool(limits: Limits, prompt: seq<Message>, w: Work, requested: nat) {
    && InBlock(limits, prompt, w) && w.pending != [] && w.outcomes != []
    && requested == Answered(w) + 1 <= limits.callsPerTurn
    && Memo(w.executed, w.outcomes, w.replies, Answered(w) + 1)
    && w.outcomes[|w.outcomes| - 1].key == w.pending[0].Semantic()
  }

  ghost predicate AtReturn(limits: Limits, prompt: seq<Message>, w: Work, requested: nat, o: TurnOutcome) {
    && w.replies != []
    && w.iteration + 1 == |w.replies|
    && !WantsTools(Last(w))
    && BetweenBlocks(prompt, w, Earlier(w))
    && requested == |Flatten(Earlier(w))| <= limits.callsPerTurn
    && o == OutcomeOf(w, Last(w))
  }

  ghost predicate PhaseInv(limits: Limits, prompt: seq<Message>, l: Loop) {
    match l.phase
    case NeedModelPermit => AtModel(limits, prompt, l.work, l.requested)
    case ModelPermitted => AtModel(limits, prompt, l.work, l.requested)
    case AwaitModel => AtModel(limits, prompt, l.work, l.requested)
    case NeedToolPermit => BeforeTool(limits, prompt, l.work, l.requested)
    case ToolPermitted => BeforeTool(limits, prompt, l.work, l.requested)
    case AwaitTool => BeforeTool(limits, prompt, l.work, l.requested)
    case NeedRecord => AfterTool(limits, prompt, l.work, l.requested)
    case Returned(o) => AtReturn(limits, prompt, l.work, l.requested, o)
    case Raised(f) => f != NotConverged
  }

  /** The invariant of every loop whose iteration ceiling is not negative. */
  ghost predicate Inv(limits: Limits, prompt: seq<Message>, l: Loop) {
    && Totals(limits, l.work)
    && PhaseInv(limits, prompt, l)
  }

  // ----- preservation -------------------------------------------------------------------

  lemma StartInv(limits: Limits, prompt: seq<Message>)
    requires 0 <= limits.maxIterations
    ensures Inv(limits, prompt, Start(limits, prompt))
  {
    var w := Start(limits, prompt).work;
    assert w.messages == prompt + Render([], []);
    assert KeysOfCalls(Flatten([])[..0]) == [];
  }

  lemma CachedPayload(w: Work, blocks: seq<Response>, known: nat, k: Key)
    requires Memo(w.executed, w.outcomes, blocks, known) && k in w.executed
    ensures PayloadOf(w.outcomes, k) == w.executed[k].payload
  {
    assert Peek(0);
    var j :| 0 <= j < |w.outcomes| && KeysOf(w.outcomes)[j] == k;
    FirstsProperties(KeysOfCalls(Flatten(blocks)[..known]));
    forall i | 0 <= i < j ensures w.outcomes[i].key != w.outcomes[j].key {
      assert KeysOf(w.outcomes)[i] != KeysOf(w.outcomes)[j];
    }
    PayloadIsFirst(w.outcomes, j);
  }

  lemma MemoKeys(w: Work, blocks: seq<Response>, known: nat)
    requires Memo(w.executed, w.outcomes, blocks, known)
    ensures forall i | 0 <= i < known :: Flatten(blocks)[i].Semantic() in KeysOf(w.outcomes)
    ensures |w.outcomes| <= known
  {
    assert Peek(0);
    var ks := KeysOfCalls(Flatten(blocks)[..known]);
    FirstsProperties(ks);
    forall i | 0 <= i < known ensures Flatten(blocks)[i].Semantic() in KeysOf(w.outcomes) {
      assert ks[i] == Flatten(blocks)[i].Semantic();
    }
    assert |KeysOf(w.outcomes)| == |w.outcomes|;
  }

  /** A key the cache does not hold is the key of no outcome. */
  lemma FreshKey(w: Work, blocks: seq<Response>, known: nat, k: Key)
    requires Memo(w.executed, w.outcomes, blocks, known) && k !in w.executed
    ensures k !in KeysOf(w.outcomes)
  {
    assert Peek(0);
  }

  /** One more answered call inside the block. */
  lemma AnswerOne(limits: Limits, prompt: seq<Message>, w: Work, payload: string)
    requires w.pending != [] && payload == PayloadOf(w.outcomes, w.pending[0].Semantic())
    ensures var w' := Answer(w, payload);
      InBlock(limits, prompt, w) ==> InBlock(limits, prompt, w') && Answered(w') == Answered(w) + 1
  {
    if InBlock(limits, prompt, w) {
      assert Peek(0);
      var calls, t := Last(w).calls, Taken(w);
      assert calls[t] == w.pending[0];
      assert calls[t..][1..] == calls[t + 1..];
      assert Answers(calls[..t + 1], w.outcomes) ==
             Answers(calls[..t], w.outcomes) + [ToolResult(calls[t].id, PayloadOf(w.outcomes, calls[t].Semantic()))];
    }
  }

  lemma NextCall(limits: Limits, prompt: seq<Message>, w: Work)
    requires InBlock(limits, prompt, w) && w.pending != []
    ensures Answered(w) < |Flatten(w.replies)| && Flatten(w.replies)[Answered(w)] == w.pending[0]
  {
  }

  /** Taking one more call of a key already executed leaves the executions as they are. */
  lemma MemoRepeat(w: Work, blocks: seq<Response>, known: nat)
    requires Memo(w.executed, w.outcomes, blocks, known) && known < |Flatten(blocks)|
    requires Flatten(blocks)[known].Semantic() in w.executed
    ensures Memo(w.executed, w.outcomes, blocks, known + 1)
  {
    assert Peek(0);
    var all := Flatten(blocks);
    var ks, k := KeysOfCalls(all[..known]), all[known].Semantic();
    assert KeysOfCalls(all[..known + 1]) == ks + [k];
    FirstsSnoc(ks, k);
    FirstsProperties(ks);
  }

  lemma CachedRemember(w: Work, o: Outcome)
    requires Cached(w.executed, w.outcomes) && o.key !in w.executed
    ensures Cached(w.executed[o.key := o], w.outcomes + [o])
    ensures KeysOf(Remember(w, o).outcomes) == KeysOf(w.outcomes) + [o.key]
  {
    var w' := Remember(w, o);
    assert KeysOf(w'.outcomes) == KeysOf(w.outcomes) + [o.key];
    forall k ensures k in w'.executed <==> k in KeysOf(w'.outcomes) {
      if k == o.key { assert KeysOf(w'.outcomes)[|w.outcomes|] == k; }
    }
    forall j | 0 <= j < |w'.outcomes| ensures w'.executed[w'.outcomes[j].key] == w'.outcomes[j] {
      if j < |w.outcomes| { assert KeysOf(w.outcomes)[j] == w.outcomes[j].key; }
    }
  }

  /** Taking one more call of a new key appends its execution. */
  lemma MemoNew(w: Work, blocks: seq<Response>, known: nat, o: Outcome)
    requires Memo(w.executed, w.outcomes, blocks, known) && known < |Flatten(blocks)|
    requires Flatten(blocks)[known].Semantic() == o.key && o.key !in w.executed
    ensures Memo(w.executed[o.key := o], w.outcomes + [o], blocks, known + 1)
  {
    assert Peek(0);
    var all := Flatten(blocks);
    var ks := KeysOfCalls(all[..known]);
    assert KeysOfCalls(all[..known + 1]) == ks + [o.key];
    FirstsSnoc(ks, o.key);
    FirstsProperties(ks);
    CachedRemember(w, o);
  }

  /** A new execution changes no answer already given. */
  lemma TranscriptStable(limits: Limits, prompt: seq<Message>, w: Work, o: Outcome)
    requires InBlock(limits, prompt, w)
    requires Memo(w.executed, w.outcomes, w.replies, Answered(w))
    ensures InBlock(limits, prompt, Remember(w, o))
  {
    assert Peek(0);
    var n := |Flatten(Earlier(w))|;
    var all := Flatten(w.replies);
    assert all == Flatten(Earlier(w)) + Last(w).calls;
    MemoKeys(w, w.replies, Answered(w));
    forall i | 0 <= i < n ensures Flatten(Earlier(w))[i].Semantic() in KeysOf(w.outcomes) {
      assert all[i] == Flatten(Earlier(w))[i];
    }
    forall i | 0 <= i < Taken(w) ensures Last(w).calls[..Taken(w)][i].Semantic() in KeysOf(w.outcomes) {
      assert all[n + i] == Last(w).calls[i];
    }
    RenderStable(Earlier(w), w.outcomes, o);
    AnswersStable(Last(w).calls[..Taken(w)], w.outcomes, o);
  }

  /** The entry condition of `Drain`: everything before `pending` is answered. */
  ghost predicate DrainEntry(limits: Limits, prompt: seq<Message>, w: Work, requested: nat) {
    && Totals(limits, w) && InBlock(limits, prompt, w)
    && requested == Answered(w) <= limits.callsPerTurn
    && Memo(w.executed, w.outcomes, w.replies, Answered(w))
  }

  ghost predicate Draining(limits: Limits, prompt: seq<Message>, w: Work, requested: nat) {
    forall n: nat :: Glance(n) ==> DrainEntry(limits, prompt, w, requested)
  }

  lemma DrainOpen(limits: Limits, prompt: seq<Message>, w: Work, requested: nat)
    requires Draining(limits, prompt, w, requested)
    ensures DrainEntry(limits, prompt, w, requested)
  {
    assert Glance(0);
  }

  lemma AnswerKeepsTotals(limits: Limits, w: Work, payload: string)
    requires w.pending != []
    ensures Totals(limits, w) ==> Totals(limits, Answer(w, payload))
  {
  }

  /** An answered call leads to the entry condition again, once the outcomes cover it. */
  lemma AnswerDrains(limits: Limits, prompt: seq<Message>, w: Work, payload: string, requested: nat)
    requires w.pending != [] && payload == PayloadOf(w.outcomes, w.pending[0].Semantic())
    ensures (Totals(limits, w) && InBlock(limits, prompt, w) && requested == Answered(w) + 1 <= limits.callsPerTurn
             && Memo(w.executed, w.outcomes, w.replies, requested))
            ==> Draining(limits, prompt, Answer(w, payload), requested)
  {
    AnswerOne(limits, prompt, w, payload);
    AnswerKeepsTotals(limits, w, payload);
  }

  lemma DrainRepeat(limits: Limits, prompt: seq<Message>, w: Work, requested: nat)
    requires Draining(limits, prompt, w, requested) && w.pending != []
    requires requested < limits.callsPerTurn && w.pending[0].Semantic() in w.executed
    ensures Draining(limits, prompt, Answer(w, w.executed[w.pending[0].Semantic()].payload), requested + 1)
  {
    DrainOpen(limits, prompt, w, requested);
    CachedPayload(w, w.replies, Answered(w), w.pending[0].Semantic());
    NextCall(limits, prompt, w);
    MemoRepeat(w, w.replies, Answered(w));
    AnswerDrains(limits, prompt, w, w.executed[w.pending[0].Semantic()].payload, requested + 1);
  }

  /** The block's calls are all answered: the transcript is complete. */
  lemma BlockDone(limits: Limits, prompt: seq<Message>, w: Work)
    requires InBlock(limits, prompt, w) && w.pending == []
    ensures w.messages == prompt + Render(w.replies, w.outcomes) && |Flatten(w.replies)| == Answered(w)
  {
    assert Peek(0);
    assert Last(w).calls[..Taken(w)] == Last(w).calls;
  }

  lemma DoneTotals(limits: Limits, prompt: seq<Message>, w: Work)
    requires Totals(limits, w) && InBlock(limits, prompt, w)
    ensures Totals(limits, w.(iteration := w.iteration + 1))
  {
    var w' := w.(iteration := w.iteration + 1);
    forall i | 0 <= i < |w'.replies| && i < w'.iteration ensures WantsTools(w'.replies[i]) {
      if i == |w'.replies| - 1 { assert w'.replies[i] == Last(w); }
    }
  }

  /** The next model call sees complete blocks only. */
  lemma DrainDone(limits: Limits, prompt: seq<Message>, w: Work, requested: nat)
    requires Draining(limits, prompt, w, requested) && w.pending == []
    ensures Inv(limits, prompt, Loop(w.(iteration := w.iteration + 1), requested, NeedModelPermit))
  {
    DrainOpen(limits, prompt, w, requested);
    BlockDone(limits, prompt, w);
    DoneTotals(limits, prompt, w);
  }

  lemma DrainNew(limits: Limits, prompt: seq<Message>, w: Work, requested: nat)
    requires Draining(limits, prompt, w, requested) && w.pending != []
    requires requested < limits.callsPerTurn && w.pending[0].Semantic() !in w.executed
    ensures Inv(limits, prompt, Loop(w, requested + 1, NeedToolPermit))
  {
    DrainOpen(limits, prompt, w, requested);
    assert BeforeTool(limits, prompt, w, requested + 1);
  }

  lemma DrainOver(limits: Limits, prompt: seq<Message>, w: Work, requested: nat)
    requires Draining(limits, prompt, w, requested)
    ensures Inv(limits, prompt, Loop(w, requested + 1, Raised(BudgetExhausted)))
  {
    DrainOpen(limits, prompt, w, requested);
  }

  lemma {:induction false} DrainInv(limits: Limits, prompt: seq<Message>, w: Work, requested: nat)
    requires Draining(limits, prompt, w, requested)
    ensures Inv(limits, prompt, Drain(limits, w, requested))
    decreases |w.pending|
  {
    if w.pending == [] {
      DrainDone(limits, prompt, w, requested);
    } else if requested >= limits.callsPerTurn {
      DrainOver(limits, prompt, w, requested);
      assert Drain(limits, w, requested) == Loop(w, requested + 1, Raised(BudgetExhausted));
    } else if w.pending[0].Semantic() in w.executed {
      var w' := Answer(w, w.executed[w.pending[0].Semantic()].payload);
      assert Drain(limits, w, requested) == Drain(limits, w', requested + 1);
      DrainRepeat(limits, prompt, w, requested);
      DrainInv(limits, prompt, w', requested + 1);
    } else {
      DrainNew(limits, prompt, w, requested);
      assert Drain(limits, w, requested) == Loop(w, requested + 1, NeedToolPermit);
    }
  }

  /** A validated reply is counted once, in the totals and among the replies. */
  lemma CountInv(limits: Limits, w: Work, r: Response)
    requires Totals(limits, w) && Validate(limits, r).None?
    requires w.iteration == |w.replies| <= limits.maxIterations
    ensures Totals(limits, Count(w, r))
  {
    assert Count(w, r).replies[..|w.replies|] == w.replies;
  }

  lemma OpenBlockInv(limits: Limits, prompt: seq<Message>, w: Work, requested: nat, r: Response)
    requires Totals(limits, w) && AtModel(limits, prompt, w, requested)
    requires WantsTools(r) && w.iteration < limits.maxIterations && Validate(limits, r).None?
    ensures Draining(limits, prompt, OpenBlock(Count(w, r), r), requested)
  {
    var w' := OpenBlock(Count(w, r), r);
    CountInv(limits, w, r);
    FlattenSnoc(w.replies, r);
    assert Earlier(w') == w.replies && Last(w') == r && Taken(w') == 0;
    assert Answers(r.calls[..0], w'.outcomes) == [];
    assert r.calls[0..] == r.calls;
    assert Flatten(w'.replies)[..requested] == Flatten(w.replies)[..requested];
    assert InBlock(limits, prompt, w');
  }

  lemma ReceiveModelInv(limits: Limits, prompt: seq<Message>, l: Loop, r: Response)
    requires Inv(limits, prompt, l) && l.phase == AwaitModel
    ensures Inv(limits, prompt, ReceiveModel(limits, l, r))
  {
    if Validate(limits, r).None? {
      var w := Count(l.work, r);
      CountInv(limits, l.work, r);
      if !WantsTools(r) {
        assert Earlier(w) == l.work.replies && Last(w) == r;
        assert BetweenBlocks(prompt, w, l.work.replies);
      } else if w.iteration < limits.maxIterations && |r.calls| <= limits.callsPerResponse {
        OpenBlockInv(limits, prompt, l.work, l.requested, r);
        DrainInv(limits, prompt, OpenBlock(w, r), l.requested);
      }
    }
  }

  lemma RememberInv(limits: Limits, prompt: seq<Message>, w: Work, requested: nat, o: Outcome)
    requires BeforeTool(limits, prompt, w, requested) && o.key == w.pending[0].Semantic()
    ensures AfterTool(limits, prompt, Remember(w, o), requested)
    ensures |w.outcomes| < requested
  {
    NextCall(limits, prompt, w);
    TranscriptStable(limits, prompt, w, o);
    MemoNew(w, w.replies, Answered(w), o);
    MemoKeys(w, w.replies, Answered(w));
  }

  lemma ReceiveToolInv(limits: Limits, prompt: seq<Message>, l: Loop, allowed: bool, ok: bool, payload: string)
    requires Inv(limits, prompt, l) && l.phase == AwaitTool
    ensures Inv(limits, prompt, ReceiveTool(l, allowed, ok, payload))
  {
    RememberInv(limits, prompt, l.work, l.requested, Outcome(l.work.pending[0].Semantic(), allowed, ok, payload));
  }

  lemma LastPayload(w: Work, blocks: seq<Response>, known: nat)
    requires Memo(w.executed, w.outcomes, blocks, known) && w.outcomes != []
    ensures var o := w.outcomes[|w.outcomes| - 1]; o.key in w.executed && PayloadOf(w.outcomes, o.key) == o.payload
  {
    assert Peek(0);
    var o := w.outcomes[|w.outcomes| - 1];
    assert KeysOf(w.outcomes)[|w.outcomes| - 1] == o.key;
    CachedPayload(w, blocks, known, o.key);
  }

  lemma RecordedDraining(limits: Limits, prompt: seq<Message>, w: Work, requested: nat)
    requires Totals(limits, w) && AfterTool(limits, prompt, w, requested)
    ensures Draining(limits, prompt, Answer(w, w.outcomes[|w.outcomes| - 1].payload), requested)
  {
    LastPayload(w, w.replies, requested);
    AnswerDrains(limits, prompt, w, w.outcomes[|w.outcomes| - 1].payload, requested);
  }

  lemma RecordedInv(limits: Limits, prompt: seq<Message>, l: Loop)
    requires Inv(limits, prompt, l) && l.phase == NeedRecord
    ensures Inv(limits, prompt, Recorded(limits, l))
  {
    RecordedDraining(limits, prompt, l.work, l.requested);
    DrainInv(limits, prompt, Answer(l.work, l.work.outcomes[|l.work.outcomes| - 1].payload), l.requested);
  }
}
