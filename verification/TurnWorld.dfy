/**
  Whole runs of the machine of `TurnLoop`: over any sequence of inputs, and over a `World` that answers
  every permit request, model call, tool execution and recording.
*/
module TurnWorld {
  import opened Prelude
  import opened TurnLoop
  import opened TurnLoopProofs

  datatype Input =
    | Granted
    | Sent
    | Replied(response: Response)
    | Executed(allowed: bool, ok: bool, payload: string)
    | Noted
    | Failed(code: Code)

  predicate Over(p: Phase) {
    p.Returned? || p.Raised?
  }

  /** One interaction; an input the phase does not wait for changes nothing. */
  ghost function Feed(limits: Limits, l: Loop, i: Input): Loop {
    match i
    case Granted =>
      if l.phase == NeedModelPermit then GrantModel(l) else if l.phase == NeedToolPermit then GrantTool(l) else l
    case Sent =>
      if l.phase == ModelPermitted then SendModel(l) else if l.phase == ToolPermitted then SendTool(l) else l
    case Replied(r) => if l.phase == AwaitModel then ReceiveModel(limits, l, r) else l
    case Executed(allowed, ok, payload) =>
      if l.phase == AwaitTool && l.work.pending != [] then ReceiveTool(l, allowed, ok, payload) else l
    case Noted =>
      if l.phase == NeedRecord && l.work.pending != [] && l.work.outcomes != [] then Recorded(limits, l) else l
    case Failed(code) => if Over(l.phase) then l else Abort(l, code)
  }

  ghost function Run(limits: Limits, l: Loop, inputs: seq<Input>): Loop {
    if inputs == [] then l
    else Feed(limits, Run(limits, l, inputs[..|inputs| - 1]), inputs[|inputs| - 1])
  }

  lemma FeedInv(limits: Limits, prompt: seq<Message>, l: Loop, i: Input)
    requires Inv(limits, prompt, l)
    ensures Inv(limits, prompt, Feed(limits, l, i))
  {
    match i
    case Replied(r) =>
      if l.phase == AwaitModel { ReceiveModelInv(limits, prompt, l, r); }
    case Executed(allowed, ok, payload) =>
      if l.phase == AwaitTool { ReceiveToolInv(limits, prompt, l, allowed, ok, payload); }
    case Noted =>
      if l.phase == NeedRecord { RecordedInv(limits, prompt, l); }
    case _ =>
  }

  lemma {:induction false} RunInv(limits: Limits, prompt: seq<Message>, inputs: seq<Input>)
    requires 0 <= limits.maxIterations
    ensures Inv(limits, prompt, Run(limits, Start(limits, prompt), inputs))
  {
    if inputs == [] {
      StartInv(limits, prompt);
    } else {
      var front := inputs[..|inputs| - 1];
      RunInv(limits, prompt, front);
      FeedInv(limits, prompt, Run(limits, Start(limits, prompt), front), inputs[|inputs| - 1]);
    }
  }

  /** Whatever the model and the tools answer: a model call sees only completely answered blocks,
      each call answered in order, under its own id, by the first execution of its key; the
      executions are the first occurrences of the requested keys; the budgets hold; and the raise
      after the loop is out of reach. */
  lemma {:induction false} MemoisedLoopRefinesReference(limits: Limits, prompt: seq<Message>, inputs: seq<Input>)
    requires 0 <= limits.maxIterations
    ensures var l := Run(limits, Start(limits, prompt), inputs);
      && |l.work.outcomes| <= limits.callsPerTurn
      && |l.work.replies| <= limits.maxIterations + 1
      && l.phase != Raised(NotConverged)
      && (ModelPhase(l.phase) ==>
            && l.work.iteration <= limits.maxIterations
            && l.work.messages == prompt + Render(l.work.replies, l.work.outcomes)
            && KeysOf(l.work.outcomes) == Firsts(KeysOfCalls(Flatten(l.work.replies))))
  {
    RunInv(limits, prompt, inputs);
    var w := Run(limits, Start(limits, prompt), inputs).work;
    var all := Flatten(w.replies);
    assert Peek(0);
    assert all[..|all|] == all;
  }

  lemma {:induction false} NegativeCeilingRaises(limits: Limits, prompt: seq<Message>, inputs: seq<Input>)
    requires limits.maxIterations < 0
    ensures Run(limits, Start(limits, prompt), inputs) == Start(limits, prompt)
    ensures Start(limits, prompt).phase == Raised(NotConverged)
  {
    if inputs != [] {
      NegativeCeilingRaises(limits, prompt, inputs[..|inputs| - 1]);
    }
  }

  // ----- the loop as executed ---------------------------------------------------------

  datatype ToolReply = ToolReply(allowed: bool, ok: bool, payload: string)

  /** The answers of the outside: grants and model calls by iteration, tools by execution number. */
  datatype World = World(modelGrant: nat -> Option<Code>, model: nat -> Result<Response, Code>,
                         toolGrant: nat -> Option<Code>, tool: nat -> Result<ToolReply, Code>,
                         note: nat -> Option<Code>)

  ghost function Grant(refusal: Option<Code>): Input {
    if refusal.Some? then Failed(refusal.value) else Granted
  }

  /** What the world answers to a loop in this phase. */
  ghost function Ask(world: World, l: Loop): Input {
    match l.phase
    case NeedModelPermit => Grant(world.modelGrant(l.work.iteration))
    case AwaitModel =>
      (match world.model(l.work.iteration) case Ok(r) => Replied(r) case Err(c) => Failed(c))
    case NeedToolPermit => Grant(world.toolGrant(|l.work.outcomes|))
    case AwaitTool =>
      (match world.tool(|l.work.outcomes|)
       case Ok(t) => Executed(t.allowed, t.ok, t.payload) case Err(c) => Failed(c))
    case NeedRecord =>
      if world.note(|l.work.outcomes|).Some? then Failed(world.note(|l.work.outcomes|).value) else Noted
    case _ => Sent
  }

  ghost function Iterate(limits: Limits, prompt: seq<Message>, world: World, n: nat): Loop {
    if n == 0 then Start(limits, prompt)
    else
      var l := Iterate(limits, prompt, world, n - 1);
      Feed(limits, l, Ask(world, l))
  }

  /** The machine, fed with the answers of the world, reaches `l`. */
  ghost predicate Reaches(limits: Limits, prompt: seq<Message>, world: World, l: Loop) {
    exists n: nat :: Iterate(limits, prompt, world, n) == l
  }

  lemma Advance(limits: Limits, prompt: seq<Message>, world: World, l: Loop, i: Input)
    requires Reaches(limits, prompt, world, l) && i == Ask(world, l)
    ensures Reaches(limits, prompt, world, Feed(limits, l, i))
  {
    var n: nat :| Iterate(limits, prompt, world, n) == l;
    assert Iterate(limits, prompt, world, n + 1) == Feed(limits, l, i);
  }

  lemma FeedOver(limits: Limits, l: Loop, i: Input)
    requires Over(l.phase)
    ensures Feed(limits, l, i) == l
  {
  }

  lemma OverNext(limits: Limits, prompt: seq<Message>, world: World, n: nat)
    ensures Over(Iterate(limits, prompt, world, n).phase) ==>
      Iterate(limits, prompt, world, n + 1) == Iterate(limits, prompt, world, n)
  {
    var l := Iterate(limits, prompt, world, n);
    if Over(l.phase) { FeedOver(limits, l, Ask(world, l)); }
  }

  ghost predicate StaysOver(states: nat -> Loop, n: nat) {
    Over(states(n).phase) ==> states(n + 1) == states(n)
  }

  lemma {:induction false} OverStays(states: nat -> Loop, n: nat, m: nat)
    requires n <= m && Over(states(n).phase) && forall i: nat :: StaysOver(states, i)
    ensures states(m) == states(n)
    decreases m
  {
    if n < m {
      OverStays(states, n, m - 1);
      assert StaysOver(states, m - 1);
    }
  }

  lemma OneEnd(states: nat -> Loop, n: nat, m: nat)
    requires Over(states(n).phase) && Over(states(m).phase) && forall i: nat :: StaysOver(states, i)
    ensures states(n) == states(m)
  {
    if n <= m {
      OverStays(states, n, m);
    } else {
      OverStays(states, m, n);
    }
  }

  /** On one world the loop has one end: whatever is reached and over is the same state. */
  lemma {:induction false} EndIsUnique(limits: Limits, prompt: seq<Message>, world: World, a: Loop, b: Loop)
    requires Reaches(limits, prompt, world, a) && Over(a.phase)
    requires Reaches(limits, prompt, world, b) && Over(b.phase)
    ensures a == b
  {
    ghost var states := (i: nat) => Iterate(limits, prompt, world, i);
    var n: nat :| Iterate(limits, prompt, world, n) == a;
    var m: nat :| Iterate(limits, prompt, world, m) == b;
    forall i: nat
      ensures StaysOver(states, i)
    {
      OverNext(limits, prompt, world, i);
    }
    OneEnd(states, n, m);
  }

  lemma {:induction false} IterateIsRun(limits: Limits, prompt: seq<Message>, world: World, n: nat)
    ensures exists inputs ::
      |inputs| == n && Iterate(limits, prompt, world, n) == Run(limits, Start(limits, prompt), inputs)
  {
    if n == 0 {
      assert Iterate(limits, prompt, world, 0) == Run(limits, Start(limits, prompt), []);
    } else {
      IterateIsRun(limits, prompt, world, n - 1);
      var front :| |front| == n - 1 && Iterate(limits, prompt, world, n - 1) ==
        Run(limits, Start(limits, prompt), front);
      var i := Ask(world, Iterate(limits, prompt, world, n - 1));
      assert (front + [i])[..n - 1] == front;
      assert Iterate(limits, prompt, world, n) == Run(limits, Start(limits, prompt), front + [i]);
    }
  }

  /** Permit and dispatch of a tool. */
  lemma AdvanceToolPermit(limits: Limits, prompt: seq<Message>, world: World, l: Loop)
    requires Reaches(limits, prompt, world, l) && l.phase == NeedToolPermit
    ensures match world.toolGrant(|l.work.outcomes|)
      case Some(c) => Reaches(limits, prompt, world, Abort(l, c))
      case None => Reaches(limits, prompt, world, SendTool(GrantTool(l)))
  {
    Advance(limits, prompt, world, l, Ask(world, l));
    if world.toolGrant(|l.work.outcomes|).None? {
      Advance(limits, prompt, world, GrantTool(l), Sent);
    }
  }

  /** The outcome of a dispatched tool. */
  lemma AdvanceToolReply(limits: Limits, prompt: seq<Message>, world: World, l: Loop)
    requires Reaches(limits, prompt, world, l) && l.phase == AwaitTool && l.work.pending != []
    ensures match world.tool(|l.work.outcomes|)
      case Err(c) => Reaches(limits, prompt, world, Abort(l, c))
      case Ok(t) => Reaches(limits, prompt, world, ReceiveTool(l, t.allowed, t.ok, t.payload))
  {
    Advance(limits, prompt, world, l, Ask(world, l));
  }

  /** The recording of an outcome. */
  lemma AdvanceToolNote(limits: Limits, prompt: seq<Message>, world: World, l: Loop)
    requires Reaches(limits, prompt, world, l) && l.phase == NeedRecord && l.work.pending != [] && l.work.outcomes != []
    ensures var note := world.note(|l.work.outcomes|);
      Reaches(limits, prompt, world, if note.Some? then Abort(l, note.value) else Recorded(limits, l))
  {
    Advance(limits, prompt, world, l, Ask(world, l));
  }

  /** One tool execution: permit, dispatch, outcome, recording. */
  lemma AdvanceTool(limits: Limits, prompt: seq<Message>, world: World, l: Loop)
    requires Reaches(limits, prompt, world, l)
    requires l.phase == NeedToolPermit && l.work.pending != []
    ensures var n := |l.work.outcomes|;
      match world.toolGrant(n)
      case Some(c) => Reaches(limits, prompt, world, Abort(l, c))
      case None =>
        var l2 := SendTool(GrantTool(l));
        match world.tool(n)
        case Err(c) => Reaches(limits, prompt, world, Abort(l2, c))
        case Ok(t) =>
          var l3 := ReceiveTool(l2, t.allowed, t.ok, t.payload);
          Reaches(limits, prompt, world,
                  if world.note(n + 1).Some? then Abort(l3, world.note(n + 1).value) else Recorded(limits, l3))
  {
    var n := |l.work.outcomes|;
    AdvanceToolPermit(limits, prompt, world, l);
    if world.toolGrant(n).None? {
      var l2 := SendTool(GrantTool(l));
      AdvanceToolReply(limits, prompt, world, l2);
      if world.tool(n).Ok? {
        var t := world.tool(n).value;
        AdvanceToolNote(limits, prompt, world, ReceiveTool(l2, t.allowed, t.ok, t.payload));
      }
    }
  }

  /** One model call: permit, dispatch, response. */
  lemma AdvanceModel(limits: Limits, prompt: seq<Message>, world: World, l: Loop)
    requires Reaches(limits, prompt, world, l) && l.phase == NeedModelPermit
    ensures var n := l.work.iteration;
      match world.modelGrant(n)
      case Some(c) => Reaches(limits, prompt, world, Abort(l, c))
      case None =>
        match world.model(n)
        case Err(c) => Reaches(limits, prompt, world, Abort(l, c))
        case Ok(r) => Reaches(limits, prompt, world, ReceiveModel(limits, SendModel(GrantModel(l)), r))
  {
    var n := l.work.iteration;
    Advance(limits, prompt, world, l, Ask(world, l));
    if world.modelGrant(n).None? {
      var l1 := GrantModel(l);
      Advance(limits, prompt, world, l1, Sent);
      var l2 := SendModel(l1);
      Advance(limits, prompt, world, l2, Ask(world, l2));
    }
  }

  // ----- what a turn's end says about the world ---------------------------------------

  lemma {:induction false} DrainKeeps(limits: Limits, w: Work, requested: nat)
    ensures Drain(limits, w, requested).work.replies == w.replies
    ensures Drain(limits, w, requested).work.outcomes == w.outcomes
    decreases |w.pending|
  {
    if w.pending != [] && requested + 1 <= limits.callsPerTurn && w.pending[0].Semantic() in w.executed {
      DrainKeeps(limits, Answer(w, w.executed[w.pending[0].Semantic()].payload), requested + 1);
    }
  }

  /** Every reply and every outcome is the world's own answer at its position. */
  ghost predicate Sourced(world: World, w: Work) {
    && (forall i | 0 <= i < |w.replies| :: world.model(i) == Ok(w.replies[i]))
    && (forall j | 0 <= j < |w.outcomes| ::
          world.tool(j) == Ok(ToolReply(w.outcomes[j].allowed, w.outcomes[j].ok, w.outcomes[j].payload)))
  }

  lemma ReplySourced(limits: Limits, world: World, l: Loop, r: Response)
    requires Sourced(world, l.work) && l.phase == AwaitModel
    requires l.work.iteration == |l.work.replies| && world.model(l.work.iteration) == Ok(r)
    ensures Sourced(world, ReceiveModel(limits, l, r).work)
  {
    DrainKeeps(limits, OpenBlock(Count(l.work, r), r), l.requested);
  }

  lemma OutcomeSourced(world: World, l: Loop, t: ToolReply)
    requires Sourced(world, l.work) && l.phase == AwaitTool
    requires l.work.pending != [] && world.tool(|l.work.outcomes|) == Ok(t)
    ensures Sourced(world, ReceiveTool(l, t.allowed, t.ok, t.payload).work)
  {
  }

  lemma RecordSourced(limits: Limits, world: World, l: Loop)
    requires Sourced(world, l.work) && l.phase == NeedRecord && l.work.pending != [] && l.work.outcomes != []
    ensures Sourced(world, Recorded(limits, l).work)
  {
    DrainKeeps(limits, Answer(l.work, l.work.outcomes[|l.work.outcomes| - 1].payload), l.requested);
  }

  lemma FeedSourced(limits: Limits, world: World, l: Loop)
    requires Sourced(world, l.work)
    requires l.phase == AwaitModel ==> l.work.iteration == |l.work.replies|
    ensures Sourced(world, Feed(limits, l, Ask(world, l)).work)
  {
    if l.phase == AwaitModel && world.model(l.work.iteration).Ok? {
      ReplySourced(limits, world, l, world.model(l.work.iteration).value);
    } else if l.phase == AwaitTool && l.work.pending != [] && world.tool(|l.work.outcomes|).Ok? {
      OutcomeSourced(world, l, world.tool(|l.work.outcomes|).value);
    } else if l.phase == NeedRecord && l.work.pending != [] && l.work.outcomes != [] {
      RecordSourced(limits, world, l);
    } else {
      assert Feed(limits, l, Ask(world, l)).work == l.work;
    }
  }

  /** Every state of a world is the state of some input sequence, so what holds of those holds of it. */
  lemma IterateInv(limits: Limits, prompt: seq<Message>, world: World, n: nat)
    requires 0 <= limits.maxIterations
    ensures Inv(limits, prompt, Iterate(limits, prompt, world, n))
  {
    IterateIsRun(limits, prompt, world, n);
    var inputs :| |inputs| == n && Iterate(limits, prompt, world, n) == Run(limits, Start(limits, prompt), inputs);
    RunInv(limits, prompt, inputs);
  }

  lemma {:induction false} IterateSourced(limits: Limits, prompt: seq<Message>, world: World, n: nat)
    requires 0 <= limits.maxIterations
    ensures Sourced(world, Iterate(limits, prompt, world, n).work)
  {
    if n > 0 {
      IterateSourced(limits, prompt, world, n - 1);
      IterateInv(limits, prompt, world, n - 1);
      FeedSourced(limits, world, Iterate(limits, prompt, world, n - 1));
    }
  }

  ghost function Replies(world: World, n: nat): seq<Response>
    requires forall i | 0 <= i < n :: world.model(i).Ok?
  {
    seq(n, i requires 0 <= i < n => world.model(i).value)
  }

  /** The memo-free meaning of a returned turn: the first `toolIterations` answers of the model all
      asked for tools and were answered in full, the next one is the final answer, and the
      executions are the world's tool answers for the first occurrences of the requested keys. */
  ghost predicate Explained(limits: Limits, prompt: seq<Message>, world: World, o: TurnOutcome,
                            messages: seq<Message>) {
    var n := o.toolIterations;
    && n <= limits.maxIterations
    && (forall i | 0 <= i < n + 1 :: world.model(i).Ok?)
    && (forall i | 0 <= i < n :: WantsTools(world.model(i).value))
    && var rs := Replies(world, n);
       var final := world.model(n).value;
       && !WantsTools(final)
       && o.content == final.content && o.finish == final.finish
       && o.inputTokens == InputSum(rs) + final.inputTokens
       && o.outputTokens == OutputSum(rs) + final.outputTokens
       && |Flatten(rs)| <= limits.callsPerTurn
       && KeysOf(o.toolCalls) == Firsts(KeysOfCalls(Flatten(rs)))
       && messages == prompt + Render(rs, o.toolCalls)
       && (forall j | 0 <= j < |o.toolCalls| ::
             world.tool(j) == Ok(ToolReply(o.toolCalls[j].allowed, o.toolCalls[j].ok, o.toolCalls[j].payload)))
  }

  lemma ReturnExplained(limits: Limits, prompt: seq<Message>, world: World, l: Loop)
    requires Inv(limits, prompt, l) && Sourced(world, l.work) && l.phase.Returned?
    ensures Explained(limits, prompt, world, l.phase.outcome, l.work.messages)
  {
    var w, o := l.work, l.phase.outcome;
    var n := o.toolIterations;
    assert Earlier(w) == Replies(world, n) by {
      forall i | 0 <= i < n ensures Earlier(w)[i] == Replies(world, n)[i] {
        assert world.model(i) == Ok(w.replies[i]);
      }
    }
    assert world.model(n) == Ok(Last(w));
    assert Peek(0);
    var all := Flatten(Earlier(w));
    assert all[..|all|] == all;
  }

  /** Of every state the machine reaches on this world. */
  lemma {:induction false} ReachedEnd(limits: Limits, prompt: seq<Message>, world: World, l: Loop)
    requires Reaches(limits, prompt, world, l)
    ensures l.phase == Raised(NotConverged) <==> limits.maxIterations < 0
    ensures l.phase.Returned? ==> Explained(limits, prompt, world, l.phase.outcome, l.work.messages)
  {
    var n: nat :| Iterate(limits, prompt, world, n) == l;
    if 0 <= limits.maxIterations {
      IterateInv(limits, prompt, world, n);
      IterateSourced(limits, prompt, world, n);
      if l.phase.Returned? { ReturnExplained(limits, prompt, world, l); }
    } else {
      IterateIsRun(limits, prompt, world, n);
      var inputs :| |inputs| == n && l == Run(limits, Start(limits, prompt), inputs);
      NegativeCeilingRaises(limits, prompt, inputs);
    }
  }
}
