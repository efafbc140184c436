/**
  How a turn ends, said of its limits and its world alone: no machine, no cache, no order of steps.
  A turn returns at the first reply that asks for no tools, provided everything before it went well;
  otherwise the first thing that did not go well is what it raises.
*/
module TurnEnd {
  import opened Prelude
  import opened TurnLoop
  import opened TurnLoopProofs
  import opened TurnWorld

  // ----- one reply ----------------------------------------------------------------------

  predicate Acceptable(limits: Limits, r: Response) {
    && |r.content| <= limits.outputChars
    && (forall i, j | 0 <= i < j < |r.calls| :: r.calls[i].id != r.calls[j].id)
    && (forall i | 0 <= i < |r.calls| ::
          && 0 < |r.calls[i].name| <= 96
          && r.calls[i].depth <= limits.argumentDepth && r.calls[i].bytes <= limits.argumentBytes)
  }

  /** What the checks on a reply answer, each with its own guard. */
  ghost predicate Checked(limits: Limits, r: Response, fault: Option<Fault>) {
    var short := |r.content| <= limits.outputChars;
    var repeated := exists i, j | 0 <= i < j < |r.calls| :: r.calls[i].id == r.calls[j].id;
    var ill := exists i | 0 <= i < |r.calls| ::
      r.calls[i].name == "" || |r.calls[i].name| > 96
      || r.calls[i].depth > limits.argumentDepth || r.calls[i].bytes > limits.argumentBytes;
    && (fault == None <==> short && !repeated && !ill)
    && (fault == Some(ContentOverLimit) <==> !short)
    && (fault == Some(DuplicateCallIds) <==> short && repeated)
    && (fault == Some(BadStructure) <==> short && !repeated && ill)
  }

  predicate Asks(r: Response) {
    r.calls != [] && r.finish == ToolCalls
  }

  lemma ChecksAccept(limits: Limits, r: Response, fault: Option<Fault>)
    requires Checked(limits, r, fault)
    ensures fault == None <==> Acceptable(limits, r)
  {
  }

  lemma {:induction false} ValidateExactly(limits: Limits, r: Response)
    ensures Checked(limits, r, Validate(limits, r))
  {
    if i :| 0 <= i < |r.calls| && (r.calls[i].name == "" || |r.calls[i].name| > 96
                                   || r.calls[i].depth > limits.argumentDepth
                                   || r.calls[i].bytes > limits.argumentBytes) {
      assert !WellStructured(limits, r.calls[i]);
    }
  }

  // ----- one iteration ------------------------------------------------------------------

  /** The model call of iteration `n` is permitted and answered by an acceptable reply. */
  ghost predicate Heard(limits: Limits, world: World, n: nat) {
    world.modelGrant(n) == None && world.model(n).Ok? && Acceptable(limits, world.model(n).value)
  }

  /** Iteration `n` ends in a block of tool calls that may be executed. */
  ghost predicate Asked(limits: Limits, world: World, n: nat) {
    && Heard(limits, world, n) && Asks(world.model(n).value)
    && n < limits.maxIterations && |world.model(n).value.calls| <= limits.callsPerResponse
  }

  ghost predicate Concludes(limits: Limits, world: World, n: nat) {
    Heard(limits, world, n) && !Asks(world.model(n).value)
  }

  /** Iteration `n` stops the turn before any of its tool calls. */
  ghost predicate ModelStops(limits: Limits, world: World, n: nat, f: Fault) {
    match world.modelGrant(n)
    case Some(c) => f == External(c)
    case None =>
      match world.model(n)
      case Err(c) => f == External(c)
      case Ok(r) =>
        if !Acceptable(limits, r) then Checked(limits, r, Some(f))
        else if !Asks(r) then false
        else if n >= limits.maxIterations then f == IterationCeiling
        else |r.calls| > limits.callsPerResponse && f == TooManyCalls
  }

  // ----- the tool calls of a turn -------------------------------------------------------

  /** Execution number `e` fails: its permit, itself, or its recording. */
  ghost function ExecutionFault(world: World, e: nat): Option<Fault> {
    if world.toolGrant(e).Some? then Some(External(world.toolGrant(e).value))
    else if world.tool(e).Err? then Some(External(world.tool(e).error))
    else if world.note(e + 1).Some? then Some(External(world.note(e + 1).value))
    else None
  }

  /** The `m`th call of a turn: over the budget, a repetition, or an execution of its own. */
  ghost function CallFault(limits: Limits, world: World, calls: seq<Call>, m: nat): Option<Fault>
    requires m < |calls|
  {
    var before := KeysOfCalls(calls[..m]);
    if m >= limits.callsPerTurn then Some(BudgetExhausted)
    else if calls[m].Semantic() in before then None
    else ExecutionFault(world, |Firsts(before)|)
  }

  /** The first `m` calls go well. */
  ghost predicate Settled(limits: Limits, world: World, calls: seq<Call>, m: nat) {
    m <= |calls| && forall i | 0 <= i < m :: CallFault(limits, world, calls, i) == None
  }

  ghost predicate CallsStop(limits: Limits, world: World, calls: seq<Call>, f: Fault) {
    exists m: nat | m < |calls| :: Settled(limits, world, calls, m) && CallFault(limits, world, calls, m) == Some(f)
  }

  // ----- the turn -----------------------------------------------------------------------

  /** The tool calls of the first `n` replies. */
  ghost function CallsOf(world: World, n: nat): seq<Call> {
    if n == 0 then []
    else CallsOf(world, n - 1) + match world.model(n - 1) { case Ok(r) => r.calls case Err(_) => [] }
  }

  /** The first `n` iterations asked for tools and all went well. */
  ghost predicate Passed(limits: Limits, world: World, n: nat) {
    && n <= limits.maxIterations && (forall i | 0 <= i < n :: Asked(limits, world, i))
    && Settled(limits, world, CallsOf(world, n), |CallsOf(world, n)|)
  }

  ghost predicate Returns(limits: Limits, world: World, n: nat) {
    Passed(limits, world, n) && Concludes(limits, world, n)
  }

  ghost predicate Raises(limits: Limits, world: World, n: nat, f: Fault) {
    && Passed(limits, world, n)
    && (ModelStops(limits, world, n, f) ||
        (Asked(limits, world, n) && CallsStop(limits, world, CallsOf(world, n + 1), f)))
  }

  // ----- only one end -------------------------------------------------------------------

  lemma {:induction false} CallsGrow(world: World, n: nat, m: nat)
    requires n <= m
    ensures CallsOf(world, n) <= CallsOf(world, m)
  {
    if n < m { CallsGrow(world, n, m - 1); }
  }

  lemma SameFault(limits: Limits, world: World, calls: seq<Call>, longer: seq<Call>, m: nat)
    requires calls <= longer && m < |calls|
    ensures CallFault(limits, world, longer, m) == CallFault(limits, world, calls, m)
  {
    assert longer[..m] == calls[..m];
  }

  lemma SettledPrefix(limits: Limits, world: World, calls: seq<Call>, longer: seq<Call>, m: nat)
    requires calls <= longer && m <= |calls|
    ensures Settled(limits, world, longer, m) <==> Settled(limits, world, calls, m)
  {
    forall i | 0 <= i < m
      ensures CallFault(limits, world, longer, i) == CallFault(limits, world, calls, i)
    {
      SameFault(limits, world, calls, longer, i);
    }
  }

  lemma ModelStopsOnce(limits: Limits, world: World, n: nat, f: Fault, g: Fault)
    requires ModelStops(limits, world, n, f)
    ensures !Asked(limits, world, n) && !Concludes(limits, world, n)
    ensures ModelStops(limits, world, n, g) ==> f == g
  {
  }

  lemma CallsStopOnce(limits: Limits, world: World, calls: seq<Call>, f: Fault, g: Fault)
    requires CallsStop(limits, world, calls, f)
    ensures !Settled(limits, world, calls, |calls|)
    ensures CallsStop(limits, world, calls, g) ==> f == g
  {
    var m: nat :| m < |calls| && Settled(limits, world, calls, m) && CallFault(limits, world, calls, m) == Some(f);
    if CallsStop(limits, world, calls, g) {
      var k: nat :| k < |calls| && Settled(limits, world, calls, k) && CallFault(limits, world, calls, k) == Some(g);
      assert k == m;
    }
  }

  /** Where a turn stops, nothing later passes. */
  lemma StopsForGood(limits: Limits, world: World, n: nat, m: nat, f: Fault)
    requires Raises(limits, world, n, f) && n < m
    ensures !Passed(limits, world, m)
  {
    if Passed(limits, world, m) {
      assert Asked(limits, world, n);
      if ModelStops(limits, world, n, f) {
        ModelStopsOnce(limits, world, n, f, f);
      } else {
        var calls := CallsOf(world, n + 1);
        CallsStopOnce(limits, world, calls, f, f);
        CallsGrow(world, n + 1, m);
        SettledPrefix(limits, world, calls, CallsOf(world, m), |calls|);
      }
    }
  }

  lemma SameStop(limits: Limits, world: World, n: nat, f: Fault, g: Fault)
    requires Raises(limits, world, n, f)
    ensures Raises(limits, world, n, g) ==> f == g
    ensures !Concludes(limits, world, n)
  {
    if ModelStops(limits, world, n, f) {
      ModelStopsOnce(limits, world, n, f, g);
    } else {
      CallsStopOnce(limits, world, CallsOf(world, n + 1), f, g);
      if ModelStops(limits, world, n, g) { ModelStopsOnce(limits, world, n, g, f); }
    }
  }

  /** The descriptions of an end exclude each other. */
  lemma {:induction false} OneVerdict(limits: Limits, world: World, n: nat, m: nat, f: Fault)
    requires Raises(limits, world, n, f)
    ensures !Returns(limits, world, m)
    ensures forall g | Raises(limits, world, m, g) :: f == g
  {
    if n < m {
      StopsForGood(limits, world, n, m, f);
    } else if n == m {
      SameStop(limits, world, n, f, f);
      forall g | Raises(limits, world, m, g) ensures f == g { SameStop(limits, world, n, f, g); }
    } else {
      assert Asked(limits, world, m);
      if g :| Raises(limits, world, m, g) { StopsForGood(limits, world, m, n, g); }
    }
  }

  // ----- the machine ends so ------------------------------------------------------------

  ghost predicate Ends(limits: Limits, world: World, f: Fault) {
    exists n: nat :: Raises(limits, world, n, f)
  }

  /** Inside the calls of iteration `n`, with the first `m` calls of the turn gone well. */
  ghost predicate InCalls(limits: Limits, world: World, n: nat, m: int) {
    forall k: nat :: Glance(k) ==>
      && Passed(limits, world, n) && Asked(limits, world, n)
      && 0 <= m && Settled(limits, world, CallsOf(world, n + 1), m)
  }

  /** Call `m` was executed, as execution `e - 1`, and goes well exactly when recording it does. */
  ghost predicate Noted(limits: Limits, world: World, n: nat, m: int, e: nat) {
    && InCalls(limits, world, n, m)
    && forall k: nat :: Glance(k) ==>
         && 0 <= m < |CallsOf(world, n + 1)|
         && CallFault(limits, world, CallsOf(world, n + 1), m) ==
              match world.note(e) case Some(c) => Some(External(c)) case None => None
  }

  /** How far the turn has come, said of its world. */
  ghost predicate Along(limits: Limits, world: World, l: Loop) {
    var w, m := l.work, l.requested - 1;
    match l.phase
    case NeedModelPermit => Passed(limits, world, w.iteration)
    case ModelPermitted => Passed(limits, world, w.iteration) && world.modelGrant(w.iteration) == None
    case AwaitModel => Passed(limits, world, w.iteration) && world.modelGrant(w.iteration) == None
    case NeedToolPermit => InCalls(limits, world, w.iteration, m)
    case ToolPermitted => InCalls(limits, world, w.iteration, m) && world.toolGrant(|w.outcomes|) == None
    case AwaitTool => InCalls(limits, world, w.iteration, m) && world.toolGrant(|w.outcomes|) == None
    case NeedRecord => Noted(limits, world, w.iteration, m, |w.outcomes|)
    case Returned(_) => Returns(limits, world, w.iteration)
    case Raised(f) => Ends(limits, world, f)
  }

  lemma {:induction false} SourcedCalls(world: World, replies: seq<Response>)
    requires forall i | 0 <= i < |replies| :: world.model(i) == Ok(replies[i])
    ensures CallsOf(world, |replies|) == Flatten(replies)
  {
    if replies != [] { SourcedCalls(world, replies[..|replies| - 1]); }
  }

  /** The cache holds the keys of the calls so far, and the executions are as many as those keys. */
  lemma MemoCounts(w: Work, blocks: seq<Response>, known: nat)
    requires Memo(w.executed, w.outcomes, blocks, known)
    ensures var ks := KeysOfCalls(Flatten(blocks)[..known]);
      |Firsts(ks)| == |w.outcomes| && forall k :: k in ks <==> k in w.executed
  {
    assert Peek(0);
    FirstsProperties(KeysOfCalls(Flatten(blocks)[..known]));
    assert |KeysOf(w.outcomes)| == |w.outcomes|;
  }

  /** The next call of the block, as the world sees it. */
  lemma NextCallFault(limits: Limits, prompt: seq<Message>, world: World, w: Work, m: nat)
    requires InBlock(limits, prompt, w) && w.pending != [] && m == Answered(w)
    requires Memo(w.executed, w.outcomes, w.replies, m) && Sourced(world, w)
    ensures var calls := CallsOf(world, w.iteration + 1);
      && m < |calls|
      && CallFault(limits, world, calls, m) ==
           if m >= limits.callsPerTurn then Some(BudgetExhausted)
           else if w.pending[0].Semantic() in w.executed then None
           else ExecutionFault(world, |w.outcomes|)
  {
    SourcedCalls(world, w.replies);
    NextCall(limits, prompt, w);
    MemoCounts(w, w.replies, m);
  }

  lemma StopsHere(limits: Limits, world: World, n: nat, m: nat, f: Fault)
    requires InCalls(limits, world, n, m) && m < |CallsOf(world, n + 1)|
    requires CallFault(limits, world, CallsOf(world, n + 1), m) == Some(f)
    ensures Ends(limits, world, f)
  {
    assert Glance(0);
    assert CallsStop(limits, world, CallsOf(world, n + 1), f);
    assert Raises(limits, world, n, f);
  }

  lemma OneMore(limits: Limits, world: World, n: nat, m: nat)
    requires InCalls(limits, world, n, m) && m < |CallsOf(world, n + 1)|
    requires CallFault(limits, world, CallsOf(world, n + 1), m) == None
    ensures InCalls(limits, world, n, m + 1)
  {
    assert Glance(0);
  }

  lemma BlockPassed(limits: Limits, world: World, n: nat, m: nat)
    requires InCalls(limits, world, n, m) && m == |CallsOf(world, n + 1)|
    ensures Passed(limits, world, n + 1)
  {
    assert Glance(0);
  }

  lemma DrainEnds(limits: Limits, prompt: seq<Message>, world: World, w: Work, requested: nat)
    requires Draining(limits, prompt, w, requested) && Sourced(world, w)
    requires InCalls(limits, world, w.iteration, requested)
    requires w.pending == [] || requested >= limits.callsPerTurn || w.pending[0].Semantic() !in w.executed
    ensures Along(limits, world, Drain(limits, w, requested))
  {
    DrainOpen(limits, prompt, w, requested);
    if w.pending == [] {
      BlockDone(limits, prompt, w);
      SourcedCalls(world, w.replies);
      BlockPassed(limits, world, w.iteration, requested);
    } else {
      NextCallFault(limits, prompt, world, w, requested);
      if requested >= limits.callsPerTurn { StopsHere(limits, world, w.iteration, requested, BudgetExhausted); }
    }
  }

  lemma RepeatSettled(limits: Limits, prompt: seq<Message>, world: World, w: Work, requested: nat)
    requires Draining(limits, prompt, w, requested) && Sourced(world, w)
    requires InCalls(limits, world, w.iteration, requested)
    requires w.pending != [] && requested < limits.callsPerTurn && w.pending[0].Semantic() in w.executed
    ensures InCalls(limits, world, w.iteration, requested + 1)
  {
    DrainOpen(limits, prompt, w, requested);
    NextCallFault(limits, prompt, world, w, requested);
    OneMore(limits, world, w.iteration, requested);
  }

  lemma {:induction false} DrainAlong(limits: Limits, prompt: seq<Message>, world: World, w: Work, requested: nat)
    requires Draining(limits, prompt, w, requested) && Sourced(world, w)
    requires InCalls(limits, world, w.iteration, requested)
    ensures Along(limits, world, Drain(limits, w, requested))
    decreases |w.pending|
  {
    if w.pending == [] || requested >= limits.callsPerTurn || w.pending[0].Semantic() !in w.executed {
      DrainEnds(limits, prompt, world, w, requested);
    } else {
      var w' := Answer(w, w.executed[w.pending[0].Semantic()].payload);
      assert Drain(limits, w, requested) == Drain(limits, w', requested + 1);
      DrainRepeat(limits, prompt, w, requested);
      RepeatSettled(limits, prompt, world, w, requested);
      DrainAlong(limits, prompt, world, w', requested + 1);
    }
  }

  lemma OpenBlockAlong(limits: Limits, prompt: seq<Message>, world: World, l: Loop, r: Response)
    requires Inv(limits, prompt, l) && l.phase == AwaitModel && Sourced(world, l.work)
    requires Passed(limits, world, l.work.iteration) && world.model(l.work.iteration) == Ok(r)
    requires Asked(limits, world, l.work.iteration) && Validate(limits, r).None?
    ensures Along(limits, world, Drain(limits, OpenBlock(Count(l.work, r), r), l.requested))
  {
    var w := OpenBlock(Count(l.work, r), r);
    var n := l.work.iteration;
    OpenBlockInv(limits, prompt, l.work, l.requested, r);
    SourcedCalls(world, l.work.replies);
    SettledPrefix(limits, world, CallsOf(world, n), CallsOf(world, n + 1), l.requested);
    DrainAlong(limits, prompt, world, w, l.requested);
  }

  lemma ReplyAlong(limits: Limits, prompt: seq<Message>, world: World, l: Loop, r: Response)
    requires Inv(limits, prompt, l) && l.phase == AwaitModel && Sourced(world, l.work)
    requires Along(limits, world, l) && world.model(l.work.iteration) == Ok(r)
    ensures Along(limits, world, ReceiveModel(limits, l, r))
  {
    var n := l.work.iteration;
    ValidateExactly(limits, r);
    ChecksAccept(limits, r, Validate(limits, r));
    if Asked(limits, world, n) {
      OpenBlockAlong(limits, prompt, world, l, r);
    } else if ReceiveModel(limits, l, r).phase.Raised? {
      assert Raises(limits, world, n, ReceiveModel(limits, l, r).phase.fault);
      assert Ends(limits, world, ReceiveModel(limits, l, r).phase.fault);
    }
  }

  lemma ModelAlong(limits: Limits, prompt: seq<Message>, world: World, l: Loop)
    requires Inv(limits, prompt, l) && Sourced(world, l.work) && Along(limits, world, l) && ModelPhase(l.phase)
    ensures Along(limits, world, Feed(limits, l, Ask(world, l)))
  {
    var n := l.work.iteration;
    if l.phase == NeedModelPermit && world.modelGrant(n).Some? {
      assert Raises(limits, world, n, External(world.modelGrant(n).value));
      assert Ends(limits, world, External(world.modelGrant(n).value));
    } else if l.phase == AwaitModel {
      match world.model(n)
      case Ok(r) => ReplyAlong(limits, prompt, world, l, r);
      case Err(c) =>
        assert Raises(limits, world, n, External(c));
        assert Ends(limits, world, External(c));
    }
  }

  lemma PermitAlong(limits: Limits, prompt: seq<Message>, world: World, l: Loop)
    requires BeforeTool(limits, prompt, l.work, l.requested) && Sourced(world, l.work)
    requires InCalls(limits, world, l.work.iteration, l.requested - 1)
    ensures var refusal := world.toolGrant(|l.work.outcomes|);
      refusal.Some? ==> Ends(limits, world, External(refusal.value))
  {
    var refusal := world.toolGrant(|l.work.outcomes|);
    if refusal.Some? {
      NextCallFault(limits, prompt, world, l.work, l.requested - 1);
      StopsHere(limits, world, l.work.iteration, l.requested - 1, External(refusal.value));
    }
  }

  lemma Executes(limits: Limits, world: World, n: nat, m: nat, e: nat)
    requires InCalls(limits, world, n, m) && m < |CallsOf(world, n + 1)| && world.toolGrant(e) == None
    requires CallFault(limits, world, CallsOf(world, n + 1), m) == ExecutionFault(world, e)
    ensures match world.tool(e)
      case Err(c) => Ends(limits, world, External(c))
      case Ok(_) => Noted(limits, world, n, m, e + 1)
  {
    if world.tool(e).Err? { StopsHere(limits, world, n, m, External(world.tool(e).error)); }
  }

  lemma ToolAlong(limits: Limits, prompt: seq<Message>, world: World, l: Loop)
    requires BeforeTool(limits, prompt, l.work, l.requested) && Sourced(world, l.work)
    requires InCalls(limits, world, l.work.iteration, l.requested - 1) && world.toolGrant(|l.work.outcomes|) == None
    ensures match world.tool(|l.work.outcomes|)
      case Err(c) => Ends(limits, world, External(c))
      case Ok(_) => Noted(limits, world, l.work.iteration, l.requested - 1, |l.work.outcomes| + 1)
  {
    NextCallFault(limits, prompt, world, l.work, l.requested - 1);
    Executes(limits, world, l.work.iteration, l.requested - 1, |l.work.outcomes|);
  }

  lemma NoteAlong(limits: Limits, prompt: seq<Message>, world: World, l: Loop)
    requires Totals(limits, l.work) && AfterTool(limits, prompt, l.work, l.requested)
    requires Sourced(world, l.work) && l.phase == NeedRecord && InCalls(limits, world, l.work.iteration, l.requested)
    ensures Along(limits, world, Recorded(limits, l))
  {
    var w := l.work;
    RecordedDraining(limits, prompt, w, l.requested);
    DrainAlong(limits, prompt, world, Answer(w, w.outcomes[|w.outcomes| - 1].payload), l.requested);
  }

  lemma RecordAlong(limits: Limits, world: World, n: nat, m: nat, e: nat)
    requires Noted(limits, world, n, m, e)
    ensures match world.note(e)
      case Some(c) => Ends(limits, world, External(c))
      case None => InCalls(limits, world, n, m + 1)
  {
    assert Glance(0);
    match world.note(e)
    case Some(c) => StopsHere(limits, world, n, m, External(c));
    case None => OneMore(limits, world, n, m);
  }

  lemma FedTool(limits: Limits, world: World, l: Loop)
    ensures l.phase == NeedToolPermit ==>
      Feed(limits, l, Ask(world, l)) ==
        match world.toolGrant(|l.work.outcomes|) case Some(c) => Abort(l, c) case None => GrantTool(l)
    ensures l.phase == ToolPermitted ==> Feed(limits, l, Ask(world, l)) == SendTool(l)
    ensures l.phase == AwaitTool && l.work.pending != [] ==>
      Feed(limits, l, Ask(world, l)) ==
        match world.tool(|l.work.outcomes|)
        case Ok(t) => ReceiveTool(l, t.allowed, t.ok, t.payload)
        case Err(c) => Abort(l, c)
    ensures l.phase == NeedRecord && l.work.pending != [] && l.work.outcomes != [] ==>
      Feed(limits, l, Ask(world, l)) ==
        match world.note(|l.work.outcomes|) case Some(c) => Abort(l, c) case None => Recorded(limits, l)
  {
  }

  lemma PermitFeeds(limits: Limits, prompt: seq<Message>, world: World, l: Loop)
    requires Inv(limits, prompt, l) && Sourced(world, l.work) && Along(limits, world, l)
    requires l.phase == NeedToolPermit || l.phase == ToolPermitted
    ensures Along(limits, world, Feed(limits, l, Ask(world, l)))
  {
    FedTool(limits, world, l);
    if l.phase == NeedToolPermit {
      PermitAlong(limits, prompt, world, l);
      match world.toolGrant(|l.work.outcomes|)
      case Some(c) => assert Along(limits, world, Abort(l, c));
      case None => assert Along(limits, world, GrantTool(l));
    }
  }

  lemma ReceivedAlong(limits: Limits, world: World, l: Loop, t: ToolReply)
    requires l.phase == AwaitTool && l.work.pending != []
    requires Noted(limits, world, l.work.iteration, l.requested - 1, |l.work.outcomes| + 1)
    ensures Along(limits, world, ReceiveTool(l, t.allowed, t.ok, t.payload))
  {
  }

  lemma ToolFeeds(limits: Limits, prompt: seq<Message>, world: World, l: Loop)
    requires Inv(limits, prompt, l) && Sourced(world, l.work) && Along(limits, world, l) && l.phase == AwaitTool
    ensures Along(limits, world, Feed(limits, l, Ask(world, l)))
  {
    FedTool(limits, world, l);
    ToolAlong(limits, prompt, world, l);
    match world.tool(|l.work.outcomes|)
    case Ok(t) => ReceivedAlong(limits, world, l, t);
    case Err(c) => assert Along(limits, world, Abort(l, c));
  }

  lemma RecordFeeds(limits: Limits, prompt: seq<Message>, world: World, l: Loop)
    requires Inv(limits, prompt, l) && Sourced(world, l.work) && Along(limits, world, l) && l.phase == NeedRecord
    ensures Along(limits, world, Feed(limits, l, Ask(world, l)))
  {
    FedTool(limits, world, l);
    RecordAlong(limits, world, l.work.iteration, l.requested - 1, |l.work.outcomes|);
    match world.note(|l.work.outcomes|)
    case Some(c) => assert Along(limits, world, Abort(l, c));
    case None => NoteAlong(limits, prompt, world, l);
  }

  ghost predicate Follows(limits: Limits, world: World, l: Loop) {
    forall n: nat :: Peek(n) ==> Along(limits, world, l)
  }

  lemma FeedFollows(limits: Limits, prompt: seq<Message>, world: World, l: Loop)
    requires Inv(limits, prompt, l) && Sourced(world, l.work) && Follows(limits, world, l)
    ensures Follows(limits, world, Feed(limits, l, Ask(world, l)))
  {
    assert Peek(0);
    match l.phase
    case Returned(_) => FeedOver(limits, l, Ask(world, l));
    case Raised(_) => FeedOver(limits, l, Ask(world, l));
    case NeedRecord => RecordFeeds(limits, prompt, world, l);
    case NeedToolPermit => PermitFeeds(limits, prompt, world, l);
    case ToolPermitted => PermitFeeds(limits, prompt, world, l);
    case AwaitTool => ToolFeeds(limits, prompt, world, l);
    case _ => ModelAlong(limits, prompt, world, l);
  }

  lemma StartFollows(limits: Limits, prompt: seq<Message>, world: World)
    requires 0 <= limits.maxIterations
    ensures Follows(limits, world, Start(limits, prompt))
  {
    assert Passed(limits, world, 0);
  }

  lemma {:induction false} IterateFollows(limits: Limits, prompt: seq<Message>, world: World, n: nat)
    requires 0 <= limits.maxIterations
    ensures Follows(limits, world, Iterate(limits, prompt, world, n))
  {
    if n == 0 {
      StartFollows(limits, prompt, world);
    } else {
      IterateFollows(limits, prompt, world, n - 1);
      IterateInv(limits, prompt, world, n - 1);
      IterateSourced(limits, prompt, world, n - 1);
      FeedFollows(limits, prompt, world, Iterate(limits, prompt, world, n - 1));
    }
  }

  lemma EndsOnce(limits: Limits, world: World, f: Fault)
    requires Ends(limits, world, f)
    ensures forall n: nat :: !Returns(limits, world, n)
    ensures forall g | Ends(limits, world, g) :: f == g
  {
    var n: nat :| Raises(limits, world, n, f);
    forall m: nat
      ensures !Returns(limits, world, m)
    {
      OneVerdict(limits, world, n, m, f);
    }
    forall g | Ends(limits, world, g)
      ensures f == g
    {
      var m: nat :| Raises(limits, world, m, g);
      OneVerdict(limits, world, n, m, f);
    }
  }

  /** Wherever the machine ends on a world: it returned if and only if the world lets the turn return, and
      it raised exactly the fault the world makes it raise. */
  lemma {:induction false} EndsExactly(limits: Limits, prompt: seq<Message>, world: World, l: Loop)
    requires Reaches(limits, prompt, world, l) && Over(l.phase)
    ensures l.phase.Returned? <==> exists n: nat :: Returns(limits, world, n)
    ensures forall f :: l.phase == Raised(f) <==>
      if limits.maxIterations < 0 then f == NotConverged else Ends(limits, world, f)
  {
    ReachedEnd(limits, prompt, world, l);
    if 0 <= limits.maxIterations {
      var k: nat :| Iterate(limits, prompt, world, k) == l;
      IterateFollows(limits, prompt, world, k);
      assert Peek(0);
      if l.phase.Raised? { EndsOnce(limits, world, l.phase.fault); }
      forall f | Ends(limits, world, f)
        ensures l.phase == Raised(f)
      {
        EndsOnce(limits, world, f);
      }
    }
  }
}
