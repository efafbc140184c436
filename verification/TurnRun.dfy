/**
  The turn loop as the runtime executes it, over a `World`. It is proved to follow the machine of
  `TurnLoop` interaction by interaction, and to end as `TurnEnd` says.
*/
module TurnRun {
  import opened Prelude
  import opened TurnLoop
  import opened TurnWorld
  import opened TurnEnd

  /** The checks on a reply, in order. */
  method CheckResponse(limits: Limits, response: Response) returns (fault: Option<Fault>)
    ensures Checked(limits, response, fault)
    ensures fault == Validate(limits, response)
  {
    ValidateExactly(limits, response);
    if |response.content| > limits.outputChars {
      return Some(ContentOverLimit);
    }
    var seen: set<string> := {};
    var i := 0;
    while i < |response.calls|
      invariant 0 <= i <= |response.calls|
      invariant forall id :: id in seen <==> exists j | 0 <= j < i :: response.calls[j].id == id
      invariant DistinctIds(response.calls[..i])
    {
      if response.calls[i].id in seen {
        var j :| 0 <= j < i && response.calls[j].id == response.calls[i].id;
        assert !DistinctIds(response.calls);
        return Some(DuplicateCallIds);
      }
      seen := seen + {response.calls[i].id};
      i := i + 1;
    }
    assert response.calls[..i] == response.calls;
    i := 0;
    while i < |response.calls|
      invariant 0 <= i <= |response.calls|
      invariant forall j | 0 <= j < i :: WellStructured(limits, response.calls[j])
    {
      if !WellStructured(limits, response.calls[i]) {
        return Some(BadStructure);
      }
      i := i + 1;
    }
    return None;
  }

  // ----- the loop ---------------------------------------------------------------------

  /** The mutable locals of the loop that a block of tool calls updates. */
  datatype Locals = Locals(messages: seq<Message>, executed: map<Key, Outcome>, outcomes: seq<Outcome>, requested: nat)

  function WorkAt(w: Work, s: Locals, pending: seq<Call>): Work {
    w.(messages := s.messages, executed := s.executed, outcomes := s.outcomes, pending := pending)
  }

  /** Execute a call not seen before in this turn. */
  method RunTool(limits: Limits, prompt: seq<Message>, world: World, call: Call, s0: Locals, ghost w: Work)
    returns (s: Locals, fault: Option<Fault>)
    requires w.pending != [] && w.pending[0] == call && w == WorkAt(w, s0, w.pending)
    requires Reaches(limits, prompt, world, Loop(w, s0.requested, NeedToolPermit))
    ensures fault.None? ==> Reaches(limits, prompt, world, Drain(limits, WorkAt(w, s, w.pending[1..]), s.requested))
    ensures fault.Some? ==>
      exists l :: Reaches(limits, prompt, world, l) && l.phase == Raised(fault.value) && l.work.messages == s.messages
  {
    s := s0;
    ghost var l := Loop(w, s.requested, NeedToolPermit);
    AdvanceTool(limits, prompt, world, l);
    var denied := world.toolGrant(|s.outcomes|);
    if denied.Some? {
      assert Abort(l, denied.value).work.messages == s.messages;
      return s, Some(External(denied.value));
    }
    var result := world.tool(|s.outcomes|);
    if result.Err? {
      assert Abort(l, result.error).work.messages == s.messages;
      return s, Some(External(result.error));
    }
    var outcome := Outcome(call.Semantic(), result.value.allowed, result.value.ok, result.value.payload);
    s := s.(executed := s.executed[outcome.key := outcome], outcomes := s.outcomes + [outcome]);
    var unrecorded := world.note(|s.outcomes|);
    if unrecorded.Some? {
      assert Abort(Loop(Remember(w, outcome), s.requested, NeedRecord), unrecorded.value).work.messages == s.messages;
      return s, Some(External(unrecorded.value));
    }
    s := s.(messages := s.messages + [ToolResult(call.id, outcome.payload)]);
    assert WorkAt(w, s, w.pending[1..]) == Answer(Remember(w, outcome), outcome.payload);
    return s, None;
  }

  /** Answer the calls of one response, in order. */
  method RunCalls(limits: Limits, prompt: seq<Message>, world: World, calls: seq<Call>, s0: Locals, ghost w: Work)
    returns (s: Locals, fault: Option<Fault>)
    requires Reaches(limits, prompt, world, Drain(limits, WorkAt(w, s0, calls), s0.requested))
    ensures fault.None? ==> Reaches(limits, prompt, world, Drain(limits, WorkAt(w, s, []), s.requested))
    ensures fault.Some? ==>
      exists l :: Reaches(limits, prompt, world, l) && l.phase == Raised(fault.value) && l.work.messages == s.messages
  {
    s := s0;
    var i := 0;
    assert calls[0..] == calls;
    while i < |calls|
      invariant 0 <= i <= |calls|
      invariant Reaches(limits, prompt, world, Drain(limits, WorkAt(w, s, calls[i..]), s.requested))
    {
      var call := calls[i];
      ghost var w1 := WorkAt(w, s, calls[i..]);
      assert w1.pending[0] == call && w1.pending[1..] == calls[i + 1..];
      s := s.(requested := s.requested + 1);
      if s.requested > limits.callsPerTurn {
        return s, Some(BudgetExhausted);
      }
      if call.Semantic() in s.executed {
        s := s.(messages := s.messages + [ToolResult(call.id, s.executed[call.Semantic()].payload)]);
        assert WorkAt(w, s, calls[i + 1..]) == Answer(w1, w1.executed[call.Semantic()].payload);
      } else {
        var fault: Option<Fault>;
        s, fault := RunTool(limits, prompt, world, call, s, w1);
        if fault.Some? {
          return s, fault;
        }
      }
      i := i + 1;
    }
    return s, None;
  }

  ghost predicate EndOk(limits: Limits, prompt: seq<Message>, world: World, l: Loop) {
    && (Over(l.phase) ==>
          && (l.phase.Returned? <==> exists n: nat :: Returns(limits, world, n))
          && forall f :: l.phase == Raised(f) <==>
               if limits.maxIterations < 0 then f == NotConverged else Ends(limits, world, f))
    && (l.phase == Raised(NotConverged) <==> limits.maxIterations < 0)
    && (l.phase.Returned? ==> Explained(limits, prompt, world, l.phase.outcome, l.work.messages))
  }

  /** The loop of the runtime: it returns if and only if its world lets it, with what the memo-free
      reference says, and otherwise raises exactly the fault its world makes it raise. */
  method RunTurn(limits: Limits, prompt: seq<Message>, world: World) returns (end: Phase, messages: seq<Message>)
    ensures Over(end)
    ensures exists l :: Reaches(limits, prompt, world, l) && l.phase == end && l.work.messages == messages
    ensures end.Returned? <==> exists n: nat :: Returns(limits, world, n)
    ensures forall f :: end == Raised(f) <==>
      if limits.maxIterations < 0 then f == NotConverged else Ends(limits, world, f)
    ensures end.Returned? ==> Explained(limits, prompt, world, end.outcome, messages)
  {
    forall l | Reaches(limits, prompt, world, l)
      ensures EndOk(limits, prompt, world, l)
    {
      ReachedEnd(limits, prompt, world, l);
      if Over(l.phase) { EndsExactly(limits, prompt, world, l); }
    }
    var s := Locals(prompt, map[], [], 0);
    var inputTokens: nat, outputTokens: nat, iteration := 0, 0, 0;
    ghost var replies: seq<Response> := [];
    assert Iterate(limits, prompt, world, 0) == Start(limits, prompt);
    while iteration <= limits.maxIterations
      invariant 0 <= iteration
      invariant Reaches(limits, prompt, world,
        Loop(Work(iteration, s.messages, inputTokens, outputTokens, s.executed, s.outcomes, [], replies), s.requested,
             if iteration <= limits.maxIterations then NeedModelPermit else Raised(NotConverged)))
      decreases limits.maxIterations - iteration
    {
      ghost var w := Work(iteration, s.messages, inputTokens, outputTokens, s.executed, s.outcomes, [], replies);
      AdvanceModel(limits, prompt, world, Loop(w, s.requested, NeedModelPermit));
      var refusal := world.modelGrant(iteration);
      if refusal.Some? {
        return Raised(External(refusal.value)), s.messages;
      }
      var answer := world.model(iteration);
      if answer.Err? {
        return Raised(External(answer.error)), s.messages;
      }
      var response := answer.value;
      var invalid := CheckResponse(limits, response);
      if invalid.Some? {
        return Raised(invalid.value), s.messages;
      }
      inputTokens, outputTokens := inputTokens + response.inputTokens, outputTokens + response.outputTokens;
      replies := replies + [response];
      if response.calls == [] || response.finish != ToolCalls {
        return Returned(TurnOutcome(response.content, response.finish, inputTokens, outputTokens, iteration,
          s.outcomes)),
               s.messages;
      }
      if iteration >= limits.maxIterations {
        return Raised(IterationCeiling), s.messages;
      }
      if |response.calls| > limits.callsPerResponse {
        return Raised(TooManyCalls), s.messages;
      }
      s := s.(messages := s.messages + [Assistant(response.content, response.calls)]);
      ghost var w1 := OpenBlock(Count(w, response), response);
      assert WorkAt(w1, s, response.calls) == w1;
      var fault: Option<Fault>;
      s, fault := RunCalls(limits, prompt, world, response.calls, s, w1);
      if fault.Some? {
        return Raised(fault.value), s.messages;
      }
      iteration := iteration + 1;
    }
    return Raised(NotConverged), s.messages;
  }
}
