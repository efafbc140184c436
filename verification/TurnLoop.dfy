/**
  The bounded model/tool loop of one agent turn, as a small-step machine.

  A `Loop` is the local state of the loop between two external interactions: a model
  permit, a model call, a tool permit, a tool execution, the recording of a tool call.
  Every interaction is one function from `Loop` to `Loop`, so the same machine can be driven
  by the imperative `RunTurn` and by a worker of the multi-worker protocol.
*/
module TurnLoop {
  import opened Prelude

  /** The semantic identity of a tool call: tool key and canonical argument hash. */
  datatype Key = Key(tool: string, argumentsHash: string)

  /** A tool call requested by the model; the argument object is represented by its hash,
      its nesting depth and its canonical size. */
  datatype Call = Call(id: string, name: string, argumentsHash: string, depth: nat, bytes: nat) {
    function Semantic(): Key {
      Key(name, argumentsHash)
    }
  }

  datatype FinishReason = Stop | ToolCalls | Length | ContentFilter | ProviderError

  datatype Response = Response(content: string, calls: seq<Call>, finish: FinishReason,
                               inputTokens: nat, outputTokens: nat)

  datatype Outcome = Outcome(key: Key, allowed: bool, ok: bool, payload: string)

  datatype Message =
    | Prompt(text: string)
    | Assistant(content: string, calls: seq<Call>)
    | ToolResult(callId: string, payload: string)

  datatype Limits = Limits(maxIterations: int, callsPerResponse: nat, callsPerTurn: nat,
                           outputChars: nat, argumentDepth: nat, argumentBytes: nat)

  /** Stable error codes a turn can end with. */
  datatype Code =
    | ToolLoopLimit
    | OutputInvalid
    | ToolInvalid
    | InvalidState
    | SessionExpired
    | AgentCancelled
    | TurnTimeout
    | Upstream(name: string)

  /** Where the loop raised. */
  datatype Fault =
    | ContentOverLimit
    | DuplicateCallIds
    | BadStructure
    | IterationCeiling
    | TooManyCalls
    | BudgetExhausted
    | NotConverged
    | External(code: Code)

  function CodeOf(f: Fault): Code {
    match f
    case ContentOverLimit => OutputInvalid
    case DuplicateCallIds => OutputInvalid
    case BadStructure => ToolInvalid
    case IterationCeiling => ToolLoopLimit
    case TooManyCalls => OutputInvalid
    case BudgetExhausted => ToolLoopLimit
    case NotConverged => ToolLoopLimit
    case External(code) => code
  }

  datatype TurnOutcome = TurnOutcome(content: string, finish: FinishReason, inputTokens: nat,
                                     outputTokens: nat, toolIterations: nat, toolCalls: seq<Outcome>)

  datatype Phase =
    | NeedModelPermit
    | ModelPermitted
    | AwaitModel
    | NeedToolPermit
    | ToolPermitted
    | AwaitTool
    | NeedRecord
    | Returned(outcome: TurnOutcome)
    | Raised(fault: Fault)

  /** What the loop has gathered. `replies` lists every validated response so far; the source
      keeps them only as assistant messages. */
  datatype Work = Work(iteration: nat, messages: seq<Message>, inputTokens: nat, outputTokens: nat,
                       executed: map<Key, Outcome>, outcomes: seq<Outcome>,
                       pending: seq<Call>, replies: seq<Response>)

  datatype Loop = Loop(work: Work, requested: nat, phase: Phase)

  // ----- the machine ---------------------------------------------------------------

  function Start(limits: Limits, prompt: seq<Message>): Loop {
    Loop(Work(0, prompt, 0, 0, map[], [], [], []), 0,
         if 0 <= limits.maxIterations then NeedModelPermit else Raised(NotConverged))
  }

  predicate WellStructured(limits: Limits, c: Call) {
    0 < |c.name| <= 96 && c.depth <= limits.argumentDepth && c.bytes <= limits.argumentBytes
  }

  predicate DistinctIds(calls: seq<Call>) {
    forall i, j | 0 <= i < j < |calls| :: calls[i].id != calls[j].id
  }

  predicate WantsTools(r: Response) {
    r.calls != [] && r.finish == ToolCalls
  }

  function Validate(limits: Limits, r: Response): Option<Fault> {
    if |r.content| > limits.outputChars then Some(ContentOverLimit)
    else if !DistinctIds(r.calls) then Some(DuplicateCallIds)
    else if exists i | 0 <= i < |r.calls| :: !WellStructured(limits, r.calls[i]) then Some(BadStructure)
    else None
  }

  function GrantModel(l: Loop): Loop
    requires l.phase == NeedModelPermit
  {
    l.(phase := ModelPermitted)
  }

  function SendModel(l: Loop): Loop
    requires l.phase == ModelPermitted
  {
    l.(phase := AwaitModel)
  }

  /** Count a validated response. */
  function Count(w: Work, r: Response): Work {
    w.(inputTokens := w.inputTokens + r.inputTokens, outputTokens := w.outputTokens + r.outputTokens,
       replies := w.replies + [r])
  }

  function OutcomeOf(w: Work, r: Response): TurnOutcome {
    TurnOutcome(r.content, r.finish, w.inputTokens, w.outputTokens, w.iteration, w.outcomes)
  }

  /** Append the assistant block and queue its calls. */
  function OpenBlock(w: Work, r: Response): Work {
    w.(messages := w.messages + [Assistant(r.content, r.calls)], pending := r.calls)
  }

  function ReceiveModel(limits: Limits, l: Loop, r: Response): Loop
    requires l.phase == AwaitModel
  {
    var invalid := Validate(limits, r);
    if invalid.Some? then l.(phase := Raised(invalid.value))
    else
      var w := Count(l.work, r);
      if !WantsTools(r) then Loop(w, l.requested, Returned(OutcomeOf(w, r)))
      else if w.iteration >= limits.maxIterations then Loop(w, l.requested, Raised(IterationCeiling))
      else if |r.calls| > limits.callsPerResponse then Loop(w, l.requested, Raised(TooManyCalls))
      else Drain(limits, OpenBlock(w, r), l.requested)
  }

  /** Answer the call at the head of the queue. */
  function Answer(w: Work, payload: string): Work
    requires w.pending != []
  {
    w.(messages := w.messages + [ToolResult(w.pending[0].id, payload)], pending := w.pending[1..])
  }

  /** Answer already executed calls from the cache until a new one needs a permit. */
  function Drain(limits: Limits, w: Work, requested: nat): Loop
    decreases |w.pending|
  {
    if w.pending == [] then
      Loop(w.(iteration := w.iteration + 1), requested,
           if w.iteration + 1 <= limits.maxIterations then NeedModelPermit else Raised(NotConverged))
    else if requested + 1 > limits.callsPerTurn then Loop(w, requested + 1, Raised(BudgetExhausted))
    else if w.pending[0].Semantic() in w.executed then
      Drain(limits, Answer(w, w.executed[w.pending[0].Semantic()].payload), requested + 1)
    else Loop(w, requested + 1, NeedToolPermit)
  }

  function GrantTool(l: Loop): Loop
    requires l.phase == NeedToolPermit
  {
    l.(phase := ToolPermitted)
  }

  function SendTool(l: Loop): Loop
    requires l.phase == ToolPermitted
  {
    l.(phase := AwaitTool)
  }

  /** Remember an execution. */
  function Remember(w: Work, o: Outcome): Work {
    w.(executed := w.executed[o.key := o], outcomes := w.outcomes + [o])
  }

  function ReceiveTool(l: Loop, allowed: bool, ok: bool, payload: string): Loop
    requires l.phase == AwaitTool && l.work.pending != []
  {
    Loop(Remember(l.work, Outcome(l.work.pending[0].Semantic(), allowed, ok, payload)), l.requested, NeedRecord)
  }

  function Recorded(limits: Limits, l: Loop): Loop
    requires l.phase == NeedRecord && l.work.pending != [] && l.work.outcomes != []
  {
    Drain(limits, Answer(l.work, l.work.outcomes[|l.work.outcomes| - 1].payload), l.requested)
  }

  function Abort(l: Loop, code: Code): Loop {
    l.(phase := Raised(External(code)))
  }

  // ----- the memo-free reference ---------------------------------------------------

  function Flatten(rs: seq<Response>): seq<Call> {
    if rs == [] then [] else Flatten(rs[..|rs| - 1]) + rs[|rs| - 1].calls
  }

  function KeysOfCalls(cs: seq<Call>): seq<Key> {
    seq(|cs|, i requires 0 <= i < |cs| => cs[i].Semantic())
  }

  function KeysOf(os: seq<Outcome>): seq<Key> {
    seq(|os|, i requires 0 <= i < |os| => os[i].key)
  }

  /** The first occurrence of every key, in order of first occurrence. */
  function Firsts(ks: seq<Key>): seq<Key> {
    if ks == [] then []
    else
      var front := ks[..|ks| - 1];
      if ks[|ks| - 1] in front then Firsts(front) else Firsts(front) + [ks[|ks| - 1]]
  }

  /** The payload of the first execution of `k`. */
  function PayloadOf(os: seq<Outcome>, k: Key): string {
    if os == [] then ""
    else if os[0].key == k then os[0].payload
    else PayloadOf(os[1..], k)
  }

  function Answers(cs: seq<Call>, os: seq<Outcome>): seq<Message> {
    seq(|cs|, i requires 0 <= i < |cs| => ToolResult(cs[i].id, PayloadOf(os, cs[i].Semantic())))
  }

  /** The conversation in which every assistant block is followed by the answers to all of its calls. */
  function Render(rs: seq<Response>, os: seq<Outcome>): seq<Message> {
    if rs == [] then []
    else
      var r := rs[|rs| - 1];
      Render(rs[..|rs| - 1], os) + [Assistant(r.content, r.calls)] + Answers(r.calls, os)
  }

  function InputSum(rs: seq<Response>): nat {
    if rs == [] then 0 else InputSum(rs[..|rs| - 1]) + rs[|rs| - 1].inputTokens
  }

  function OutputSum(rs: seq<Response>): nat {
    if rs == [] then 0 else OutputSum(rs[..|rs| - 1]) + rs[|rs| - 1].outputTokens
  }
}
