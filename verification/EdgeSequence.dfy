/**
  The in-dialog sequence checks of the SIP edge: one JSON row per dialog holds the last CSeq of each
  direction and the CSeq of its last INVITE, and a dialog variable holds the RSeq of the last
  reliable provisional reply that no PRACK has consumed. The row is read and written under its lock; the
  variable is not, so a reply's read and write of it, and a PRACK's read and reset, are separate steps.
*/
module EdgeSequence {
  import opened Prelude

  datatype Direction = Forward | Reverse

  datatype Method = Invite | Ack | Prack | OtherMethod(name: string)

  /** The JSON row; an absent row reads as the empty object. */
  datatype Row = Row(owner: Option<string>, last: map<Direction, nat>, invite: map<Direction, nat>)

  const Absent := Row(None, map[], map[])

  /** A request with its CSeq number and RAck header; `retransmission` is the transaction layer's answer. */
  datatype Request = Request(verb: Method, direction: Direction, sequence: nat, rack: Option<string>,
                             retransmission: bool)

  datatype Verdict = Retransmitted | Accepted | Rejected

  // ----- decimal numerals and the expected RAck ---------------------------------------------

  function Digit(d: nat): char
    requires d < 10
  {
    '0' + d as char
  }

  function Decimal(n: nat): string {
    if n < 10 then [Digit(n)] else Decimal(n / 10) + [Digit(n % 10)]
  }

  predicate IsDigits(s: string) {
    forall i | 0 <= i < |s| :: '0' <= s[i] <= '9'
  }

  function Value(s: string): nat
    requires IsDigits(s)
  {
    if s == [] then 0 else 10 * Value(s[..|s| - 1]) + (s[|s| - 1] as int - '0' as int)
  }

  /** The RAck a PRACK must carry; a direction without an INVITE renders as Python's None. */
  function ExpectedRAck(reliable: string, invite: Option<nat>): string {
    reliable + " " + (match invite case Some(n) => Decimal(n) case None => "None") + " INVITE"
  }

  /** Whether a reply's RSeq header is well formed. */
  predicate WellFormedRSeq(s: string) {
    && 1 <= |s| <= 10 && IsDigits(s) && s[0] != '0'
    && Value(s) <= 2147483647
  }

  // ----- the checks ---------------------------------------------------------------------------

  function Lookup(m: map<Direction, nat>, d: Direction): Option<nat> {
    if d in m then Some(m[d]) else None
  }

  /** A reply's RSeq replaces the one read if there is none or it is not smaller. */
  predicate Supersedes(current: string, rseq: string) {
    IsDigits(current) && IsDigits(rseq) && (current == "" || Value(rseq) >= Value(current))
  }

  /** A reliable provisional reply that nothing interrupts: what the dialog variable holds afterwards. */
  function StoreReliable(current: string, rseq: string): string {
    if WellFormedRSeq(rseq) && Supersedes(current, rseq) then rseq else current
  }

  /** `validate_dialog_sequence` for a dialog whose key is set, when nothing interrupts it: the verdict,
      the row and the variable. */
  function Validate(row: Row, owner: string, reliable: string, r: Request): (Verdict, Row, string) {
    if r.verb != Ack && r.retransmission then (Retransmitted, row, reliable)
    else if row.owner != Some(owner) then (Rejected, row, reliable)
    else if r.verb == Ack then
      (if Lookup(row.invite, r.direction) == Some(r.sequence) then Accepted else Rejected, row, reliable)
    else if r.sequence <= (if r.direction in row.last then row.last[r.direction] else 0) then (Rejected, row, reliable)
    else if r.verb == Prack &&
            (reliable == "" || r.rack != Some(ExpectedRAck(reliable, Lookup(row.invite, r.direction))))
    then (Rejected, row, reliable)
    else
      (Accepted,
       row.(last := row.last[r.direction := r.sequence],
            invite := if r.verb == Invite then row.invite[r.direction := r.sequence] else row.invite),
       if r.verb == Prack then "" else reliable)
  }

  /** One dialog's shared row and variable, updated in place. */
  class Dialog {
    const owner: string
    var row: Row
    var reliable: string

    constructor (owner: string, cseq: nat)
      ensures this.owner == owner && row == Opened(owner, cseq) && reliable == ""
    {
      this.owner := owner;
      row := Opened(owner, cseq);
      reliable := "";
    }

    method ValidateSequence(r: Request) returns (verdict: Verdict)
      modifies this
      ensures (verdict, row, reliable) == Validate(old(row), owner, old(reliable), r)
    {
      if r.verb != Ack && r.retransmission { return Retransmitted; }
      if row.owner != Some(owner) { return Rejected; }
      if r.verb == Ack {
        return if r.direction in row.invite && r.sequence == row.invite[r.direction] then Accepted else Rejected;
      }
      var before := if r.direction in row.last then row.last[r.direction] else 0;
      if r.sequence <= before { return Rejected; }
      if r.verb == Prack {
        var expected := ExpectedRAck(reliable, Lookup(row.invite, r.direction));
        if reliable == "" || r.rack != Some(expected) { return Rejected; }
        reliable := "";
      }
      row := row.(last := row.last[r.direction := r.sequence]);
      if r.verb == Invite {
        row := row.(invite := row.invite[r.direction := r.sequence]);
      }
      verdict := Accepted;
    }

    method NoteReliable(rseq: string)
      modifies this`reliable
      ensures reliable == StoreReliable(old(reliable), rseq)
    {
      if !WellFormedRSeq(rseq) { return; }
      var current := reliable;
      if IsDigits(current) && (current == "" || Value(rseq) >= Value(current)) {
        reliable := rseq;
      }
    }
  }

  /** The row the initial INVITE writes. */
  function Opened(owner: string, cseq: nat): Row {
    Row(Some(owner), map[Forward := cseq], map[Forward := cseq])
  }

  // ----- runs of one dialog -----------------------------------------------------------------------

  /** What happened, in order: a request that passed its checks, an RSeq written to the variable, or the
      reset a PRACK ends with. */
  datatype Mark = Took(request: Request, reliable: string) | Kept(rseq: string) | Cleared

  /** A reply between its read of the variable, when the log had `at` marks, and its write. */
  datatype Reply = Reply(rseq: string, read: string, at: nat)

  type Pid = nat

  /** `clearing` is whether a PRACK has passed its checks and still holds the lock before its reset. What
      it writes to the row is seen by nobody before the lock is free. */
  datatype State = State(row: Row, reliable: string, replies: map<Pid, Reply>, clearing: bool, log: seq<Mark>)

  datatype Event =
    | Arrives(request: Request)
    | Clears                                  // the PRACK that holds the lock resets the variable
    | Reads(worker: Pid, rseq: string)
    | Writes(worker: Pid)
    | Finishes                                // the row is unset
    | Reclaimed(owner: string, cseq: nat)     // another dialog claims the same identity

  function Start(owner: string, cseq: nat): State { State(Opened(owner, cseq), "", map[], false, []) }

  /** Whether the request gets the lock and passes its checks. */
  predicate Admits(s: State, owner: string, r: Request) {
    !s.clearing && Validate(s.row, owner, s.reliable, r).0 == Accepted
  }

  /** A worker that waits for the lock, or has nothing to do, changes nothing. */
  function Step(s: State, owner: string, e: Event): State {
    match e
    case Arrives(r) =>
      if !Admits(s, owner, r) then s
      else
        var row := Validate(s.row, owner, s.reliable, r).1;
        s.(row := row, clearing := r.verb == Prack, log := s.log + [Took(r, s.reliable)])
    case Clears => if s.clearing then s.(reliable := "", clearing := false, log := s.log + [Cleared]) else s
    case Reads(p, rseq) =>
      if !WellFormedRSeq(rseq) || p in s.replies then s
      else s.(replies := s.replies[p := Reply(rseq, s.reliable, |s.log|)])
    case Writes(p) =>
      if p !in s.replies then s
      else
        var done := s.(replies := s.replies - {p});
        var reply := s.replies[p];
        if Supersedes(reply.read, reply.rseq)
        then done.(reliable := reply.rseq, log := s.log + [Kept(reply.rseq)]) else done
    case Finishes => if s.clearing then s else s.(row := Absent)
    case Reclaimed(other, cseq) =>
      if !s.clearing && s.row.owner == None && other != owner then s.(row := Opened(other, cseq)) else s
  }

  function Run(owner: string, cseq: nat, events: seq<Event>): State {
    if events == [] then Start(owner, cseq)
    else Step(Run(owner, cseq, events[..|events| - 1]), owner, events[|events| - 1])
  }

  // ----- the log as the reference ------------------------------------------------------------------

  predicate Counts(m: Mark, d: Direction) {
    m.Took? && m.request.verb != Ack && m.request.direction == d
  }

  predicate Invites(m: Mark, d: Direction) {
    m.Took? && m.request.verb == Invite && m.request.direction == d
  }

  /** The CSeq last accepted in a direction; the initial INVITE counts forward. */
  ghost function LastSequence(log: seq<Mark>, cseq: nat, d: Direction): Option<nat> {
    if log == [] then (if d == Forward then Some(cseq) else None)
    else if Counts(log[|log| - 1], d) then Some(log[|log| - 1].request.sequence)
    else LastSequence(log[..|log| - 1], cseq, d)
  }

  ghost function LastInvite(log: seq<Mark>, cseq: nat, d: Direction): Option<nat> {
    if log == [] then (if d == Forward then Some(cseq) else None)
    else if Invites(log[|log| - 1], d) then Some(log[|log| - 1].request.sequence)
    else LastInvite(log[..|log| - 1], cseq, d)
  }

  /** The RSeq kept and not cleared since. */
  ghost function Outstanding(log: seq<Mark>): string {
    if log == [] then ""
    else match log[|log| - 1]
      case Kept(rseq) => rseq
      case Cleared => ""
      case Took(_, _) => Outstanding(log[..|log| - 1])
  }

  predicate Consumes(m: Mark) {
    m.Took? && m.request.verb == Prack
  }

  /** Whether the last PRACK has not cleared yet. */
  ghost predicate Clearing(log: seq<Mark>) {
    log != [] && (Consumes(log[|log| - 1]) || (!log[|log| - 1].Cleared? && Clearing(log[..|log| - 1])))
  }

  /** When a mark may come next, from the log alone. */
  ghost predicate MayFollow(log: seq<Mark>, cseq: nat, m: Mark) {
    match m
    case Kept(rseq) => WellFormedRSeq(rseq)
    case Cleared => Clearing(log)
    case Took(r, reliable) =>
      && !Clearing(log) && reliable == Outstanding(log)
      && (r.verb == Ack ==> LastInvite(log, cseq, r.direction) == Some(r.sequence))
      && (r.verb != Ack ==> r.sequence > 0)
      && (r.verb != Ack && LastSequence(log, cseq, r.direction).Some? ==>
            r.sequence > LastSequence(log, cseq, r.direction).value)
      && (r.verb == Prack ==>
            reliable != "" && r.rack == Some(ExpectedRAck(reliable, LastInvite(log, cseq, r.direction))))
  }

  ghost predicate Legal(log: seq<Mark>, cseq: nat) {
    log == [] || (Legal(log[..|log| - 1], cseq) && MayFollow(log[..|log| - 1], cseq, log[|log| - 1]))
  }

  /** What a reply read is what was outstanding then. */
  ghost predicate ReadThen(reply: Reply, log: seq<Mark>) {
    reply.at <= |log| && reply.read == Outstanding(log[..reply.at]) && WellFormedRSeq(reply.rseq)
  }

  /** The row and the variable are functions of the log while the row is the dialog's own. */
  ghost predicate Reflects(s: State, owner: string, cseq: nat) {
    && s.reliable == Outstanding(s.log) && s.clearing == Clearing(s.log)
    && (s.clearing ==> s.row.owner == Some(owner))
    && (s.row.owner == Some(owner) ==> forall d: Direction ::
          Lookup(s.row.last, d) == LastSequence(s.log, cseq, d)
            && Lookup(s.row.invite, d) == LastInvite(s.log, cseq, d))
  }

  ghost predicate RepliesOk(s: State) {
    forall p | p in s.replies :: ReadThen(s.replies[p], s.log)
  }

  lemma Snoc(log: seq<Mark>, cseq: nat, m: Mark)
    ensures Legal(log, cseq) && MayFollow(log, cseq, m) ==> Legal(log + [m], cseq)
    ensures Outstanding(log + [m]) ==
      match m { case Kept(rseq) => rseq case Cleared => "" case Took(_, _) => Outstanding(log) }
    ensures Clearing(log + [m]) == (Consumes(m) || (!m.Cleared? && Clearing(log)))
    ensures forall d: Direction ::
      LastSequence(log + [m], cseq, d) == if Counts(m, d) then Some(m.request.sequence) else LastSequence(log, cseq, d)
    ensures forall d: Direction ::
      LastInvite(log + [m], cseq, d) == if Invites(m, d) then Some(m.request.sequence) else LastInvite(log, cseq, d)
  {
    assert (log + [m])[..|log + [m]| - 1] == log && (log + [m])[|log + [m]| - 1] == m;
  }

  lemma ArrivesReflects(s: State, owner: string, cseq: nat, r: Request)
    requires Reflects(s, owner, cseq) && Legal(s.log, cseq)
    ensures Reflects(Step(s, owner, Arrives(r)), owner, cseq) && Legal(Step(s, owner, Arrives(r)).log, cseq)
  {
    if Admits(s, owner, r) {
      var m := Took(r, s.reliable);
      assert Lookup(s.row.last, r.direction) == LastSequence(s.log, cseq, r.direction);
      assert Lookup(s.row.invite, r.direction) == LastInvite(s.log, cseq, r.direction);
      assert MayFollow(s.log, cseq, m);
      Snoc(s.log, cseq, m);
    }
  }

  lemma WritesReflects(s: State, owner: string, cseq: nat, p: Pid)
    requires Reflects(s, owner, cseq) && Legal(s.log, cseq) && RepliesOk(s)
    ensures Reflects(Step(s, owner, Writes(p)), owner, cseq) && Legal(Step(s, owner, Writes(p)).log, cseq)
  {
    if p in s.replies {
      Snoc(s.log, cseq, Kept(s.replies[p].rseq));
    }
  }

  lemma StepReplies(s: State, owner: string, e: Event)
    requires RepliesOk(s) && s.reliable == Outstanding(s.log)
    ensures RepliesOk(Step(s, owner, e))
  {
    var log := Step(s, owner, e).log;
    assert forall n | 0 <= n <= |s.log| :: log[..n] == s.log[..n];
    assert s.log[..|s.log|] == s.log;
  }

  lemma StepReflects(s: State, owner: string, cseq: nat, e: Event)
    requires Reflects(s, owner, cseq) && Legal(s.log, cseq) && RepliesOk(s)
    ensures Reflects(Step(s, owner, e), owner, cseq) && Legal(Step(s, owner, e).log, cseq)
  {
    match e
    case Arrives(r) => ArrivesReflects(s, owner, cseq, r);
    case Writes(p) => WritesReflects(s, owner, cseq, p);
    case Clears => Snoc(s.log, cseq, Cleared);
    case _ =>
  }

  lemma {:induction false} RunReflects(owner: string, cseq: nat, events: seq<Event>)
    ensures Reflects(Run(owner, cseq, events), owner, cseq) && Legal(Run(owner, cseq, events).log, cseq)
    ensures RepliesOk(Run(owner, cseq, events))
  {
    if events != [] {
      RunReflects(owner, cseq, events[..|events| - 1]);
      StepReplies(Run(owner, cseq, events[..|events| - 1]), owner, events[|events| - 1]);
      StepReflects(Run(owner, cseq, events[..|events| - 1]), owner, cseq, events[|events| - 1]);
    }
  }

  lemma RunSnoc(owner: string, cseq: nat, events: seq<Event>, e: Event)
    ensures Run(owner, cseq, events + [e]) == Step(Run(owner, cseq, events), owner, e)
  {
    assert (events + [e])[..|events|] == events;
  }

  lemma {:induction false} LegalAt(log: seq<Mark>, cseq: nat, j: nat)
    requires Legal(log, cseq) && j < |log|
    ensures Legal(log[..j], cseq) && MayFollow(log[..j], cseq, log[j])
  {
    var n := |log| - 1;
    if j < n {
      LegalAt(log[..n], cseq, j);
      assert log[..n][..j] == log[..j];
    }
  }

  /** The last sequence of a direction bounds every earlier one. */
  lemma {:induction false} LastIsGreatest(log: seq<Mark>, cseq: nat, d: Direction, i: nat)
    requires Legal(log, cseq) && i < |log| && Counts(log[i], d)
    ensures LastSequence(log, cseq, d).Some? && log[i].request.sequence <= LastSequence(log, cseq, d).value
  {
    var n := |log| - 1;
    if i < n {
      LastIsGreatest(log[..n], cseq, d, i);
    }
  }

  /** Accepted requests other than ACK carry strictly increasing CSeq numbers in each direction. */
  lemma {:induction false} SequencesIncrease(owner: string, cseq: nat, events: seq<Event>, d: Direction, i: nat, j: nat)
    requires var log := Run(owner, cseq, events).log; i < j < |log| && Counts(log[i], d) && Counts(log[j], d)
    ensures var log := Run(owner, cseq, events).log; log[i].request.sequence < log[j].request.sequence
  {
    var log := Run(owner, cseq, events).log;
    RunReflects(owner, cseq, events);
    LegalAt(log, cseq, j);
    LastIsGreatest(log[..j], cseq, d, i);
  }

  /** Forward requests also pass the CSeq of the initial INVITE. */
  lemma {:induction false} PastInitial(log: seq<Mark>, cseq: nat)
    requires Legal(log, cseq)
    ensures LastSequence(log, cseq, Forward).Some? && LastSequence(log, cseq, Forward).value >= cseq
    ensures forall i | 0 <= i < |log| :: Counts(log[i], Forward) ==> log[i].request.sequence > cseq
  {
    if log != [] {
      PastInitial(log[..|log| - 1], cseq);
    }
  }

  lemma {:induction false} ForwardRequestsPassInitial(owner: string, cseq: nat, events: seq<Event>, i: nat)
    requires i < |Run(owner, cseq, events).log| && Counts(Run(owner, cseq, events).log[i], Forward)
    ensures Run(owner, cseq, events).log[i].request.sequence > cseq
  {
    RunReflects(owner, cseq, events);
    PastInitial(Run(owner, cseq, events).log, cseq);
  }

  /** While the row is the dialog's own and its lock is free, an ACK is accepted if and only if it names
      the last INVITE accepted in its direction. */
  lemma {:induction false} AckNamesLastInvite(owner: string, cseq: nat, events: seq<Event>, r: Request)
    requires r.verb == Ack && Run(owner, cseq, events).row.owner == Some(owner)
    ensures var s := Run(owner, cseq, events);
      Admits(s, owner, r) <==> !s.clearing && LastInvite(s.log, cseq, r.direction) == Some(r.sequence)
  {
    RunReflects(owner, cseq, events);
  }

  /** A new PRACK is accepted if and only if no other is at it, its CSeq advances and its RAck names the
      RSeq kept and not cleared since, and the last INVITE accepted in its direction. */
  lemma {:induction false} PrackConsumesOutstanding(owner: string, cseq: nat, events: seq<Event>, r: Request)
    requires r.verb == Prack && !r.retransmission && Run(owner, cseq, events).row.owner == Some(owner)
    ensures var s := Run(owner, cseq, events);
      var last := LastSequence(s.log, cseq, r.direction);
      Admits(s, owner, r) <==>
        (!s.clearing && r.sequence > (if last.Some? then last.value else 0) && Outstanding(s.log) != ""
         && r.rack == Some(ExpectedRAck(Outstanding(s.log), LastInvite(s.log, cseq, r.direction))))
  {
    RunReflects(owner, cseq, events);
  }

  /** Any other new request is accepted if and only if the row is the dialog's own, its lock is free and its
      CSeq passes the last one of its direction, or zero where there is none. */
  lemma {:induction false} OtherRequestsExactly(owner: string, cseq: nat, events: seq<Event>, r: Request)
    requires r.verb != Ack && r.verb != Prack
    ensures var s := Run(owner, cseq, events);
      var last := LastSequence(s.log, cseq, r.direction);
      Admits(s, owner, r) <==>
        && !r.retransmission && s.row.owner == Some(owner) && !s.clearing
        && r.sequence > (if last.Some? then last.value else 0)
  {
    RunReflects(owner, cseq, events);
  }

  /** A retransmitted PRACK, and any request whose row is gone or another dialog's, is not accepted; and an
      accepted request becomes the last of its direction, an INVITE also what an ACK must name. */
  lemma {:induction false} AcceptedWrites(owner: string, cseq: nat, events: seq<Event>, r: Request)
    ensures var s, after := Run(owner, cseq, events), Run(owner, cseq, events + [Arrives(r)]);
      && (Admits(s, owner, r) ==>
            && s.row.owner == Some(owner) && (r.retransmission ==> r.verb == Ack)
            && after.log == s.log + [Took(r, s.reliable)] && after.reliable == s.reliable
            && after.clearing == (r.verb == Prack) && after.row.owner == Some(owner)
            && after.row.last == (if r.verb == Ack then s.row.last else s.row.last[r.direction := r.sequence])
            && after.row.invite == (if r.verb == Invite then s.row.invite[r.direction := r.sequence]
                                    else s.row.invite))
      && (!Admits(s, owner, r) ==> after == s)
  {
    RunSnoc(owner, cseq, events, Arrives(r));
  }

  ghost function Pracks(log: seq<Mark>): nat {
    if log == [] then 0
    else Pracks(log[..|log| - 1]) + if Consumes(log[|log| - 1]) then 1 else 0
  }

  ghost function Keeps(log: seq<Mark>): nat {
    if log == [] then 0 else Keeps(log[..|log| - 1]) + if log[|log| - 1].Kept? then 1 else 0
  }

  lemma {:induction false} EachKeepOnce(log: seq<Mark>, cseq: nat)
    requires Legal(log, cseq)
    ensures Pracks(log) + (if Outstanding(log) != "" && !Clearing(log) then 1 else 0) <= Keeps(log)
  {
    if log != [] {
      EachKeepOnce(log[..|log| - 1], cseq);
    }
  }

  /** There are never more accepted PRACKs than replies whose RSeq was kept. */
  lemma {:induction false} NoMorePracksThanKeeps(owner: string, cseq: nat, events: seq<Event>)
    ensures Pracks(Run(owner, cseq, events).log) <= Keeps(Run(owner, cseq, events).log)
  {
    RunReflects(owner, cseq, events);
    EachKeepOnce(Run(owner, cseq, events).log, cseq);
  }

  /** Position `k` kept what is still outstanding at `n`: nothing was kept, consumed or cleared in between. */
  ghost predicate Pending(log: seq<Mark>, k: int, n: int, rseq: string) {
    && 0 <= k < n <= |log| && log[k] == Kept(rseq)
    && forall i | k < i < n :: !log[i].Kept? && !log[i].Cleared? && !Consumes(log[i])
  }

  lemma {:induction false} OutstandingIsPending(log: seq<Mark>) returns (k: nat)
    requires Outstanding(log) != "" && !Clearing(log)
    ensures Pending(log, k, |log|, Outstanding(log))
  {
    var n := |log| - 1;
    if log[n].Kept? {
      k := n;
    } else {
      k := OutstandingIsPending(log[..n]);
      assert forall i | k < i < n :: log[..n][i] == log[i];
    }
  }

  /** Every accepted PRACK consumes the RSeq of one kept reply: the latest before it, with no other
      accepted PRACK and no reset in between. So no kept reply is consumed by two PRACKs. */
  lemma {:induction false} PracksPairWithKeeps(owner: string, cseq: nat, events: seq<Event>, j: nat) returns (k: nat)
    requires j < |Run(owner, cseq, events).log| && Consumes(Run(owner, cseq, events).log[j])
    ensures Pending(Run(owner, cseq, events).log, k, j, Run(owner, cseq, events).log[j].reliable)
  {
    var log := Run(owner, cseq, events).log;
    RunReflects(owner, cseq, events);
    LegalAt(log, cseq, j);
    k := OutstandingIsPending(log[..j]);
    assert forall i | 0 <= i < j :: log[..j][i] == log[i];
  }

  /** The same RSeq is consumed again only if a reply carrying it was kept again in between. */
  lemma {:induction false} ConsumedAgainOnlyIfKeptAgain(owner: string, cseq: nat, events: seq<Event>, i: nat, j: nat)
    requires i < j < |Run(owner, cseq, events).log|
    requires Consumes(Run(owner, cseq, events).log[i]) && Consumes(Run(owner, cseq, events).log[j])
    ensures var log := Run(owner, cseq, events).log; exists k | i < k < j :: log[k] == Kept(log[j].reliable)
  {
    var k := PracksPairWithKeeps(owner, cseq, events, j);
  }

  lemma FinishedStep(s: State, owner: string, e: Event)
    requires s.row.owner != Some(owner) && !s.clearing
    ensures var s' := Step(s, owner, e);
      s'.row.owner != Some(owner) && s.log <= s'.log && forall i | |s.log| <= i < |s'.log| :: s'.log[i].Kept?
  {
  }

  /** Once the row is gone or another dialog's, nothing more is accepted. */
  lemma {:induction false} NothingAfterFinish(owner: string, cseq: nat, events: seq<Event>, later: seq<Event>)
    requires Run(owner, cseq, events).row.owner != Some(owner)
    ensures Run(owner, cseq, events + later).row.owner != Some(owner)
    ensures forall i | |Run(owner, cseq, events).log| <= i < |Run(owner, cseq, events + later).log| ::
      Run(owner, cseq, events + later).log[i].Kept?
    ensures Run(owner, cseq, events).log <= Run(owner, cseq, events + later).log
  {
    if later == [] {
      assert events + later == events;
    } else {
      var n := |later| - 1;
      NothingAfterFinish(owner, cseq, events, later[..n]);
      RunReflects(owner, cseq, events + later[..n]);
      RunSnoc(owner, cseq, events + later[..n], later[n]);
      assert events + later == events + later[..n] + [later[n]];
      FinishedStep(Run(owner, cseq, events + later[..n]), owner, later[n]);
    }
  }

  // ----- the expected RAck determines what it names --------------------------------------------------

  lemma {:induction false} DecimalIsDigits(n: nat)
    ensures IsDigits(Decimal(n)) && |Decimal(n)| > 0 && Value(Decimal(n)) == n
  {
    if n >= 10 {
      DecimalIsDigits(n / 10);
      var s := Decimal(n);
      assert s[..|s| - 1] == Decimal(n / 10) && s[|s| - 1] == Digit(n % 10);
    } else {
      var s := Decimal(n);
      assert s[..0] == [] && Value(s) == 10 * Value(s[..0]) + n;
    }
  }

  /** Text up to the first space. */
  lemma SplitAtSpace(a: string, b: string, x: string, y: string)
    requires ' ' !in a && ' ' !in b && a + " " + x == b + " " + y
    ensures a == b && x == y
  {
    var s := a + " " + x;
    assert s[|a|] == ' ' && s == b + " " + y && s[|b|] == ' ';
    assert a == s[..|a|] && b == s[..|b|];
    assert x == s[|a| + 1..] && y == s[|b| + 1..];
  }

  function Rendered(invite: Option<nat>): string {
    match invite case Some(n) => Decimal(n) case None => "None"
  }

  /** A numeral without a leading zero is the rendering of its value. */
  lemma {:induction false} NumeralIsDecimal(s: string)
    requires s != "" && IsDigits(s) && s[0] != '0'
    ensures Value(s) > 0 && s == Decimal(Value(s))
  {
    var n := |s| - 1;
    if n > 0 {
      NumeralIsDecimal(s[..n]);
      assert Value(s) / 10 == Value(s[..n]) && Digit(Value(s) % 10) == s[n];
      assert s == s[..n] + [s[n]];
    } else {
      assert s[..0] == "" && Value(s) == 10 * Value(s[..0]) + (s[0] as int - '0' as int);
      assert s == [s[0]];
    }
  }

  lemma {:induction false} DecimalLeads(n: nat)
    requires n > 0
    ensures Decimal(n)[0] != '0'
  {
    if n >= 10 { DecimalLeads(n / 10); }
  }

  lemma {:induction false} DecimalLength(n: nat, k: nat)
    requires n < Power(k) && k > 0
    ensures |Decimal(n)| <= k
  {
    if n >= 10 { DecimalLength(n / 10, k - 1); }
  }

  function Power(k: nat): nat {
    if k == 0 then 1 else 10 * Power(k - 1)
  }

  /** An RSeq is well formed if and only if it is the plain rendering of a number from 1 to 2147483647. */
  lemma {:induction false} RSeqIsANumber(s: string)
    ensures WellFormedRSeq(s) <==> exists n | 1 <= n <= 2147483647 :: s == Decimal(n)
  {
    if WellFormedRSeq(s) {
      NumeralIsDecimal(s);
    }
    if n :| 1 <= n <= 2147483647 && s == Decimal(n) {
      DecimalIsDigits(n);
      DecimalLeads(n);
      assert Power(10) == 10_000_000_000;
      DecimalLength(n, 10);
    }
  }

  /** Different RSeq numbers, INVITEs, or the lack of one never share an expected RAck. */
  lemma {:induction false} RAckNamesOne(r1: string, i1: Option<nat>, r2: string, i2: Option<nat>)
    requires IsDigits(r1) && IsDigits(r2) && ExpectedRAck(r1, i1) == ExpectedRAck(r2, i2)
    ensures r1 == r2 && i1 == i2
  {
    var x1, x2 := Rendered(i1), Rendered(i2);
    assert ExpectedRAck(r1, i1) == r1 + " " + (x1 + " INVITE");
    assert ExpectedRAck(r2, i2) == r2 + " " + (x2 + " INVITE");
    SplitAtSpace(r1, r2, x1 + " INVITE", x2 + " INVITE");
    assert x1 == (x1 + " INVITE")[..|x1|] && x2 == (x2 + " INVITE")[..|x2|] && |x1| == |x2|;
    if i1.Some? { DecimalIsDigits(i1.value); }
    if i2.Some? { DecimalIsDigits(i2.value); }
    assert "None"[0] == 'N';
  }

  /** An accepted PRACK whose RAck is two numbers and the method names the outstanding RSeq and the last
      INVITE of its direction. */
  lemma {:induction false} PrackNamesLastInvite(owner: string, cseq: nat, events: seq<Event>, r: Request, rseq: string,
                                                n: nat)
    requires r.verb == Prack && !r.retransmission && IsDigits(rseq) && r.rack == Some(ExpectedRAck(rseq, Some(n)))
    requires Admits(Run(owner, cseq, events), owner, r)
    ensures var s := Run(owner, cseq, events);
      rseq == Outstanding(s.log) && LastInvite(s.log, cseq, r.direction) == Some(n)
  {
    RunReflects(owner, cseq, events);
    var s := Run(owner, cseq, events);
    OutstandingIsDigits(s.log, cseq);
    RAckNamesOne(rseq, Some(n), s.reliable, LastInvite(s.log, cseq, r.direction));
  }

  /** A PRACK that names no INVITE, but is otherwise due, is accepted if and only if its direction has
      had no INVITE. */
  lemma {:induction false} PrackWithoutInviteExactly(owner: string, cseq: nat, events: seq<Event>, r: Request)
    requires r.verb == Prack && !r.retransmission && Run(owner, cseq, events).row.owner == Some(owner)
    requires var s := Run(owner, cseq, events);
      s.reliable != "" && r.sequence > (if r.direction in s.row.last then s.row.last[r.direction] else 0)
      && r.rack == Some(ExpectedRAck(s.reliable, None))
    ensures var s := Run(owner, cseq, events);
      Admits(s, owner, r) <==> !s.clearing && LastInvite(s.log, cseq, r.direction) == None
  {
    RunReflects(owner, cseq, events);
    var s := Run(owner, cseq, events);
    OutstandingIsDigits(s.log, cseq);
    var invite := LastInvite(s.log, cseq, r.direction);
    assert Lookup(s.row.invite, r.direction) == invite;
    if ExpectedRAck(s.reliable, None) == ExpectedRAck(s.reliable, invite) {
      RAckNamesOne(s.reliable, None, s.reliable, invite);
    }
  }

  lemma {:induction false} OutstandingIsDigits(log: seq<Mark>, cseq: nat)
    requires Legal(log, cseq)
    ensures IsDigits(Outstanding(log)) && (Outstanding(log) != "" ==> WellFormedRSeq(Outstanding(log)))
  {
    if log != [] {
      OutstandingIsDigits(log[..|log| - 1], cseq);
    }
  }

  lemma RunTwo(owner: string, cseq: nat, events: seq<Event>, e: Event, f: Event)
    ensures Run(owner, cseq, events + [e] + [f]) == Step(Step(Run(owner, cseq, events), owner, e), owner, f)
  {
    RunSnoc(owner, cseq, events, e);
    RunSnoc(owner, cseq, events + [e], f);
  }

  // ----- replies ----------------------------------------------------------------------------------

  lemma {:induction false} PrefixLegal(log: seq<Mark>, cseq: nat, n: nat)
    requires Legal(log, cseq) && n <= |log|
    ensures Legal(log[..n], cseq)
  {
    if n < |log| {
      LegalAt(log, cseq, n);
    } else {
      assert log[..n] == log;
    }
  }

  lemma ReadFacts(owner: string, cseq: nat, events: seq<Event>, p: Pid)
    requires p in Run(owner, cseq, events).replies
    ensures var s := Run(owner, cseq, events);
      ReadThen(s.replies[p], s.log) && IsDigits(s.replies[p].read) && IsDigits(s.reliable)
  {
    RunReflects(owner, cseq, events);
    var s := Run(owner, cseq, events);
    assert ReadThen(s.replies[p], s.log);
    PrefixLegal(s.log, cseq, s.replies[p].at);
    OutstandingIsDigits(s.log[..s.replies[p].at], cseq);
    OutstandingIsDigits(s.log, cseq);
  }

  /** A reply writes its RSeq if and only if nothing was outstanding when it read the variable, or nothing
      greater. What has been kept, consumed or cleared since plays no part. */
  lemma {:induction false} ReplyKeptExactly(owner: string, cseq: nat, events: seq<Event>, p: Pid)
    requires p in Run(owner, cseq, events).replies
    ensures var s := Run(owner, cseq, events);
      var reply := s.replies[p];
      var after := Run(owner, cseq, events + [Writes(p)]);
      && reply.at <= |s.log| && IsDigits(Outstanding(s.log[..reply.at])) && IsDigits(reply.rseq)
      && var seen := Outstanding(s.log[..reply.at]);
         && (after.log == s.log + [Kept(reply.rseq)] && after.reliable == reply.rseq <==>
               seen == "" || Value(reply.rseq) >= Value(seen))
         && (after.log == s.log && after.reliable == s.reliable <==>
               seen != "" && Value(reply.rseq) < Value(seen))
  {
    ReadFacts(owner, cseq, events, p);
    RunSnoc(owner, cseq, events, Writes(p));
  }

  /** A reply whose read and write nothing comes between does what its code reads like. */
  lemma {:induction false} UninterruptedReply(owner: string, cseq: nat, events: seq<Event>, p: Pid, rseq: string)
    requires p !in Run(owner, cseq, events).replies
    ensures var s := Run(owner, cseq, events);
      var after := Run(owner, cseq, events + [Reads(p, rseq)] + [Writes(p)]);
      && after.reliable == StoreReliable(s.reliable, rseq) && after.row == s.row && after.replies == s.replies
      && after.log == if WellFormedRSeq(rseq) && Supersedes(s.reliable, rseq) then s.log + [Kept(rseq)] else s.log
  {
    RunTwo(owner, cseq, events, Reads(p, rseq), Writes(p));
    var s := Run(owner, cseq, events);
    assert s.replies[p := Reply(rseq, s.reliable, |s.log|)] - {p} == s.replies;
  }

  /** A request whose checks and reset nothing comes between does what its code reads like. */
  lemma {:induction false} UninterruptedRequest(owner: string, cseq: nat, events: seq<Event>, r: Request)
    requires !Run(owner, cseq, events).clearing
    ensures var s := Run(owner, cseq, events);
      var after := Run(owner, cseq, events + [Arrives(r)] + [Clears]);
      (after.row, after.reliable) == (Validate(s.row, owner, s.reliable, r).1, Validate(s.row, owner, s.reliable, r).2)
  {
    RunTwo(owner, cseq, events, Arrives(r), Clears);
  }

  /** The variable falls: a greater RSeq is outstanding and the reply writes over it. */
  ghost predicate Lowers(owner: string, cseq: nat, events: seq<Event>, p: Pid) {
    var now, after := Run(owner, cseq, events).reliable, Run(owner, cseq, events + [Writes(p)]).reliable;
    IsDigits(now) && IsDigits(after) && now != "" && after != "" && Value(after) < Value(now)
  }

  /** What is outstanding now and was not at `at` was kept in between. */
  lemma {:induction false} KeptSince(log: seq<Mark>, at: nat)
    requires at <= |log| && Outstanding(log) != "" && Outstanding(log) != Outstanding(log[..at])
    ensures exists k | at <= k < |log| :: log[k] == Kept(Outstanding(log))
  {
    var n := |log| - 1;
    assert log[..|log|] == log;
    if !log[n].Kept? {
      assert log[..n][..at] == log[..at];
      KeptSince(log[..n], at);
      var k :| at <= k < n && log[..n][k] == Kept(Outstanding(log));
      assert log[k] == Kept(Outstanding(log));
    }
  }

  /** A reply lowers the outstanding RSeq if and only if it carries a smaller one that was not smaller than
      what it read; and then the greater one was kept between its read and its write. */
  lemma {:induction false} LoweredExactly(owner: string, cseq: nat, events: seq<Event>, p: Pid)
    requires p in Run(owner, cseq, events).replies
    ensures var s := Run(owner, cseq, events);
      var reply := s.replies[p];
      && IsDigits(s.reliable) && IsDigits(reply.rseq)
      && (Lowers(owner, cseq, events, p) <==>
            Supersedes(reply.read, reply.rseq) && s.reliable != "" && Value(reply.rseq) < Value(s.reliable))
      && (Lowers(owner, cseq, events, p) ==> exists k | reply.at <= k < |s.log| :: s.log[k] == Kept(s.reliable))
  {
    ReadFacts(owner, cseq, events, p);
    RunSnoc(owner, cseq, events, Writes(p));
    RunReflects(owner, cseq, events);
    var s := Run(owner, cseq, events);
    if Lowers(owner, cseq, events, p) {
      KeptSince(s.log, s.replies[p].at);
    }
  }

  /** Over a PRACK's reset, a reply writes its RSeq back if and only if it was not below what it read; one
      that reads after the reset always does. */
  lemma {:induction false} ResetOverwrittenExactly(owner: string, cseq: nat, events: seq<Event>, p: Pid, q: Pid)
    requires var s := Run(owner, cseq, events); s.reliable == "" && p in s.replies && q !in s.replies
    ensures var reply := Run(owner, cseq, events).replies[p];
      && (Run(owner, cseq, events + [Writes(p)]).reliable == reply.rseq <==> Supersedes(reply.read, reply.rseq))
      && Run(owner, cseq, events + [Reads(q, reply.rseq)] + [Writes(q)]).reliable == reply.rseq
  {
    ReadFacts(owner, cseq, events, p);
    RunSnoc(owner, cseq, events, Writes(p));
    UninterruptedReply(owner, cseq, events, q, Run(owner, cseq, events).replies[p].rseq);
  }

  /** The PRACK that has yet to clear: after it there are only replies. */
  ghost predicate AtWork(log: seq<Mark>, j: int) {
    0 <= j < |log| && Consumes(log[j]) && forall i | j < i < |log| :: log[i].Kept?
  }

  lemma {:induction false} PrackAtWork(log: seq<Mark>, cseq: nat) returns (j: nat)
    requires Legal(log, cseq) && Clearing(log)
    ensures AtWork(log, j)
    ensures Outstanding(log) == if log[|log| - 1].Kept? then log[|log| - 1].rseq else log[j].reliable
  {
    var n := |log| - 1;
    if Consumes(log[n]) {
      j := n;
    } else {
      j := PrackAtWork(log[..n], cseq);
      assert forall i | j < i < n :: log[..n][i] == log[i];
    }
  }

  /** A PRACK that clears has named what it clears if and only if no reply, or last one that carries the
      same RSeq, was kept between its check and its reset. */
  lemma {:induction false} ClearsNamedExactly(owner: string, cseq: nat, events: seq<Event>) returns (j: nat)
    requires Run(owner, cseq, events).clearing
    ensures var s := Run(owner, cseq, events);
      && AtWork(s.log, j) && Run(owner, cseq, events + [Clears]).reliable == ""
      && (s.reliable == s.log[j].reliable <==> j == |s.log| - 1 || s.log[|s.log| - 1] == Kept(s.log[j].reliable))
  {
    RunReflects(owner, cseq, events);
    RunSnoc(owner, cseq, events, Clears);
    j := PrackAtWork(Run(owner, cseq, events).log, cseq);
  }

  /** A PRACK that is new in its direction and names this RSeq and the last INVITE there. */
  ghost predicate Due(s: State, owner: string, rseq: string, r: Request) {
    && s.row.owner == Some(owner) && !s.clearing && r.verb == Prack && !r.retransmission
    && r.sequence > (if r.direction in s.row.last then s.row.last[r.direction] else 0)
    && r.rack == Some(ExpectedRAck(rseq, Lookup(s.row.invite, r.direction)))
  }

  lemma DueExactly(s: State, owner: string, rseq: string, r: Request)
    requires IsDigits(s.reliable) && WellFormedRSeq(rseq) && Due(s, owner, rseq, r)
    ensures Admits(s, owner, r) <==> s.reliable == rseq
  {
    var invite := Lookup(s.row.invite, r.direction);
    if s.reliable != "" && ExpectedRAck(s.reliable, invite) == ExpectedRAck(rseq, invite) {
      RAckNamesOne(s.reliable, invite, rseq, invite);
    }
  }

  /** The PRACK that follows a reply's write and names it is accepted if and only if the reply was kept, or
      its RSeq was outstanding already. */
  lemma {:induction false} PrackAfterReplyExactly(owner: string, cseq: nat, events: seq<Event>, p: Pid, r: Request)
    requires var s := Run(owner, cseq, events); p in s.replies && Due(s, owner, s.replies[p].rseq, r)
    ensures var s := Run(owner, cseq, events);
      var reply := s.replies[p];
      var written := Run(owner, cseq, events + [Writes(p)]);
      var after := Run(owner, cseq, events + [Writes(p)] + [Arrives(r)]).log;
      && (after == written.log + [Took(r, reply.rseq)] <==>
            Supersedes(reply.read, reply.rseq) || s.reliable == reply.rseq)
      && (after == written.log <==> !Supersedes(reply.read, reply.rseq) && s.reliable != reply.rseq)
  {
    ReadFacts(owner, cseq, events, p);
    RunSnoc(owner, cseq, events, Writes(p));
    RunTwo(owner, cseq, events, Writes(p), Arrives(r));
    var s := Run(owner, cseq, events);
    DueExactly(Step(s, owner, Writes(p)), owner, s.replies[p].rseq, r);
  }

  /** So an RSeq that was consumed is consumed again by the next write of a reply that carries it and the
      next PRACK that names it if and only if nothing greater was outstanding when the reply read the
      variable, or the RSeq is outstanding again already. */
  lemma {:induction false} ConsumedAgainExactly(owner: string, cseq: nat, events: seq<Event>, i: nat, p: Pid,
                                                r: Request)
    requires var s := Run(owner, cseq, events);
      && i < |s.log| && Consumes(s.log[i]) && p in s.replies && s.replies[p].rseq == s.log[i].reliable
      && Due(s, owner, s.log[i].reliable, r)
    ensures var s := Run(owner, cseq, events);
      var rseq := s.log[i].reliable;
      var after := Run(owner, cseq, events + [Writes(p)] + [Arrives(r)]).log;
      (exists j | |s.log| <= j < |after| :: Consumes(after[j]) && after[j].reliable == rseq) <==>
        Supersedes(s.replies[p].read, rseq) || s.reliable == rseq
  {
    var s := Run(owner, cseq, events);
    var rseq := s.log[i].reliable;
    PrackAfterReplyExactly(owner, cseq, events, p, r);
    RunSnoc(owner, cseq, events, Writes(p));
    var written := Run(owner, cseq, events + [Writes(p)]).log;
    var after := Run(owner, cseq, events + [Writes(p)] + [Arrives(r)]).log;
    if after == written + [Took(r, rseq)] {
      assert Consumes(after[|written|]) && after[|written|].reliable == rseq;
    }
  }

  // ----- witnesses ---------------------------------------------------------------------------------------

  function SamplePrack(d: Direction, sequence: nat, rack: string): Request {
    Request(Prack, d, sequence, Some(rack), false)
  }

  lemma SampleNumerals()
    ensures Decimal(1) == "1" && WellFormedRSeq("1") && Value("1") == 1 && WellFormedRSeq("2") && Value("2") == 2
  {
    assert "1"[..0] == "" && Value("1") == 10 * Value("1"[..0]) + 1;
    assert "2"[..0] == "" && Value("2") == 10 * Value("2"[..0]) + 2;
  }

  /** A dialog opened with CSeq 1, its last forward CSeq and what is outstanding. */
  function Sample(owner: string, last: nat, reliable: string, log: seq<Mark>): State {
    State(Row(Some(owner), map[Forward := last], map[Forward := 1]), reliable, map[], false, log)
  }

  lemma SampleReply(owner: string, events: seq<Event>, last: nat, log: seq<Mark>)
    requires Run(owner, 1, events) == Sample(owner, last, "", log)
    ensures Run(owner, 1, events + [Reads(0, "1")] + [Writes(0)]) == Sample(owner, last, "1", log + [Kept("1")])
  {
    SampleNumerals();
    UninterruptedReply(owner, 1, events, 0, "1");
    RunTwo(owner, 1, events, Reads(0, "1"), Writes(0));
  }

  /** The PRACK that names RSeq 1 passes its checks. */
  lemma SampleChecks(owner: string, events: seq<Event>, last: nat, log: seq<Mark>)
    requires Run(owner, 1, events) == Sample(owner, last, "1", log)
    ensures var prack := SamplePrack(Forward, last + 1, "1 1 INVITE");
      Run(owner, 1, events + [Arrives(prack)]) ==
        Sample(owner, last + 1, "1", log + [Took(prack, "1")]).(clearing := true)
  {
    SampleNumerals();
    assert ExpectedRAck("1", Some(1)) == "1 1 INVITE";
    assert map[Forward := last][Forward := last + 1] == map[Forward := last + 1];
    RunSnoc(owner, 1, events, Arrives(SamplePrack(Forward, last + 1, "1 1 INVITE")));
  }

  function SampleRound(sequence: nat): seq<Event> {
    [Reads(0, "1")] + [Writes(0)] + [Arrives(SamplePrack(Forward, sequence, "1 1 INVITE"))] + [Clears]
  }

  /** A reply with RSeq 1 and the PRACK that consumes it. */
  lemma SampleRoundTakes(owner: string, events: seq<Event>, last: nat, log: seq<Mark>)
    requires Run(owner, 1, events) == Sample(owner, last, "", log)
    ensures var taken := Took(SamplePrack(Forward, last + 1, "1 1 INVITE"), "1");
      Run(owner, 1, events + SampleRound(last + 1)) ==
        Sample(owner, last + 1, "", log + [Kept("1")] + [taken] + [Cleared])
  {
    var prack := SamplePrack(Forward, last + 1, "1 1 INVITE");
    var replied := events + [Reads(0, "1")] + [Writes(0)];
    SampleReply(owner, events, last, log);
    SampleChecks(owner, replied, last, log + [Kept("1")]);
    RunSnoc(owner, 1, replied + [Arrives(prack)], Clears);
    assert events + SampleRound(last + 1) == replied + [Arrives(prack)] + [Clears];
  }

  /** A retransmitted reply lets RSeq 1 be consumed twice. */
  lemma RSeqCanBeConsumedTwice(owner: string)
    ensures var log := Run(owner, 1, SampleRound(2) + SampleRound(3)).log;
      |log| == 6 && Consumes(log[1]) && Consumes(log[4]) && log[1].reliable == log[4].reliable == "1"
  {
    SampleRoundTakes(owner, [], 1, []);
    assert [] + SampleRound(2) == SampleRound(2);
    var log := Run(owner, 1, SampleRound(2)).log;
    assert |log| == 3 && Consumes(log[1]) && log[1].reliable == "1";
    SampleRoundTakes(owner, SampleRound(2), 2, log);
  }

  /** A PRACK in a direction without an INVITE is accepted with a RAck that names none. */
  lemma PrackCanNameNoInvite(owner: string)
    ensures Admits(Run(owner, 1, [Reads(0, "1")] + [Writes(0)]), owner, SamplePrack(Reverse, 1, "1 None INVITE"))
  {
    SampleReply(owner, [], 1, []);
    assert [] + [Reads(0, "1")] + [Writes(0)] == [Reads(0, "1")] + [Writes(0)];
    assert ExpectedRAck("1", None) == "1 None INVITE";
  }

  /** Two replies that read before either writes: RSeq 2 is kept, and then RSeq 1 over it. */
  lemma RSeqCanFall(owner: string)
    ensures Lowers(owner, 1, [Reads(0, "1")] + [Reads(1, "2")] + [Writes(1)], 0)
  {
    SampleNumerals();
    var read := [Reads(0, "1")] + [Reads(1, "2")];
    RunTwo(owner, 1, [], Reads(0, "1"), Reads(1, "2"));
    assert [] + [Reads(0, "1")] + [Reads(1, "2")] == read;
    RunSnoc(owner, 1, read, Writes(1));
    RunSnoc(owner, 1, read + [Writes(1)], Writes(0));
  }

  /** A reply kept between a PRACK's check and its reset is erased: the PRACK that names it is refused. */
  lemma KeptRSeqCanBeErased(owner: string)
    ensures var prack := SamplePrack(Forward, 2, "1 1 INVITE");
      var checked := [Reads(0, "1")] + [Writes(0)] + [Arrives(prack)];
      var s := Run(owner, 1, checked + [Reads(0, "2")] + [Writes(0)] + [Clears]);
      && Kept("2") in s.log && s.reliable == ""
      && !Admits(s, owner, SamplePrack(Forward, 3, "2 1 INVITE"))
  {
    SampleNumerals();
    var prack := SamplePrack(Forward, 2, "1 1 INVITE");
    var replied := [Reads(0, "1")] + [Writes(0)];
    SampleReply(owner, [], 1, []);
    assert [] + replied == replied;
    SampleChecks(owner, replied, 1, [Kept("1")]);
    var checked := replied + [Arrives(prack)];
    UninterruptedReply(owner, 1, checked, 0, "2");
    RunTwo(owner, 1, checked, Reads(0, "2"), Writes(0));
    var kept := checked + [Reads(0, "2")] + [Writes(0)];
    var log := Run(owner, 1, kept).log;
    assert log[|log| - 1] == Kept("2");
    RunSnoc(owner, 1, kept, Clears);
  }
}
