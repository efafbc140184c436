/**
  The service that claims and executes compliance plans, over the fenced table of `ComplianceLease`. A
  call reads the clock and the row, decides, and sends at most one statement; the fence reads the clock
  again when the statement arrives. Whether plan and approval still hold is an input.
*/
module ComplianceService {
  import opened Prelude
  import opened ComplianceLease

  type Plan = (Id, Id)

  const NO_RESULT := "{}"

  datatype Call =
    | ClaimPlan(plan: Plan, owner: Id, seconds: nat, allowed: bool, now: Time, fenced: Time, elapsed: nat)
    | ExecutePlan(plan: Plan, owner: Id, generation: int, result: string, allowed: bool, now: Time, effect: Time,
                  completed: Time, fenced: Time, elapsed: nat)

  /** The row of a plan, if there is one. */
  function Current(slots: Slots, plan: Plan): Option<Execution> {
    if plan in slots && slots[plan] != [] then Some(slots[plan][|slots[plan]| - 1]) else None
  }

  /** What a claim sends: an insert, a takeover, or nothing. */
  function ClaimStatement(row: Option<Execution>, c: Call): Option<Statement>
    requires c.ClaimPlan?
  {
    if row.Some? && row.value.state != Claimed then None
    else if !c.allowed then None
    else
      match row
      case None => Some(Claim(c.plan, Execution(c.owner, 1, Claimed, c.now + c.seconds, NO_RESULT, None, "")))
      case Some(was) =>
        if was.lease > c.now || was.owner == c.owner then None
        else
          Some(Change(c.plan, was.(owner := c.owner, generation := was.generation + 1, lease := c.now + c.seconds),
                      c.fenced, c.elapsed))
  }

  /** What an execution sends: the finishing update, or nothing. */
  function ExecuteStatement(row: Option<Execution>, c: Call): Option<Statement>
    requires c.ExecutePlan?
  {
    match row
    case None => None
    case Some(was) =>
      if was.owner != c.owner || was.generation != c.generation || was.state != Claimed then None
      else if was.lease <= c.now || !c.allowed || was.lease <= c.effect then None
      else
        Some(Change(c.plan, was.(state := Completed, result := c.result, completedAt := Some(c.completed)),
          c.fenced, c.elapsed))
  }

  function Sends(slots: Slots, c: Call): Option<Statement> {
    match c
    case ClaimPlan(plan, _, _, _, _, _, _) => ClaimStatement(Current(slots, plan), c)
    case ExecutePlan(plan, _, _, _, _, _, _, _, _, _) => ExecuteStatement(Current(slots, plan), c)
  }

  function Serve(slots: Slots, c: Call): Slots {
    match Sends(slots, c) case Some(s) => Step(slots, s) case None => slots
  }

  /** The table after the calls. */
  function Served(calls: seq<Call>): Slots {
    if calls == [] then map[] else Serve(Served(calls[..|calls| - 1]), calls[|calls| - 1])
  }

  /** The statements the calls sent, in order. */
  ghost function Sent(calls: seq<Call>): seq<Statement> {
    if calls == [] then []
    else
      var before := calls[..|calls| - 1];
      Sent(before) + match Sends(Served(before), calls[|calls| - 1]) { case Some(s) => [s] case None => [] }
  }

  /** The service does nothing but send statements, so all that holds of every run holds of it. */
  lemma {:induction false} ServiceIsARun(calls: seq<Call>)
    ensures Served(calls) == After(Sent(calls))
  {
    if calls != [] {
      var before := calls[..|calls| - 1];
      ServiceIsARun(before);
      var sent := Sent(calls);
      match Sends(Served(before), calls[|calls| - 1])
      case Some(s) => assert sent[..|sent| - 1] == Sent(before);
      case None => assert sent == Sent(before);
    }
  }

  /** The versions the service writes: claims with no result, takeovers that set the lease only, and a
      finishing version that is COMPLETED. */
  ghost predicate ServiceRow(v: seq<Execution>) {
    && |v| > 0 && v[0].result == NO_RESULT && TakeoversSetLeaseOnly(v)
    && forall i | 0 <= i < |v| :: v[i].state == Claimed || v[i].state == Completed
  }

  lemma RowGrows(v: seq<Execution>, row: Execution)
    requires ServiceRow(v) && (row.state == Completed || (row.state == Claimed && SetsLeaseOnly(v[|v| - 1], row)))
    ensures ServiceRow(v + [row])
  {
    var longer := v + [row];
    forall i | 0 < i < |longer|
      ensures longer[i].state == Claimed ==> SetsLeaseOnly(longer[i - 1], longer[i])
    {
      assert longer[i - 1] == v[i - 1];
      assert i < |v| ==> longer[i] == v[i];
    }
  }

  lemma ServeKeepsRows(slots: Slots, c: Call)
    requires forall p | p in slots :: ServiceRow(slots[p])
    ensures forall p | p in Serve(slots, c) :: ServiceRow(Serve(slots, c)[p])
  {
    var s := Sends(slots, c);
    if s.Some? && s.value.Change? && Execute(slots, s.value).Some? {
      RowGrows(slots[c.plan], s.value.row);
    }
  }

  lemma {:induction false} ServedRows(calls: seq<Call>)
    ensures forall p | p in Served(calls) :: ServiceRow(Served(calls)[p])
  {
    if calls != [] {
      ServedRows(calls[..|calls| - 1]);
      ServeKeepsRows(Served(calls[..|calls| - 1]), calls[|calls| - 1]);
    }
  }

  // ----- when a call sends a statement ------------------------------------------------------------------

  /** An execution is sent if and only if the caller owns the current claim of the plan by owner and
      generation, plan and approval hold, and the lease was not over at either look at the clock; it then
      completes the row with the caller's result and changes nothing else of it. */
  lemma {:induction false} ExecutionSentExactly(slots: Slots, c: Call)
    requires c.ExecutePlan?
    ensures Sends(slots, c).Some? <==>
      && c.plan in slots && slots[c.plan] != []
      && var was := Latest(slots[c.plan]);
         && was.state == Claimed && was.owner == c.owner && was.generation == c.generation
         && c.allowed && c.now < was.lease && c.effect < was.lease
    ensures Sends(slots, c).Some? ==>
      var was := Latest(slots[c.plan]);
      Sends(slots, c).value ==
        Change(c.plan, was.(state := Completed, result := c.result, completedAt := Some(c.completed)), c.fenced,
               c.elapsed)
  {
  }

  /** A claim is sent if and only if plan and approval hold and there is no row, or a claimed one of another
      owner whose lease is over; it is the first generation, or the next one, for the caller's seconds. */
  lemma {:induction false} ClaimSentExactly(slots: Slots, c: Call)
    requires c.ClaimPlan?
    ensures var unclaimed := c.plan !in slots || slots[c.plan] == [];
      && (Sends(slots, c).Some? <==>
            c.allowed && (unclaimed || (Latest(slots[c.plan]).state == Claimed && Latest(slots[c.plan]).lease <= c.now
                                    && Latest(slots[c.plan]).owner != c.owner)))
      && (Sends(slots, c).Some? ==>
            Sends(slots, c).value ==
              if unclaimed then Claim(c.plan, Execution(c.owner, 1, Claimed, c.now + c.seconds, "{}", None, ""))
              else
                var was := Latest(slots[c.plan]);
                Change(c.plan, was.(owner := c.owner, generation := was.generation + 1, lease := c.now + c.seconds),
                       c.fenced, c.elapsed))
  {
  }

  /** The call that completed a claim: by its owner, for its generation, with this result. */
  predicate Completes(c: Call, plan: Plan, claim: Execution, row: Execution) {
    && c.ExecutePlan? && c.plan == plan && c.allowed && c.owner == claim.owner && c.generation == claim.generation
    && c.result == row.result && c.now < claim.lease && c.effect < claim.lease && c.fenced < claim.lease
    && row == claim.(state := Completed, result := c.result, completedAt := Some(c.completed))
  }

  ghost predicate CompletedBySome(calls: seq<Call>, plan: Plan, claim: Execution, row: Execution) {
    exists c | c in calls :: Completes(c, plan, claim, row)
  }

  lemma ServeCompletes(slots: Slots, c: Call, plan: Plan, i: nat)
    requires plan in Serve(slots, c) && 0 < i < |Serve(slots, c)[plan]| && Serve(slots, c)[plan][i].state != Claimed
    requires !(plan in slots && i < |slots[plan]|)
    ensures Completes(c, plan, Serve(slots, c)[plan][i - 1], Serve(slots, c)[plan][i])
  {
  }

  lemma ServeKeeps(slots: Slots, c: Call, plan: Plan)
    ensures plan in slots && slots[plan] != [] ==> plan in Serve(slots, c) && slots[plan] <= Serve(slots, c)[plan]
  {
  }

  /** A finished version was written by a call of the owner of the claim before it, for its generation, while
      its lease ran, with that call's result. */
  lemma {:induction false} CompletedByItsOwner(calls: seq<Call>, plan: Plan, i: nat)
    requires plan in Served(calls) && 0 < i < |Served(calls)[plan]| && Served(calls)[plan][i].state != Claimed
    ensures CompletedBySome(calls, plan, Served(calls)[plan][i - 1], Served(calls)[plan][i])
  {
    if calls != [] {
      var before, c := calls[..|calls| - 1], calls[|calls| - 1];
      if plan in Served(before) && i < |Served(before)[plan]| {
        ServeKeeps(Served(before), c, plan);
        CompletedByItsOwner(before, plan, i);
        var d :| d in before && Completes(d, plan, Served(calls)[plan][i - 1], Served(calls)[plan][i]);
        assert d in calls;
      } else {
        ServeCompletes(Served(before), c, plan, i);
        assert c in calls;
      }
    }
  }

  /** Over every sequence of calls, by any callers at any time, a plan's result is empty until the single
      version that completes it, and that one carries the result of a call by the owner of the claim it ends,
      for that generation. */
  lemma {:induction false} ResultWrittenOnce(calls: seq<Call>, plan: Plan, i: nat)
    requires plan in Served(calls) && i < |Served(calls)[plan]|
    ensures var v := Served(calls)[plan];
      && (v[i].state == Claimed ==> v[i].result == NO_RESULT)
      && (v[i].state != Claimed ==>
            i == |v| - 1 && i > 0 && CompletedBySome(calls, plan, v[i - 1], v[i]))
  {
    ServedRows(calls);
    ServiceIsARun(calls);
    assert ServiceRow(Served(calls)[plan]);
    ResultStaysInserted(Sent(calls), plan, i);
    FinishedAtMostOnce(Sent(calls), plan, i);
    if Served(calls)[plan][i].state != Claimed { CompletedByItsOwner(calls, plan, i); }
  }

  /** The fence refuses a finishing update exactly when the lease ran out between the service's last look
      at the clock and its own. */
  lemma {:induction false} FinishRefusedExactly(calls: seq<Call>, c: Call)
    requires c.ExecutePlan? && Sends(Served(calls), c).Some?
    ensures var was := Current(Served(calls), c.plan);
      was.Some? && (Execute(Served(calls), Sends(Served(calls), c).value).None? <==> was.value.lease <= c.fenced)
  {
    ServiceIsARun(calls);
    RunInv(Sent(calls));
    var v := Served(calls)[c.plan];
    VersionsCount(v, |v| - 1);
  }

  lemma TakeoverFenced(was: Execution, c: Call)
    requires c.ClaimPlan? && c.now <= c.fenced && was.generation > 0 && was.completedAt == None
    requires ClaimStatement(Some(was), c).Some?
    ensures var s := ClaimStatement(Some(was), c).value;
      s.Change? && s.plan == c.plan &&
      (Fence(was, s.row, s.now, s.now + s.elapsed) <==> c.fenced + c.elapsed < c.now + c.seconds)
  {
  }

  /** With clock readings in order, the fence refuses a takeover exactly when the new lease has already
      run out. */
  lemma {:induction false} TakeoverRefusedExactly(calls: seq<Call>, c: Call)
    requires c.ClaimPlan? && Sends(Served(calls), c).Some? && c.now <= c.fenced && Current(Served(calls), c.plan).Some?
    ensures Execute(Served(calls), Sends(Served(calls), c).value).None? <==> c.now + c.seconds <= c.fenced + c.elapsed
  {
    ServiceIsARun(calls);
    RunInv(Sent(calls));
    var v := Served(calls)[c.plan];
    VersionsCount(v, |v| - 1);
    ClaimedHasNoCompletion(Sent(calls), c.plan, |v| - 1);
    TakeoverFenced(v[|v| - 1], c);
  }
}
