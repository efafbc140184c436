/**
  When the admission and permit tables accept a statement and what it writes, said of the rows it finds,
  over every sequence of statements before it.
*/
module SipEgressDecisions {
  import opened Prelude
  import opened Trails
  import opened SipEgress
  import opened SipEgressProofs

  /** An admission waits for thirty seconds, and a permit may be consumed for thirty. */
  const HALF_MINUTE: Time := 30_000_000

  /** An unused permit of the call that has not run out. */
  ghost predicate Usable(permits: map<Id, Permit>, p: Id, organization: Id, call: Id, now: Time) {
    && p in permits && permits[p].organization == organization && permits[p].call == call
    && permits[p].state == Authorized && now < permits[p].issuedAt + HALF_MINUTE
  }

  // ----- admissions ---------------------------------------------------------------------------

  lemma {:induction false} AdmitExactly(run: seq<Statement>, call: Id, row: Admission, now: Time)
    ensures var db := After(Empty, run);
      InsertAdmission(db, call, row, now) ==
        if row.state == Pending && call !in db.admissions
        then Some(db.(admissions := db.admissions[call := row.(createdAt := now, expiresAt := now + HALF_MINUTE)]))
        else None
  {
  }

  /** A waiting admission may be withdrawn at any time, and dispatched within thirty seconds while a permit of
      its call can still be consumed. Nothing else of it changes, and nothing once it has settled. */
  lemma {:induction false} AdmissionMovesExactly(run: seq<Statement>, call: Id, row: Admission, now: Time, later: Time)
    requires call in After(Empty, run).admissions
    ensures var db := After(Empty, run);
      var was := db.admissions[call];
      UpdateAdmission(db, call, row, now, later).Some? <==>
        && was.state == Pending && row == was.(state := row.state)
        && (row.state == Withdrawn ||
            (row.state == Dispatched && now < was.createdAt + HALF_MINUTE
             && exists p: Id :: Usable(db.permits, p, was.organization, call, later)))
    ensures UpdateAdmission(After(Empty, run), call, row, now, later).Some? ==>
      UpdateAdmission(After(Empty, run), call, row, now, later).value ==
        After(Empty, run).(admissions := After(Empty, run).admissions[call := row])
  {
    RunInv(run);
    var db := After(Empty, run);
    var was := db.admissions[call];
    if LivePermit(db.permits, was.organization, call, later) {
      var p :| p in db.permits && db.permits[p].organization == was.organization && db.permits[p].call == call
               && db.permits[p].state == Authorized && db.permits[p].expiresAt > later;
      assert Usable(db.permits, p, was.organization, call, later);
    }
    if p: Id :| Usable(db.permits, p, was.organization, call, later) {
      assert LivePermit(db.permits, was.organization, call, later);
    }
  }

  // ----- permits ------------------------------------------------------------------------------

  /** A permit that another one keeps from being issued. */
  ghost predicate Rivals(permits: map<Id, Permit>, p: Id, row: Permit) {
    && p in permits
    && (permits[p].token == row.token ||
        (permits[p].organization == row.organization && permits[p].call == row.call))
  }

  /** What the admission of the call, if it has one, says to a permit. */
  predicate Waits(admissions: map<Id, Admission>, row: Permit, now: Time) {
    row.call in admissions && admissions[row.call].organization == row.organization ==>
      admissions[row.call].state == Pending && now < admissions[row.call].createdAt + HALF_MINUTE
  }

  predicate LetGo(admissions: map<Id, Admission>, row: Permit) {
    row.call in admissions && admissions[row.call].organization == row.organization ==>
      admissions[row.call].state == Dispatched
  }

  /** A permit is issued if and only if it is unused, the only one of its call and of its token, bound to the
      call row, and the admission of the call, if any, still waits; it may then be consumed for thirty seconds. */
  lemma {:induction false} PermitInsertExactly(run: seq<Statement>, id: Id, row: Permit, now: Time, later: Time,
                                               bound: bool)
    ensures var db := After(Empty, run);
      InsertPermit(db, id, row, now, later, bound).Some? <==>
        && bound && id !in db.permits && row.state == Authorized && row.edge == row.boot == None && row.digest == None
        && Waits(db.admissions, row, now) && !exists p: Id :: Rivals(db.permits, p, row)
    ensures var db := After(Empty, run);
      InsertPermit(db, id, row, now, later, bound).Some? ==>
        InsertPermit(db, id, row, now, later, bound).value ==
          db.(permits := db.permits[id := row.(issuedAt := later, expiresAt := later + HALF_MINUTE)],
              history := db.history + [Entry(id, None, Authorized, ())])
  {
    RunInv(run);
    var db := After(Empty, run);
    if PermitTaken(db.permits, row) {
      var p :| p in db.permits && ((db.permits[p].organization == row.organization && db.permits[p].call == row.call)
                                   || db.permits[p].token == row.token);
      assert Rivals(db.permits, p, row);
    }
  }

  /** A consumption: by an edge, its boot and a transaction. */
  datatype Use = Use(edge: Id, boot: Id, digest: string)

  function MovedTo(p: Permit, next: PermitState, use: Use): Permit {
    if next == Consumed then
      p.(state := next, edge := Some(use.edge), boot := Some(use.boot), digest := Some(use.digest))
    else p.(state := next)
  }

  ghost predicate Carried(routes: map<Id, EgressRoute>, r: Id, peer: Id, digest: string) {
    r in routes && routes[r].peer == peer && routes[r].digest == digest
  }

  predicate Digest(s: string) {
    |s| == 64 && forall i | 0 <= i < 64 :: s[i] in HEX_DIGITS
  }

  lemma DigestExactly(s: string)
    ensures Hex64(s) <==> Digest(s)
  {
    forall i | 0 <= i < |s|
      ensures s[i] in HEX_DIGITS <==> ('0' <= s[i] <= '9' || 'a' <= s[i] <= 'f')
    {
      HexDigit(s[i]);
    }
  }

  /** A permit is consumed if and only if it is unused, at most thirty seconds old, let go by the admission of
      its call, if any, and its transaction is a digest new at the peer; it expires only after those seconds, is
      revoked while unused, and ends or becomes ambiguous once consumed. No other move is accepted. */
  lemma {:induction false} PermitMovesExactly(run: seq<Statement>, id: Id, next: PermitState, use: Use, now: Time,
                                              later: Time, bound: bool)
    requires id in After(Empty, run).permits
    ensures var db := After(Empty, run);
      var p := db.permits[id];
      UpdatePermit(db, id, MovedTo(p, next, use), now, later, bound).Some? <==>
        bound &&
        (|| (p.state == Authorized && next == Consumed && now <= p.issuedAt + HALF_MINUTE && LetGo(db.admissions, p)
             && Digest(use.digest) && !exists r: Id :: Carried(db.routes, r, p.peer, use.digest))
         || (p.state == Authorized && next == Expired && now > p.issuedAt + HALF_MINUTE)
         || (p.state == Authorized && next == Revoked)
         || (p.state == Consumed && next in {Ended, Ambiguous}))
  {
    RunInv(run);
    DigestExactly(use.digest);
    var db := After(Empty, run);
    var p := db.permits[id];
    if TransactionTaken(db.routes, p.peer, use.digest) {
      var r :| r in db.routes && db.routes[r].peer == p.peer && db.routes[r].digest == use.digest;
      assert Carried(db.routes, r, p.peer, use.digest);
    }
  }

  /** An accepted move writes that row, one history entry and, on consumption, the egress route. */
  lemma {:induction false} PermitMoveWrites(run: seq<Statement>, id: Id, row: Permit, now: Time, later: Time,
                                            bound: bool)
    requires id in After(Empty, run).permits && UpdatePermit(After(Empty, run), id, row, now, later, bound).Some?
    ensures var db, db' := After(Empty, run), UpdatePermit(After(Empty, run), id, row, now, later, bound).value;
      var p := db.permits[id];
      && (row.state == Consumed ==> row.edge.Some? && row.boot.Some? && row.digest.Some?)
      && db'.permits == db.permits[id := row]
      && row == (if row.state == Consumed then
                   MovedTo(p, Consumed, Use(row.edge.value, row.boot.value, row.digest.value))
                 else p.(state := row.state))
      && db'.admissions == db.admissions && db'.history == db.history + [Entry(id, Some(p.state), row.state, ())]
      && db'.routes == (if row.state == Consumed then
                          db.routes[id := EgressRoute(p.organization, p.peer, row.edge.value, row.boot.value,
                                                      row.digest.value, later)]
                        else db.routes)
  {
  }
}
