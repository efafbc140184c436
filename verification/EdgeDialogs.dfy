/**
  The dialog capacity of the SIP edge: a counter in shared memory that worker processes take and
  give back, and the table that says which owner holds a dialog identity. Every locked section is
  one step; unsetting a row and giving its place back are two.
*/
module EdgeDialogs {
  import opened Prelude

  type Pid = nat
  type Key = string
  type Owner = string

  // ----- the locked sections ------------------------------------------------------------------

  /** `reserve`: whether a place was taken, and the counter afterwards. */
  function Reserved(count: int, maximum: int): (bool, int) {
    if count >= maximum then (false, count) else (true, count + 1)
  }

  /** `release`: the counter afterwards, clamped at zero. */
  function Released(count: int): int {
    if count - 1 < 0 then 0 else count - 1
  }

  /** The locked half of `finish_dialog`: whether the row was the owner's, and the table afterwards. */
  function Unset(rows: map<Key, Owner>, key: Key, owner: Owner): (bool, map<Key, Owner>) {
    if key in rows && rows[key] == owner then (true, rows - {key}) else (false, rows)
  }

  /** Shared memory. An absent counter reads as zero. */
  class SharedMemory {
    var bounds: map<string, int>
    var dialogs: map<Key, Owner>

    function Bound(key: string): int
      reads this
    {
      if key in bounds then bounds[key] else 0
    }

    constructor ()
      ensures bounds == map[] && dialogs == map[]
    {
      bounds, dialogs := map[], map[];
    }

    method Reserve(key: string, maximum: int) returns (taken: bool)
      modifies this`bounds
      ensures (taken, Bound(key)) == Reserved(old(Bound(key)), maximum)
      ensures forall k | k != key :: Bound(k) == old(Bound(k))
    {
      var count := if key in bounds then bounds[key] else 0;
      if count >= maximum { return false; }
      bounds := bounds[key := count + 1];
      taken := true;
    }

    method Release(key: string)
      modifies this`bounds
      ensures Bound(key) == Released(old(Bound(key)))
      ensures forall k | k != key :: Bound(k) == old(Bound(k))
    {
      var count := (if key in bounds then bounds[key] else 0) - 1;
      bounds := bounds[key := if count < 0 then 0 else count];
    }

    method ClaimDialog(key: Key, owner: Owner) returns (claimed: bool)
      modifies this`dialogs
      ensures claimed <==> key !in old(dialogs)
      ensures dialogs == if claimed then old(dialogs)[key := owner] else old(dialogs)
    {
      claimed := key !in dialogs;
      if claimed {
        dialogs := dialogs[key := owner];
      }
    }

    /** The place is given back exactly when the row was still the owner's. */
    method FinishDialog(key: Option<Key>, owner: Option<Owner>)
      modifies this
      ensures key.None? || owner.None? ==> dialogs == old(dialogs) && bounds == old(bounds)
      ensures key.Some? && owner.Some? ==>
        var (released, rows) := Unset(old(dialogs), key.value, owner.value);
        && dialogs == rows
        && Bound("dialogs") == if released then Released(old(Bound("dialogs"))) else old(Bound("dialogs"))
      ensures forall k | k != "dialogs" :: Bound(k) == old(Bound(k))
    {
      if key.None? || owner.None? { return; }
      var released := false;
      if key.value in dialogs && dialogs[key.value] == owner.value {
        dialogs := dialogs - {key.value};
        released := true;
      }
      if released {
        Release("dialogs");
      }
    }
  }

  // ----- worker processes --------------------------------------------------------------------

  /** Where a busy process is; an idle one is not listed. */
  datatype Worker =
    | Holding                             // reserved a place, no dialog row yet
    | Claimed(key: Key, owner: Owner)     // wrote the dialog row, not relayed yet
    | Releasing(owner: Owner)             // unset the row of a finished dialog, place not given back yet

  /** `live` are the relayed dialogs not finished yet, `relayed` all ever relayed, `used` all owners ever
      claimed, `returned` the owners whose place was given back, in order. */
  datatype Edge = Edge(count: int, rows: map<Key, Owner>, workers: map<Pid, Worker>, live: map<Owner, Key>,
                       relayed: map<Owner, Key>, used: set<Owner>, returned: seq<Owner>)

  const Init := Edge(0, map[], map[], map[], map[], {}, [])

  datatype Action =
    | Reserve(p: Pid)
    | Claim(p: Pid, key: Key, owner: Owner)
    | Abandon(p: Pid)
    | Relay(p: Pid)
    | Finish(p: Pid, owner: Owner)
    | GiveBack(p: Pid)

  /** Owners are route or permit identifiers that are granted once, and a final reply belongs to a
      transaction that was relayed. */
  predicate Enabled(e: Edge, a: Action) {
    match a
    case Reserve(p) => p !in e.workers
    case Claim(p, key, owner) => p in e.workers && e.workers[p].Holding? && key !in e.rows && owner !in e.used
    case Abandon(p) => p in e.workers && !e.workers[p].Releasing?
    case Relay(p) => p in e.workers && e.workers[p].Claimed?
    case Finish(p, owner) => p !in e.workers && owner in e.relayed
    case GiveBack(p) => p in e.workers && e.workers[p].Releasing?
  }

  function Step(e: Edge, a: Action, limit: int): Edge
    requires Enabled(e, a)
  {
    match a
    case Reserve(p) =>
      var (taken, count) := Reserved(e.count, limit);
      if taken then e.(count := count, workers := e.workers[p := Holding]) else e
    case Claim(p, key, owner) =>
      e.(rows := e.rows[key := owner], used := e.used + {owner}, workers := e.workers[p := Claimed(key, owner)])
    case Abandon(p) =>
      e.(count := Released(e.count), workers := e.workers - {p})
    case Relay(p) =>
      var w := e.workers[p];
      e.(live := e.live[w.owner := w.key], relayed := e.relayed[w.owner := w.key], workers := e.workers - {p})
    case Finish(p, owner) =>
      var (released, rows) := Unset(e.rows, e.relayed[owner], owner);
      if released then e.(rows := rows, live := e.live - {owner}, workers := e.workers[p := Releasing(owner)]) else e
    case GiveBack(p) =>
      e.(count := Released(e.count), workers := e.workers - {p}, returned := e.returned + [e.workers[p].owner])
  }

  /** The edge after the actions; an action that is not enabled does not happen. */
  function After(actions: seq<Action>, limit: int): Edge {
    if actions == [] then Init
    else
      var e, a := After(actions[..|actions| - 1], limit), actions[|actions| - 1];
      if Enabled(e, a) then Step(e, a, limit) else e
  }

  // ----- what every run keeps ------------------------------------------------------------------

  /** Owners whose place some worker is about to give back, or gave back. */
  ghost predicate Leaving(workers: map<Pid, Worker>, returned: seq<Owner>, owner: Owner) {
    owner in returned || exists p | p in workers :: workers[p] == Releasing(owner)
  }

  ghost predicate CountOk(e: Edge, limit: int) {
    e.count == |e.workers| + |e.live| && e.count <= (if limit < 0 then 0 else limit)
  }

  ghost predicate RowsOk(e: Edge) {
    && (forall o | o in e.live :: o in e.relayed && e.relayed[o] == e.live[o] && e.live[o] in e.rows
          && e.rows[e.live[o]] == o)
    && (forall p | p in e.workers && e.workers[p].Claimed? ::
          e.workers[p].owner !in e.relayed && e.workers[p].key in e.rows
            && e.rows[e.workers[p].key] == e.workers[p].owner)
    && (forall p, q | p in e.workers && q in e.workers && p != q && e.workers[p].Claimed? && e.workers[q].Claimed? ::
          e.workers[p].owner != e.workers[q].owner)
  }

  ghost predicate OwnersOk(e: Edge) {
    && (forall o | o in e.relayed :: o in e.used)
    && (forall k | k in e.rows :: e.rows[k] in e.used)
    && (forall p | p in e.workers && e.workers[p].Claimed? :: e.workers[p].owner in e.used)
    && (forall j, k | j in e.rows && k in e.rows && j != k :: e.rows[j] != e.rows[k])
    && (forall k | k in e.rows && e.rows[k] in e.relayed :: k == e.relayed[e.rows[k]] && e.rows[k] in e.live)
  }

  ghost predicate ReturnsOk(e: Edge) {
    && (forall i, j | 0 <= i < j < |e.returned| :: e.returned[i] != e.returned[j])
    && (forall o | o in e.returned :: o in e.relayed && o !in e.live)
    && (forall p | p in e.workers && e.workers[p].Releasing? ::
          e.workers[p].owner in e.relayed && e.workers[p].owner !in e.live && e.workers[p].owner !in e.returned)
    && (forall p, q | p in e.workers && q in e.workers && p != q && e.workers[p].Releasing?
          && e.workers[q].Releasing? ::
          e.workers[p].owner != e.workers[q].owner)
  }

  /** Every relayed dialog is live, on its way out, or given back. */
  ghost predicate Accounted(e: Edge) {
    forall o | o in e.relayed :: o in e.live || Leaving(e.workers, e.returned, o)
  }

  ghost predicate Inv(e: Edge, limit: int) {
    CountOk(e, limit) && RowsOk(e) && OwnersOk(e) && ReturnsOk(e) && Accounted(e)
  }

  lemma Dropped<K, V>(m: map<K, V>, k: K)
    requires k in m
    ensures |m - {k}| == |m| - 1
  {
    assert (m - {k}).Keys == m.Keys - {k};
    assert |m - {k}| == |(m - {k}).Keys|;
    assert |m| == |m.Keys|;
  }

  lemma FinishCount(e: Edge, p: Pid, owner: Owner, limit: int)
    requires CountOk(e, limit) && Enabled(e, Finish(p, owner))
    requires Unset(e.rows, e.relayed[owner], owner).0 && owner in e.live
    ensures CountOk(Step(e, Finish(p, owner), limit), limit)
  {
    Dropped(e.live, owner);
  }

  lemma LeaveCount(e: Edge, a: Action, limit: int)
    requires CountOk(e, limit) && Enabled(e, a) && (a.Abandon? || a.GiveBack?)
    ensures CountOk(Step(e, a, limit), limit) && Step(e, a, limit).count == e.count - 1 >= 0
  {
    Dropped(e.workers, a.p);
  }

  lemma RelayCount(e: Edge, p: Pid, limit: int)
    requires CountOk(e, limit) && Enabled(e, Relay(p)) && e.workers[p].owner !in e.live
    ensures CountOk(Step(e, Relay(p), limit), limit)
  {
    Dropped(e.workers, p);
  }

  lemma StepCount(e: Edge, a: Action, limit: int)
    requires CountOk(e, limit) && RowsOk(e) && OwnersOk(e) && Enabled(e, a)
    ensures CountOk(Step(e, a, limit), limit)
  {
    match a
    case Reserve(p) =>
    case Claim(p, key, owner) =>
    case Abandon(p) => LeaveCount(e, a, limit);
    case Relay(p) => RelayCount(e, p, limit);
    case Finish(p, owner) => if Unset(e.rows, e.relayed[owner], owner).0 { FinishCount(e, p, owner, limit); }
    case GiveBack(p) => LeaveCount(e, a, limit);
  }

  lemma StepRows(e: Edge, a: Action, limit: int)
    requires RowsOk(e) && OwnersOk(e) && Enabled(e, a)
    ensures RowsOk(Step(e, a, limit))
  {
  }

  lemma StepOwners(e: Edge, a: Action, limit: int)
    requires RowsOk(e) && OwnersOk(e) && Enabled(e, a)
    ensures OwnersOk(Step(e, a, limit))
  {
  }

  lemma StepReturns(e: Edge, a: Action, limit: int)
    requires RowsOk(e) && OwnersOk(e) && ReturnsOk(e) && Enabled(e, a)
    ensures ReturnsOk(Step(e, a, limit))
  {
  }

  lemma StepAccounted(e: Edge, a: Action, limit: int)
    requires Accounted(e) && Enabled(e, a)
    ensures Accounted(Step(e, a, limit))
  {
    var e' := Step(e, a, limit);
    forall o | o in e'.relayed
      ensures o in e'.live || Leaving(e'.workers, e'.returned, o)
    {
      if o in e.relayed && o !in e.live && o !in e.returned {
        var p :| p in e.workers && e.workers[p] == Releasing(o);
        if p in e'.workers {
          assert e'.workers[p] == Releasing(o);
        }
      } else if a.Finish? && a.owner == o && o !in e'.live && o in e.live {
        assert e'.workers[a.p] == Releasing(o);
      }
    }
  }

  lemma {:induction false} StepInv(e: Edge, a: Action, limit: int)
    requires Inv(e, limit) && Enabled(e, a)
    ensures Inv(Step(e, a, limit), limit)
  {
    StepCount(e, a, limit);
    StepRows(e, a, limit);
    StepOwners(e, a, limit);
    StepReturns(e, a, limit);
    StepAccounted(e, a, limit);
  }

  lemma {:induction false} RunInv(actions: seq<Action>, limit: int)
    ensures Inv(After(actions, limit), limit)
  {
    if actions != [] {
      var before, a := actions[..|actions| - 1], actions[|actions| - 1];
      RunInv(before, limit);
      if Enabled(After(before, limit), a) { StepInv(After(before, limit), a, limit); }
    }
  }

  // ----- safety over runs ----------------------------------------------------------------------

  /** The counter is exactly the places held: reserved and not yet relayed, relayed and unfinished, or
      finished and not yet given back; and it never passes the limit. */
  lemma {:induction false} CounterIsExact(actions: seq<Action>, limit: nat)
    ensures var e := After(actions, limit); e.count == |e.workers| + |e.live| <= limit
  {
    RunInv(actions, limit);
  }

  /** The clamp at zero never acts: whoever gives a place back finds one to give. */
  lemma {:induction false} ClampNeverActs(actions: seq<Action>, limit: nat, a: Action)
    requires Enabled(After(actions, limit), a) && (a.Abandon? || a.GiveBack?)
    ensures After(actions, limit).count >= 1
    ensures Step(After(actions, limit), a, limit).count == After(actions, limit).count - 1
  {
    RunInv(actions, limit);
    LeaveCount(After(actions, limit), a, limit);
  }

  /** A dialog is refused for capacity exactly when every place is held. */
  lemma {:induction false} RefusedExactlyWhenFull(actions: seq<Action>, limit: nat, p: Pid)
    requires Enabled(After(actions, limit), Reserve(p))
    ensures var e := After(actions, limit);
      Step(e, Reserve(p), limit) == e <==> |e.workers| + |e.live| == limit
  {
    RunInv(actions, limit);
  }

  /** A final reply frees its dialog's identity, and starts giving its place back, if and only if the dialog is
      still live: a duplicate, and a reply after the identity passed to another owner, do nothing. */
  lemma {:induction false} FinishFreesExactly(actions: seq<Action>, limit: nat, p: Pid, owner: Owner)
    requires Enabled(After(actions, limit), Finish(p, owner))
    ensures var e := After(actions, limit);
      Step(e, Finish(p, owner), limit) ==
        if owner in e.live
        then e.(rows := e.rows - {e.relayed[owner]}, live := e.live - {owner},
                workers := e.workers[p := Releasing(owner)])
        else e
  {
    RunInv(actions, limit);
  }

  /** A relayed dialog gives its place back at most once, and only after it is no longer live; until
      then it is live or in the hands of one worker. */
  lemma {:induction false} ReturnedAtMostOnce(actions: seq<Action>, limit: nat, owner: Owner)
    ensures var e := After(actions, limit);
      && multiset(e.returned)[owner] <= 1
      && (owner in e.relayed ==> (owner in e.live <==> !Leaving(e.workers, e.returned, owner)))
      && (owner in e.returned ==> owner in e.relayed)
  {
    RunInv(actions, limit);
    OnceInDistinct(After(actions, limit).returned, owner);
  }

  lemma {:induction false} OnceInDistinct(s: seq<Owner>, owner: Owner)
    requires forall i, j | 0 <= i < j < |s| :: s[i] != s[j]
    ensures multiset(s)[owner] <= 1
  {
    if s != [] {
      var n := |s| - 1;
      assert s == s[..n] + [s[n]];
      OnceInDistinct(s[..n], owner);
      if owner in s[..n] {
        assert owner != s[n];
      }
    }
  }

  /** A row whose owner was neither relayed nor is about to be. */
  ghost predicate Stale(e: Edge, key: Key, owner: Owner) {
    && key in e.rows && e.rows[key] == owner && owner !in e.relayed
    && forall p | p in e.workers :: e.workers[p].Claimed? ==> e.workers[p].owner != owner
  }

  lemma StepStale(e: Edge, a: Action, limit: int, key: Key, owner: Owner)
    requires OwnersOk(e) && Enabled(e, a) && Stale(e, key, owner)
    ensures Stale(Step(e, a, limit), key, owner)
  {
  }

  lemma AfterSnoc(actions: seq<Action>, a: Action, limit: int)
    ensures var e := After(actions, limit);
      After(actions + [a], limit) == if Enabled(e, a) then Step(e, a, limit) else e
  {
    assert (actions + [a])[..|actions|] == actions;
  }

  lemma StaleSnoc(actions: seq<Action>, a: Action, limit: int, key: Key, owner: Owner)
    requires Stale(After(actions, limit), key, owner)
    ensures Stale(After(actions + [a], limit), key, owner)
  {
    AfterSnoc(actions, a, limit);
    RunInv(actions, limit);
    if Enabled(After(actions, limit), a) { StepStale(After(actions, limit), a, limit, key, owner); }
  }

  lemma {:induction false} StaleRowStays(actions: seq<Action>, later: seq<Action>, limit: int, key: Key, owner: Owner)
    requires Stale(After(actions, limit), key, owner)
    ensures Stale(After(actions + later, limit), key, owner)
  {
    if later == [] {
      assert actions + later == actions;
    } else {
      var n := |later| - 1;
      StaleRowStays(actions, later[..n], limit, key, owner);
      StaleSnoc(actions + later[..n], later[n], limit, key, owner);
      assert actions + later == actions + later[..n] + [later[n]];
    }
  }

  /** A claim that is abandoned before its relay gives the place back but leaves its row for good, so
      its dialog identity can never be claimed again. */
  lemma {:induction false} AbandonedClaimKeepsIdentity(actions: seq<Action>, p: Pid, later: seq<Action>, limit: nat,
                                                       q: Pid, other: Owner)
    requires Enabled(After(actions, limit), Abandon(p)) && After(actions, limit).workers[p].Claimed?
    ensures var key := After(actions, limit).workers[p].key; var e := After(actions + [Abandon(p)] + later, limit);
      key in e.rows && !Enabled(e, Claim(q, key, other))
  {
    var w, gone := After(actions, limit).workers[p], actions + [Abandon(p)];
    assert gone[..|gone| - 1] == actions;
    RunInv(actions, limit);
    assert Stale(After(gone, limit), w.key, w.owner);
    StaleRowStays(gone, later, limit, w.key, w.owner);
  }
}
