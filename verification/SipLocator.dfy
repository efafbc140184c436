/**
  The DID locator: a projection of phone numbers and their accounts that triggers keep, and that the
  SIP edge reads to find the owner of a dialled number. Each function is one statement; `None` is an
  exception, which rolls the statement back.
*/
module SipLocator {
  import opened Prelude

  type Id = nat

  /** The check on the status column admits these two. */
  datatype Status = Active | Disabled

  datatype Account = Account(organization: Id, status: Status)

  datatype Number = Number(organization: Id, account: Id, e164: string, verified: bool, inbound: bool)

  datatype Locator = Locator(organization: Id, account: Id, e164: string, revision: int, active: bool)

  /** Locators are keyed by their phone number, which is unique. */
  datatype Tables = Tables(accounts: map<Id, Account>, numbers: map<Id, Number>, locators: map<Id, Locator>)

  const Empty := Tables(map[], map[], map[])

  predicate Owned(accounts: map<Id, Account>, row: Number) {
    row.account in accounts && accounts[row.account].organization == row.organization
  }

  /** Whether calls to the number are accepted. */
  predicate Accepts(accounts: map<Id, Account>, row: Number)
    requires Owned(accounts, row)
  {
    row.verified && row.inbound && accounts[row.account].status == Active
  }

  /** The fence: a locator names its number and account, and is active exactly when the number accepts calls. */
  predicate Sourced(accounts: map<Id, Account>, numbers: map<Id, Number>, n: Id, l: Locator) {
    && n in numbers && Owned(accounts, numbers[n])
    && numbers[n].organization == l.organization && numbers[n].account == l.account && numbers[n].e164 == l.e164
    && l.active == Accepts(accounts, numbers[n])
  }

  predicate NumberTaken(numbers: map<Id, Number>, n: Id, e164: string) {
    exists x | x in numbers :: x != n && numbers[x].e164 == e164
  }

  predicate LocatorTaken(locators: map<Id, Locator>, n: Id, e164: string) {
    exists x | x in locators :: x != n && locators[x].e164 == e164
  }

  // ----- locators -------------------------------------------------------------------------

  function InsertLocator(db: Tables, n: Id, l: Locator): Option<Tables> {
    if !Sourced(db.accounts, db.numbers, n, l) || n in db.locators || LocatorTaken(db.locators, n, l.e164)
      || l.revision <= 0 then None
    else Some(db.(locators := db.locators[n := l]))
  }

  function UpdateLocator(db: Tables, n: Id, l: Locator): Option<Tables> {
    if n !in db.locators then Some(db)
    else if l.organization != db.locators[n].organization || l.revision != db.locators[n].revision + 1 then None
    else if !Sourced(db.accounts, db.numbers, n, l) || LocatorTaken(db.locators, n, l.e164) then None
    else Some(db.(locators := db.locators[n := l]))
  }

  function DeleteLocator(db: Tables, n: Id): Option<Tables> {
    Some(db.(locators := db.locators - {n}))
  }

  // ----- numbers ---------------------------------------------------------------------------

  /** The trigger after a number is inserted or its flags are set: insert the locator or advance it. */
  function ProjectNumber(db: Tables, n: Id): Option<Tables>
    requires n in db.numbers
  {
    var row := db.numbers[n];
    if !Owned(db.accounts, row) then None
    else
      var active := Accepts(db.accounts, row);
      if n in db.locators then
        UpdateLocator(db, n, db.locators[n].(active := active, revision := db.locators[n].revision + 1))
      else InsertLocator(db, n, Locator(row.organization, row.account, row.e164, 1, active))
  }

  function InsertNumber(db: Tables, n: Id, row: Number): Option<Tables> {
    if n in db.numbers || NumberTaken(db.numbers, n, row.e164) || !Owned(db.accounts, row) then None
    else ProjectNumber(db.(numbers := db.numbers[n := row]), n)
  }

  predicate SameKey(a: Number, b: Number) {
    a.organization == b.organization && a.account == b.account && a.e164 == b.e164
  }

  /** Whether the projection trigger fires: a flag column is set, changed or not. */
  predicate SetsFlag(was: Number, row: Number, flags: bool) {
    flags || was.verified != row.verified || was.inbound != row.inbound
  }

  /** An update of a number. A changed key cascades to the locator before the projection trigger runs;
      `flags` is whether the statement sets a flag column, changed or not. */
  function UpdateNumber(db: Tables, n: Id, row: Number, flags: bool): Option<Tables> {
    if n !in db.numbers then Some(db)
    else if NumberTaken(db.numbers, n, row.e164) || !Owned(db.accounts, row) then None
    else
      var was := db.numbers[n];
      var db' := db.(numbers := db.numbers[n := row]);
      var cascaded := if SameKey(was, row) || n !in db.locators then Some(db')
        else UpdateLocator(db', n,
          db.locators[n].(organization := row.organization, account := row.account, e164 := row.e164));
      if cascaded.None? || !SetsFlag(was, row, flags) then cascaded
      else ProjectNumber(db', n)
  }

  function DeleteNumber(db: Tables, n: Id): Option<Tables> {
    Some(db.(numbers := db.numbers - {n}, locators := db.locators - {n}))
  }

  // ----- accounts --------------------------------------------------------------------------

  function InsertAccount(db: Tables, id: Id, row: Account): Option<Tables> {
    if id in db.accounts then None else Some(db.(accounts := db.accounts[id := row]))
  }

  /** The locators of one account whose number is of the same organization. */
  function LocatorsOf(db: Tables, organization: Id, account: Id): set<Id> {
    set n | n in db.locators && db.locators[n].organization == organization && db.locators[n].account == account
            && n in db.numbers && db.numbers[n].organization == organization
  }

  function Advanced(db: Tables, n: Id, status: Status): Locator
    requires n in db.locators && n in db.numbers
  {
    db.locators[n].(
      active := db.numbers[n].verified && db.numbers[n].inbound && status == Active,
      revision := db.locators[n].revision + 1)
  }

  /** A status update. A changed status advances every locator of the account, each through the fence. */
  function UpdateAccount(db: Tables, id: Id, status: Status): Option<Tables> {
    if id !in db.accounts then Some(db)
    else
      var was := db.accounts[id];
      var accounts := db.accounts[id := was.(status := status)];
      var due := LocatorsOf(db, was.organization, id);
      if was.status == status then Some(db)
      else if exists n | n in due :: !Sourced(accounts, db.numbers, n, Advanced(db, n, status)) then None
      else Some(db.(accounts := accounts, locators := db.locators + map n | n in due :: Advanced(db, n, status)))
  }

  /** Restricted while a number refers to the account. */
  function DeleteAccount(db: Tables, id: Id): Option<Tables> {
    if exists n | n in db.numbers :: db.numbers[n].account == id then None
    else Some(db.(accounts := db.accounts - {id}))
  }

  // ----- runs -----------------------------------------------------------------------------

  datatype Statement =
    | AddAccount(id: Id, account: Account)
    | SetStatus(id: Id, status: Status)
    | DropAccount(id: Id)
    | AddNumber(id: Id, number: Number)
    | SetNumber(id: Id, number: Number, flags: bool)
    | DropNumber(id: Id)
    | AddLocator(id: Id, locator: Locator)
    | SetLocator(id: Id, locator: Locator)
    | DropLocator(id: Id)

  function Execute(db: Tables, s: Statement): Option<Tables> {
    match s
    case AddAccount(id, row) => InsertAccount(db, id, row)
    case SetStatus(id, status) => UpdateAccount(db, id, status)
    case DropAccount(id) => DeleteAccount(db, id)
    case AddNumber(id, row) => InsertNumber(db, id, row)
    case SetNumber(id, row, flags) => UpdateNumber(db, id, row, flags)
    case DropNumber(id) => DeleteNumber(db, id)
    case AddLocator(id, row) => InsertLocator(db, id, row)
    case SetLocator(id, row) => UpdateLocator(db, id, row)
    case DropLocator(id) => DeleteLocator(db, id)
  }

  function Step(db: Tables, s: Statement): Tables {
    match Execute(db, s) case Some(db') => db' case None => db
  }

  /** The tables after the statements, refused ones rolled back. */
  function After(db: Tables, run: seq<Statement>): Tables {
    if run == [] then db else Step(After(db, run[..|run| - 1]), run[|run| - 1])
  }

  // ----- what every run keeps ---------------------------------------------------------------

  ghost predicate NumbersOk(accounts: map<Id, Account>, numbers: map<Id, Number>) {
    && (forall n | n in numbers :: Owned(accounts, numbers[n]))
    && (forall a, b | a in numbers && b in numbers && a != b :: numbers[a].e164 != numbers[b].e164)
  }

  ghost predicate LocatorsOk(db: Tables) {
    forall n | n in db.locators :: Sourced(db.accounts, db.numbers, n, db.locators[n]) && db.locators[n].revision > 0
  }

  ghost predicate Inv(db: Tables) {
    NumbersOk(db.accounts, db.numbers) && LocatorsOk(db)
  }

  lemma UpdateAccountInv(db: Tables, id: Id, status: Status)
    requires Inv(db)
    ensures UpdateAccount(db, id, status).Some? && Inv(UpdateAccount(db, id, status).value)
  {
    if id in db.accounts && db.accounts[id].status != status {
      var accounts := db.accounts[id := db.accounts[id].(status := status)];
      var due := LocatorsOf(db, db.accounts[id].organization, id);
      forall n | n in due
        ensures Sourced(accounts, db.numbers, n, Advanced(db, n, status))
      {
        assert Sourced(db.accounts, db.numbers, n, db.locators[n]);
      }
      forall n | n in db.locators && n !in due
        ensures Sourced(accounts, db.numbers, n, db.locators[n])
      {
        assert Sourced(db.accounts, db.numbers, n, db.locators[n]);
      }
    }
  }

  lemma ProjectNumberInv(db: Tables, n: Id)
    requires NumbersOk(db.accounts, db.numbers) && n in db.numbers
    requires forall x | x in db.locators && x != n ::
      Sourced(db.accounts, db.numbers, x, db.locators[x]) && db.locators[x].revision > 0
    requires n in db.locators ==> db.locators[n].revision > 0
    requires n in db.locators ==>
      db.locators[n].organization == db.numbers[n].organization && db.locators[n].account == db.numbers[n].account
      && db.locators[n].e164 == db.numbers[n].e164
    ensures var r := ProjectNumber(db, n);
      r.Some? && Inv(r.value) && r.value.numbers == db.numbers && r.value.locators.Keys == db.locators.Keys + {n}
  {
    assert !LocatorTaken(db.locators, n, db.numbers[n].e164);
  }

  lemma InsertNumberInv(db: Tables, n: Id, row: Number)
    requires Inv(db)
    ensures InsertNumber(db, n, row).Some? <==>
      n !in db.numbers && !NumberTaken(db.numbers, n, row.e164) && Owned(db.accounts, row)
    ensures InsertNumber(db, n, row).Some? ==> Inv(InsertNumber(db, n, row).value)
    ensures InsertNumber(db, n, row).Some? ==> InsertNumber(db, n, row).value.locators.Keys == db.locators.Keys + {n}
  {
    if n !in db.numbers && !NumberTaken(db.numbers, n, row.e164) && Owned(db.accounts, row) {
      assert n !in db.locators;
      ProjectNumberInv(db.(numbers := db.numbers[n := row]), n);
    }
  }

  /** The cascade to the locator never advances its revision, so the fence refuses it. */
  lemma UpdateNumberInv(db: Tables, n: Id, row: Number, flags: bool)
    requires Inv(db) && n in db.numbers
    ensures UpdateNumber(db, n, row, flags).Some? <==>
      !NumberTaken(db.numbers, n, row.e164) && Owned(db.accounts, row)
        && (n in db.locators ==> SameKey(db.numbers[n], row))
    ensures UpdateNumber(db, n, row, flags).Some? ==> Inv(UpdateNumber(db, n, row, flags).value)
    ensures UpdateNumber(db, n, row, flags).Some? ==>
      var db' := UpdateNumber(db, n, row, flags).value;
      && db'.locators.Keys == (if SetsFlag(db.numbers[n], row, flags) then db.locators.Keys + {n} else db.locators.Keys)
      && db'.numbers.Keys == db.numbers.Keys
  {
    if !NumberTaken(db.numbers, n, row.e164) && Owned(db.accounts, row)
      && (n in db.locators ==> SameKey(db.numbers[n], row)) {
      var db' := db.(numbers := db.numbers[n := row]);
      assert NumbersOk(db'.accounts, db'.numbers);
      ProjectNumberInv(db', n);
    }
  }

  lemma AccountsInv(db: Tables, s: Statement)
    requires Inv(db) && (s.AddAccount? || s.DropAccount?)
    ensures Inv(Step(db, s)) && Step(db, s).locators == db.locators && Step(db, s).numbers == db.numbers
  {
    var accounts := Step(db, s).accounts;
    assert forall n | n in db.numbers :: Owned(db.accounts, db.numbers[n]);
    assert forall n | n in db.numbers :: accounts[db.numbers[n].account] == db.accounts[db.numbers[n].account];
  }

  lemma DropNumberInv(db: Tables, n: Id)
    requires Inv(db)
    ensures Inv(DeleteNumber(db, n).value)
  {
  }

  lemma DirectInv(db: Tables, s: Statement)
    requires Inv(db) && (s.AddLocator? || s.SetLocator? || s.DropLocator?)
    ensures Inv(Step(db, s)) && Step(db, s).numbers == db.numbers
  {
  }

  lemma NumbersInv(db: Tables, s: Statement)
    requires Inv(db) && (s.AddNumber? || s.SetNumber? || s.DropNumber?)
    ensures Inv(Step(db, s))
  {
    match s
    case AddNumber(id, row) => InsertNumberInv(db, id, row);
    case SetNumber(id, row, flags) => if id in db.numbers { UpdateNumberInv(db, id, row, flags); }
    case DropNumber(id) => DropNumberInv(db, id);
  }

  lemma {:induction false} StepInv(db: Tables, s: Statement)
    requires Inv(db)
    ensures Inv(Step(db, s))
  {
    if s.AddAccount? || s.DropAccount? {
      AccountsInv(db, s);
    } else if s.SetStatus? {
      UpdateAccountInv(db, s.id, s.status);
    } else if s.AddNumber? || s.SetNumber? || s.DropNumber? {
      NumbersInv(db, s);
    } else {
      DirectInv(db, s);
    }
  }

  lemma {:induction false} RunInv(run: seq<Statement>)
    ensures Inv(After(Empty, run))
  {
    if run != [] {
      RunInv(run[..|run| - 1]);
      StepInv(After(Empty, run[..|run| - 1]), run[|run| - 1]);
    }
  }

  /** In every run a locator names its number and account and is active exactly when calls are accepted. */
  lemma {:induction false} LocatorsAreTruthful(run: seq<Statement>, n: Id)
    ensures var db := After(Empty, run);
      n in db.locators ==>
        && n in db.numbers && db.numbers[n].account in db.accounts
        && var l, number, account := db.locators[n], db.numbers[n], db.accounts[db.numbers[n].account];
           && l.organization == number.organization == account.organization && l.account == number.account
           && l.e164 == number.e164 && l.revision > 0
           && (l.active <==> number.verified && number.inbound && account.status == Active)
  {
    RunInv(run);
  }

  // ----- numbers without a locator ------------------------------------------------------------

  /** The numbers that have no locator. */
  function Missing(db: Tables): set<Id> {
    db.numbers.Keys - db.locators.Keys
  }

  /** A direct deletion of the locator of a number there is. */
  predicate Loses(db: Tables, s: Statement, n: Id) {
    s == DropLocator(n) && n in db.numbers
  }

  /** An accepted statement after which `n` has a locator or is gone: it is inserted, deleted, given a
      locator directly, or updated with a flag column set. */
  predicate Restores(db: Tables, s: Statement, n: Id) {
    && Execute(db, s).Some? && s.id == n
    && match s
       case AddNumber(_, _) => true
       case AddLocator(_, _) => true
       case DropNumber(_) => true
       case SetNumber(_, row, flags) =>
         n in db.numbers && SetsFlag(db.numbers[n], row, flags)
       case _ => false
  }

  lemma UpdateMissing(db: Tables, id: Id, row: Number, flags: bool, n: Id)
    requires Inv(db) && id in db.numbers
    ensures var s := SetNumber(id, row, flags);
      n in Missing(Step(db, s)) <==> n in Missing(db) && !Restores(db, s, n)
  {
    UpdateNumberInv(db, id, row, flags);
  }

  lemma NumbersMissing(db: Tables, s: Statement, n: Id)
    requires Inv(db) && (s.AddNumber? || s.SetNumber? || s.DropNumber?)
    ensures n in Missing(Step(db, s)) <==> n in Missing(db) && !Restores(db, s, n)
  {
    match s
    case AddNumber(id, row) => InsertNumberInv(db, id, row);
    case SetNumber(id, row, flags) => if id in db.numbers { UpdateMissing(db, id, row, flags, n); }
    case DropNumber(id) =>
  }

  /** How one statement moves the missing locators: a direct deletion adds its number, a restoring
      statement removes its own, and nothing else changes them. */
  lemma {:induction false} MissingMoves(db: Tables, s: Statement, n: Id)
    requires Inv(db)
    ensures n in Missing(Step(db, s)) <==> Loses(db, s, n) || (n in Missing(db) && !Restores(db, s, n))
  {
    if s.AddNumber? || s.SetNumber? || s.DropNumber? {
      NumbersMissing(db, s, n);
    } else if s.SetStatus? {
      UpdateAccountInv(db, s.id, s.status);
    }
  }

  ghost predicate LostAt(run: seq<Statement>, i: nat, n: Id) {
    i < |run| && Loses(After(Empty, run[..i]), run[i], n)
  }

  ghost predicate RestoredAt(run: seq<Statement>, i: nat, n: Id) {
    i < |run| && Restores(After(Empty, run[..i]), run[i], n)
  }

  /** The locator of `n` was deleted directly and no later statement restored it. */
  ghost predicate Lost(run: seq<Statement>, n: Id) {
    exists i: nat :: LostAt(run, i, n) && forall j: nat | i < j :: !RestoredAt(run, j, n)
  }

  lemma MarksSnoc(run: seq<Statement>, s: Statement, n: Id, i: nat)
    ensures LostAt(run + [s], i, n) <==> if i == |run| then Loses(After(Empty, run), s, n) else LostAt(run, i, n)
    ensures RestoredAt(run + [s], i, n) <==>
      if i == |run| then Restores(After(Empty, run), s, n) else RestoredAt(run, i, n)
  {
    if i <= |run| { assert (run + [s])[..i] == run[..i]; }
    if i == |run| { assert run[..i] == run; }
  }

  lemma StillLost(run: seq<Statement>, s: Statement, n: Id)
    requires Lost(run, n) && !Restores(After(Empty, run), s, n)
    ensures Lost(run + [s], n)
  {
    var longer := run + [s];
    var i: nat :| LostAt(run, i, n) && forall j: nat | i < j :: !RestoredAt(run, j, n);
    MarksSnoc(run, s, n, i);
    forall j: nat | i < j ensures !RestoredAt(longer, j, n) {
      MarksSnoc(run, s, n, j);
    }
    assert LostAt(longer, i, n);
  }

  lemma NowLost(run: seq<Statement>, s: Statement, n: Id)
    requires Loses(After(Empty, run), s, n)
    ensures Lost(run + [s], n)
  {
    var longer := run + [s];
    MarksSnoc(run, s, n, |run|);
    assert LostAt(longer, |run|, n);
    assert forall j: nat | |run| < j :: !RestoredAt(longer, j, n);
  }

  lemma WasLost(run: seq<Statement>, s: Statement, n: Id)
    requires Lost(run + [s], n) && !Loses(After(Empty, run), s, n)
    ensures Lost(run, n) && !Restores(After(Empty, run), s, n)
  {
    var longer := run + [s];
    var i: nat :| LostAt(longer, i, n) && forall j: nat | i < j :: !RestoredAt(longer, j, n);
    MarksSnoc(run, s, n, i);
    forall j: nat | i < j ensures !RestoredAt(run, j, n) {
      MarksSnoc(run, s, n, j);
      assert !RestoredAt(longer, j, n);
    }
    MarksSnoc(run, s, n, |run|);
    assert !RestoredAt(longer, |run|, n);
    assert LostAt(run, i, n);
  }

  /** In every run a number has no locator if and only if its locator was deleted directly and no
      statement since restored it. */
  lemma {:induction false} MissingExactly(run: seq<Statement>, n: Id)
    ensures n in Missing(After(Empty, run)) <==> Lost(run, n)
  {
    if run == [] {
      assert forall i: nat :: !LostAt(run, i, n);
    } else {
      var before, s := run[..|run| - 1], run[|run| - 1];
      assert run == before + [s];
      RunInv(before);
      MissingExactly(before, n);
      MissingMoves(After(Empty, before), s, n);
      if Loses(After(Empty, before), s, n) {
        NowLost(before, s, n);
      } else if Lost(run, n) {
        WasLost(before, s, n);
      } else if Lost(before, n) && !Restores(After(Empty, before), s, n) {
        StillLost(before, s, n);
      }
    }
  }

  /** In every run each locator has its number, and each number its locator if and only if none was lost. */
  lemma {:induction false} OneLocatorPerNumber(run: seq<Statement>)
    ensures After(Empty, run).locators.Keys <= After(Empty, run).numbers.Keys
    ensures After(Empty, run).locators.Keys == After(Empty, run).numbers.Keys <==> forall n :: !Lost(run, n)
  {
    RunInv(run);
    var db := After(Empty, run);
    forall n
      ensures n in Missing(db) <==> Lost(run, n)
    {
      MissingExactly(run, n);
    }
    if forall n :: !Lost(run, n) {
      assert forall n | n in db.numbers :: !Lost(run, n) && n !in Missing(db);
      assert db.numbers.Keys <= db.locators.Keys;
    } else {
      var n :| Lost(run, n);
      assert n in Missing(db);
    }
  }

  /** The numbers whose active locator answers a lookup of `e164`. */
  function Lookup(db: Tables, e164: string): set<Id> {
    set n | n in db.locators && db.locators[n].e164 == e164 && db.locators[n].active
  }

  /** The numbers on that address that accept calls. */
  function Answering(db: Tables, e164: string): set<Id> {
    set n | n in db.numbers && db.numbers[n].e164 == e164 && db.numbers[n].verified && db.numbers[n].inbound
            && db.numbers[n].account in db.accounts && db.accounts[db.numbers[n].account].status == Active
  }

  /** In every run a lookup finds the numbers that accept calls on that address and have a locator, of
      which there is at most one; so it finds all that accept calls if and only if none of them lost its
      locator. */
  lemma {:induction false} LookupIsExact(run: seq<Statement>, e164: string)
    ensures var db := After(Empty, run);
      && Lookup(db, e164) == Answering(db, e164) * db.locators.Keys
      && (Lookup(db, e164) == Answering(db, e164) <==> forall n | n in Answering(db, e164) :: !Lost(run, n))
    ensures forall a, b | a in Lookup(After(Empty, run), e164) && b in Lookup(After(Empty, run), e164) :: a == b
  {
    RunInv(run);
    var db := After(Empty, run);
    forall n | n in Answering(db, e164)
      ensures n !in db.locators <==> Lost(run, n)
    {
      MissingExactly(run, n);
    }
    assert Lookup(db, e164) == Answering(db, e164) * db.locators.Keys;
    if n :| n in Answering(db, e164) && Lost(run, n) {
      assert n !in Lookup(db, e164);
    }
  }

  /** A number is accepted if and only if it is new, on an address of its own, and of an account of its
      organization; it then has a locator of revision one that is active if calls are accepted. */
  lemma {:induction false} NumberInsertExactly(run: seq<Statement>, n: Id, row: Number)
    ensures var db := After(Empty, run);
      InsertNumber(db, n, row) ==
        if n !in db.numbers && (forall x | x in db.numbers :: db.numbers[x].e164 != row.e164)
           && row.account in db.accounts && db.accounts[row.account].organization == row.organization
        then
          Some(db.(numbers := db.numbers[n := row],
                   locators := db.locators[n := Locator(row.organization, row.account, row.e164, 1,
                     row.verified && row.inbound && db.accounts[row.account].status == Active)]))
        else None
  {
    RunInv(run);
    var db := After(Empty, run);
    InsertNumberInv(db, n, row);
    if NumberTaken(db.numbers, n, row.e164) {
      var x :| x in db.numbers && x != n && db.numbers[x].e164 == row.e164;
    }
  }

  /** An update of a number is accepted if and only if its address stays its own, its account is of its
      organization, and no key column changes while it has a locator. */
  lemma {:induction false} NumberUpdateExactly(run: seq<Statement>, n: Id, row: Number, flags: bool)
    requires n in After(Empty, run).numbers
    ensures var db := After(Empty, run);
      var was := db.numbers[n];
      UpdateNumber(db, n, row, flags).Some? <==>
        && (forall x | x in db.numbers && x != n :: db.numbers[x].e164 != row.e164)
        && row.account in db.accounts && db.accounts[row.account].organization == row.organization
        && (n in db.locators ==> (row.organization, row.account, row.e164) == (was.organization, was.account, was.e164))
  {
    RunInv(run);
    UpdateNumberInv(After(Empty, run), n, row, flags);
  }

  lemma ProjectionWrites(db: Tables, n: Id)
    requires n in db.numbers && ProjectNumber(db, n).Some?
    ensures var row := db.numbers[n];
      && row.account in db.accounts
      && ProjectNumber(db, n).value == db.(locators := db.locators[n :=
           if n in db.locators then
             db.locators[n].(revision := db.locators[n].revision + 1,
                             active := row.verified && row.inbound && db.accounts[row.account].status == Active)
           else Locator(row.organization, row.account, row.e164, 1,
                        row.verified && row.inbound && db.accounts[row.account].status == Active)])
  {
  }

  /** An accepted update writes the number and, if it sets a flag column, changed or not, its locator: a new one,
      or the old one with the next revision; in either case with the key and the acceptance of the number. */
  lemma {:induction false} NumberUpdateWrites(run: seq<Statement>, n: Id, row: Number, flags: bool)
    requires n in After(Empty, run).numbers && UpdateNumber(After(Empty, run), n, row, flags).Some?
    ensures var db, db' := After(Empty, run), UpdateNumber(After(Empty, run), n, row, flags).value;
      var was := db.numbers[n];
      && db'.numbers == db.numbers[n := row] && db'.accounts == db.accounts && row.account in db.accounts
      && db'.locators ==
           if !flags && was.verified == row.verified && was.inbound == row.inbound then db.locators
           else db.locators[n := Locator(row.organization, row.account, row.e164,
                  if n in db.locators then db.locators[n].revision + 1 else 1,
                  row.verified && row.inbound && db.accounts[row.account].status == Active)]
  {
    RunInv(run);
    var db := After(Empty, run);
    NumberUpdateExactly(run, n, row, flags);
    var db' := db.(numbers := db.numbers[n := row]);
    if SetsFlag(db.numbers[n], row, flags) { ProjectionWrites(db', n); }
  }

  /** A changed status advances every locator of the account by one revision and no other. */
  lemma {:induction false} StatusWrites(run: seq<Statement>, id: Id, status: Status)
    requires id in After(Empty, run).accounts
    ensures var db := After(Empty, run);
      UpdateAccount(db, id, status).Some? &&
      var db' := UpdateAccount(db, id, status).value;
      && db'.accounts == db.accounts[id := db.accounts[id].(status := status)] && db'.numbers == db.numbers
      && db'.locators.Keys == db.locators.Keys
      && forall n | n in db.locators ::
           n in db.numbers && db'.locators[n] ==
             if db.accounts[id].status == status || db.locators[n].account != id then db.locators[n]
             else db.locators[n].(revision := db.locators[n].revision + 1,
                                  active := db.numbers[n].verified && db.numbers[n].inbound && status == Active)
  {
    RunInv(run);
    UpdateAccountInv(After(Empty, run), id, status);
  }

  /** An account is removed if and only if no number refers to it. */
  lemma {:induction false} AccountDropExactly(run: seq<Statement>, id: Id)
    ensures var db := After(Empty, run);
      DeleteAccount(db, id) ==
        if forall n | n in db.numbers :: db.numbers[n].account != id
        then Some(db.(accounts := db.accounts - {id})) else None
  {
  }

  /** A status change is never refused: every locator of the account passes the fence. */
  lemma {:induction false} StatusChangeAlwaysProjects(run: seq<Statement>, id: Id, status: Status)
    ensures UpdateAccount(After(Empty, run), id, status).Some?
  {
    RunInv(run);
    UpdateAccountInv(After(Empty, run), id, status);
  }

  /** A number with a locator keeps its organization, account and address: an update changing one of
      them is always refused, and any other update of an owned, unique number is accepted. */
  lemma {:induction false} KeyChangesAreRefusedExactly(run: seq<Statement>, n: Id, row: Number, flags: bool)
    requires n in After(Empty, run).numbers && n in After(Empty, run).locators
    ensures var db := After(Empty, run);
      UpdateNumber(db, n, row, flags).Some? <==> SameKey(db.numbers[n], row)
  {
    RunInv(run);
    var db := After(Empty, run);
    UpdateNumberInv(db, n, row, flags);
    assert !NumberTaken(db.numbers, n, db.numbers[n].e164);
  }

  /** A locator row that changes advances its revision by exactly one. */
  lemma {:induction false} RevisionsCount(run: seq<Statement>, s: Statement, n: Id)
    requires n in After(Empty, run).locators && n in Step(After(Empty, run), s).locators
    ensures var was, now := After(Empty, run).locators[n], Step(After(Empty, run), s).locators[n];
      now == was || (now.revision == was.revision + 1 && now.organization == was.organization)
  {
    RunInv(run);
  }

  /** A directly deleted locator leaves its number without one until its flags are set again. */
  lemma {:induction false} DirectDeletionLosesLocator()
    ensures exists run :: After(Empty, run).locators.Keys != After(Empty, run).numbers.Keys
  {
    var row := Number(1, 2, "+15550100", true, true);
    var r1 := [AddAccount(2, Account(1, Active))];
    assert r1[..0] == [] && After(Empty, r1) == Step(Empty, r1[0]);
    var r2 := r1 + [AddNumber(3, row)];
    assert r2[..1] == r1 && After(Empty, r2) == Step(After(Empty, r1), r2[1]);
    var r3 := r2 + [DropLocator(3)];
    assert r3[..2] == r2 && After(Empty, r3) == Step(After(Empty, r2), r3[2]);
    assert 3 in After(Empty, r3).numbers;
  }
}
