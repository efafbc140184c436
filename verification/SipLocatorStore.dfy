/** The locator projection as its triggers run, row by row, with a refused statement rolled back. */
module SipLocatorStore {
  import opened SipLocator

  class Store {
    var accounts: map<Id, Account>
    var numbers: map<Id, Number>
    var locators: map<Id, Locator>

    ghost function View(): Tables
      reads this
    {
      Tables(accounts, numbers, locators)
    }

    constructor ()
      ensures View() == Empty
    {
      accounts, numbers, locators := map[], map[], map[];
    }

    /** An update of a locator row through the fence. */
    method WriteLocator(n: Id, l: Locator) returns (ok: bool)
      modifies this`locators
      ensures ok <==> UpdateLocator(old(View()), n, l).Some?
      ensures View() == if ok then UpdateLocator(old(View()), n, l).value else old(View())
    {
      if n !in locators { return true; }
      ok := l.organization == locators[n].organization && l.revision == locators[n].revision + 1
            && Sourced(accounts, numbers, n, l) && !LocatorTaken(locators, n, l.e164);
      if ok {
        locators := locators[n := l];
      }
    }

    /** The trigger on numbers: insert the locator or advance the one there is. */
    method NumberProjection(n: Id) returns (ok: bool)
      requires n in numbers
      modifies this`locators
      ensures ok <==> ProjectNumber(old(View()), n).Some?
      ensures View() == if ok then ProjectNumber(old(View()), n).value else old(View())
    {
      var row := numbers[n];
      if !Owned(accounts, row) { return false; }
      var active := Accepts(accounts, row);
      if n in locators {
        ok := WriteLocator(n, locators[n].(active := active, revision := locators[n].revision + 1));
      } else {
        var l := Locator(row.organization, row.account, row.e164, 1, active);
        ok := Sourced(accounts, numbers, n, l) && !LocatorTaken(locators, n, l.e164);
        if ok {
          locators := locators[n := l];
        }
      }
    }

    method InsertNumber(n: Id, row: Number) returns (ok: bool)
      modifies this
      ensures ok <==> Execute(old(View()), AddNumber(n, row)).Some?
      ensures View() == Step(old(View()), AddNumber(n, row))
    {
      if n in numbers || NumberTaken(numbers, n, row.e164) || !Owned(accounts, row) { return false; }
      var before := numbers;
      numbers := numbers[n := row];
      ok := NumberProjection(n);
      if !ok {
        numbers := before;
      }
    }

    /** The key cascade, then the projection, each able to refuse the whole statement. */
    method UpdateNumber(n: Id, row: Number, flags: bool) returns (ok: bool)
      modifies this
      ensures ok <==> Execute(old(View()), SetNumber(n, row, flags)).Some?
      ensures View() == Step(old(View()), SetNumber(n, row, flags))
    {
      if n !in numbers { return true; }
      if NumberTaken(numbers, n, row.e164) || !Owned(accounts, row) { return false; }
      var was, before := numbers[n], numbers;
      numbers := numbers[n := row];
      ok := true;
      if !SameKey(was, row) && n in locators {
        ok := WriteLocator(n, locators[n].(organization := row.organization, account := row.account, e164 := row.e164));
      }
      if ok && SetsFlag(was, row, flags) {
        ok := NumberProjection(n);
      }
      if !ok {
        numbers := before;
      }
    }

    method DeleteNumber(n: Id)
      modifies this
      ensures View() == Step(old(View()), DropNumber(n))
    {
      numbers := numbers - {n};
      locators := locators - {n};
    }

    /** The trigger on accounts: advance the locators due, in the order the rows come, until the fence refuses one. */
    method AccountProjection(start: Tables, due: seq<Id>, status: Status) returns (ok: bool)
      requires locators == start.locators && numbers == start.numbers && Enumerates(start, due)
      modifies this`locators
      ensures ok <==> AllSourced(accounts, start, due, status)
      ensures ok ==> PartWay(start, locators, due, status)
    {
      for i := 0 to |due|
        invariant PartWay(start, locators, due[..i], status)
        invariant AllSourced(accounts, start, due[..i], status)
      {
        var n := due[i];
        var l := locators[n].(
          active := numbers[n].verified && numbers[n].inbound && status == Active,
          revision := locators[n].revision + 1);
        assert l == Advanced(start, n, status);
        if !Sourced(accounts, numbers, n, l) { return false; }
        assert due[..i + 1] == due[..i] + [n];
        PartWayOneMore(start, locators, due[..i], n, status);
        locators := locators[n := l];
      }
      ok := true;
      assert due[..|due|] == due;
    }

    /** `due` lists, in some order, the locators of the account. */
    method UpdateStatus(id: Id, status: Status, due: seq<Id>) returns (ok: bool)
      requires Enumerates(View(), due)
      requires id in accounts ==> (set n | n in due) == LocatorsOf(View(), accounts[id].organization, id)
      modifies this
      ensures ok <==> Execute(old(View()), SetStatus(id, status)).Some?
      ensures View() == Step(old(View()), SetStatus(id, status))
    {
      if id !in accounts || accounts[id].status == status { return true; }
      var was, start := accounts[id], Tables(accounts, numbers, locators);
      accounts := accounts[id := was.(status := status)];
      ok := AccountProjection(start, due, status);
      assert forall n :: n in LocatorsOf(start, was.organization, id) <==> n in due;
      if ok {
        AllAdvanced(start, locators, due, status);
      } else {
        accounts, locators := start.accounts, start.locators;
      }
    }
  }

  /** Distinct locators, each with its number. */
  ghost predicate Enumerates(start: Tables, due: seq<Id>) {
    && (forall i | 0 <= i < |due| :: due[i] in start.locators && due[i] in start.numbers)
    && (forall i, j | 0 <= i < j < |due| :: due[i] != due[j])
  }

  /** The locators once those in `done` are advanced. */
  ghost predicate PartWay(start: Tables, locators: map<Id, Locator>, done: seq<Id>, status: Status)
    requires Enumerates(start, done)
  {
    && locators.Keys == start.locators.Keys
    && forall n | n in locators :: locators[n] == if n in done then Advanced(start, n, status) else start.locators[n]
  }

  ghost predicate AllSourced(accounts: map<Id, Account>, start: Tables, due: seq<Id>, status: Status)
    requires Enumerates(start, due)
  {
    forall n | n in due :: Sourced(accounts, start.numbers, n, Advanced(start, n, status))
  }

  lemma PartWayOneMore(start: Tables, locators: map<Id, Locator>, done: seq<Id>, n: Id, status: Status)
    requires Enumerates(start, done) && PartWay(start, locators, done, status) && Enumerates(start, done + [n])
    requires n in start.locators && n in start.numbers
    ensures PartWay(start, locators[n := Advanced(start, n, status)], done + [n], status)
  {
    assert (done + [n])[|done|] == n;
  }

  lemma AllAdvanced(start: Tables, locators: map<Id, Locator>, due: seq<Id>, status: Status)
    requires Enumerates(start, due) && PartWay(start, locators, due, status)
    ensures locators == start.locators + map n | n in (set x | x in due) :: Advanced(start, n, status)
  {
  }
}
