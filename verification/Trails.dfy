/**
  Append-only transition histories: each entry names the row, the state it left and the state it
  entered. A history tracks a row when its entries form a path of the transition graph that ends in
  the row's current state.
*/
module Trails {
  import opened Prelude

  datatype Entry<S, N> = Entry(id: nat, previous: Option<S>, state: S, note: N)

  /** The entries of one row, oldest first. */
  ghost function Trail<S, N>(history: seq<Entry<S, N>>, id: nat): seq<Entry<S, N>> {
    if history == [] then []
    else
      var rest := Trail(history[..|history| - 1], id);
      if history[|history| - 1].id == id then rest + [history[|history| - 1]] else rest
  }

  /** Starts in `start` with no previous state and steps along `edges`. */
  ghost predicate Chain<S, N>(trail: seq<Entry<S, N>>, start: S, edges: set<(S, S)>) {
    && (|trail| > 0 ==> trail[0].previous == None && trail[0].state == start)
    && (forall i | 0 < i < |trail| :: trail[i].previous == Some(trail[i - 1].state)
          && (trail[i - 1].state, trail[i].state) in edges)
  }

  /** A row, seen through its history: its state and the note every entry carries. */
  datatype Seen<S, N> = Absent | Present(state: S, note: N)

  ghost predicate Tracks<S, N>(history: seq<Entry<S, N>>, id: nat, start: S, edges: set<(S, S)>, row: Seen<S, N>) {
    var trail := Trail(history, id);
    && Chain(trail, start, edges)
    && (row.Absent? ==> trail == [])
    && (row.Present? ==> |trail| > 0 && trail[|trail| - 1].state == row.state &&
                         forall i | 0 <= i < |trail| :: trail[i].note == row.note)
  }

  lemma TrailSnoc<S, N>(history: seq<Entry<S, N>>, entry: Entry<S, N>, id: nat)
    ensures Trail(history + [entry], id) == if entry.id == id then Trail(history, id) + [entry] else Trail(history, id)
  {
    assert (history + [entry])[..|history|] == history;
  }

  lemma ChainSnoc<S, N>(trail: seq<Entry<S, N>>, entry: Entry<S, N>, start: S, edges: set<(S, S)>)
    requires Chain(trail, start, edges)
    requires if trail == [] then entry.previous == None && entry.state == start
             else entry.previous == Some(trail[|trail| - 1].state) && (trail[|trail| - 1].state, entry.state) in edges
    ensures Chain(trail + [entry], start, edges)
  {
    var longer := trail + [entry];
    forall i | 0 < i < |longer|
      ensures longer[i].previous == Some(longer[i - 1].state) && (longer[i - 1].state, longer[i].state) in edges
    {
      assert longer[i - 1] == trail[i - 1];
      assert i < |trail| ==> longer[i] == trail[i];
    }
  }

  lemma TracksStep<S, N>(history: seq<Entry<S, N>>, entry: Entry<S, N>, id: nat, start: S,
                         edges: set<(S, S)>, row: Seen<S, N>)
    requires Tracks(history, id, start, edges, row)
    requires entry.id == id ==>
      if row.Absent? then entry.previous == None && entry.state == start
      else entry.previous == Some(row.state) && (row.state, entry.state) in edges && entry.note == row.note
    ensures Tracks(history + [entry], id, start, edges,
              if entry.id == id then Present(entry.state, entry.note) else row)
  {
    TrailSnoc(history, entry, id);
    if entry.id == id {
      ChainSnoc(Trail(history, id), entry, start, edges);
    }
  }
}
