/** What both channel forms share: events, the optional cell, live-object accounting. */
module Common {

  /** An event, or for the logger the handle of the slab that holds one. */
  type Event = int

  datatype Option<+T> = None | Some(value: T)

  /** Pod: trivially copyable events. Object: events with a destructor, read through a guard. */
  datatype Kind = Pod | Object

  /** How many cells of a ring buffer hold a live object equal to e. */
  function Alive(store: seq<Option<Event>>, e: Event): nat {
    if store == [] then 0 else Alive(store[..|store| - 1], e) + Is(store[|store| - 1], e)
  }

  function Is(cell: Option<Event>, e: Event): nat {
    if cell == Some(e) then 1 else 0
  }

  lemma {:induction false} AliveUpdate(store: seq<Option<Event>>, b: nat, cell: Option<Event>, e: Event)
    requires b < |store|
    ensures Alive(store[b := cell], e) + Is(store[b], e) == Alive(store, e) + Is(cell, e)
  {
    var last := |store| - 1;
    var next := store[b := cell];
    if b == last {
      assert next[..last] == store[..last];
    } else {
      AliveUpdate(store[..last], b, cell, e);
      assert next[..last] == store[..last][b := cell];
    }
  }

  lemma {:induction false} NoneAlive(store: seq<Option<Event>>, e: Event)
    requires forall b | 0 <= b < |store| :: store[b].None?
    ensures Alive(store, e) == 0
  {
    if store != [] {
      NoneAlive(store[..|store| - 1], e);
    }
  }

  predicate Rising(list: seq<nat>) {
    forall i, j | 0 <= i < j < |list| :: list[i] < list[j]
  }

  /** A prefix of a log, extended by what lies behind it, is a prefix of every longer log. */
  lemma PrefixGrows(log: seq<Event>, longer: seq<Event>, n: nat, m: nat)
    requires n <= m <= |log| && log <= longer
    ensures log[..n] + log[n..m] == longer[..m]
  {
  }
}
