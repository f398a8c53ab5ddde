/**
 What a channel promises, with unbounded indices and no ring: a log every reader
 takes from in order, and a writer that may be at most `cap` events ahead of the
 oldest event some reader still holds or has not taken.
 */
module Broadcast {
  import opened Common

  /** returned[r][k]: reader r has given back the k-th event it took. */
  datatype Spec = Spec(log: seq<Event>, returned: seq<seq<bool>>)

  datatype Op = Write(e: Event) | Take(r: nat) | Give(r: nat, k: nat)

  function Start(readers: nat): Spec {
    Spec([], seq(readers, _ => []))
  }

  predicate Allowed(cap: nat, sp: Spec, op: Op) {
    match op
    case Write(_) =>
      |sp.log| >= cap ==>
        forall r | 0 <= r < |sp.returned| :: |sp.log| - cap < |sp.returned[r]| && sp.returned[r][|sp.log| - cap]
    case Take(r) => r < |sp.returned| && |sp.returned[r]| < |sp.log|
    case Give(r, k) => r < |sp.returned| && k < |sp.returned[r]| && !sp.returned[r][k]
  }

  function Apply(sp: Spec, op: Op): Spec {
    match op
    case Write(e) => sp.(log := sp.log + [e])
    case Take(r) => if r < |sp.returned| then sp.(returned := sp.returned[r := sp.returned[r] + [false]]) else sp
    case Give(r, k) =>
      if r < |sp.returned| && k < |sp.returned[r]|
      then sp.(returned := sp.returned[r := sp.returned[r][k := true]]) else sp
  }

  function Replay(readers: nat, ops: seq<Op>): Spec {
    if ops == [] then Start(readers) else Apply(Replay(readers, ops[..|ops| - 1]), ops[|ops| - 1])
  }

  predicate Legal(cap: nat, readers: nat, ops: seq<Op>) {
    ops == [] ||
    (Legal(cap, readers, ops[..|ops| - 1]) && Allowed(cap, Replay(readers, ops[..|ops| - 1]), ops[|ops| - 1]))
  }

  /** The window: no reader falls more than cap events behind, and older events are all given back. */
  predicate Window(cap: nat, readers: nat, sp: Spec) {
    && |sp.returned| == readers
    && (forall r | 0 <= r < readers :: |sp.returned[r]| <= |sp.log| <= |sp.returned[r]| + cap)
    && (forall r, k | 0 <= r < readers && 0 <= k < |sp.returned[r]| && k < |sp.log| - cap :: sp.returned[r][k])
  }

  lemma {:induction false} LegalWindow(cap: nat, readers: nat, ops: seq<Op>)
    requires Legal(cap, readers, ops)
    ensures Window(cap, readers, Replay(readers, ops))
  {
    if ops != [] {
      LegalWindow(cap, readers, ops[..|ops| - 1]);
      var sp, op := Replay(readers, ops[..|ops| - 1]), ops[|ops| - 1];
      if op.Write? && |sp.log| >= cap {
        forall r, k | 0 <= r < readers && 0 <= k < |sp.returned[r]| && k < |sp.log| + 1 - cap
          ensures sp.returned[r][k]
        {
          if k == |sp.log| - cap {} else { assert k < |sp.log| - cap; }
        }
      }
    }
  }

  /** Extending a history by at most one allowed operation. */
  lemma {:induction false} Extend(cap: nat, readers: nat, ops: seq<Op>, more: seq<Op>)
    requires Legal(cap, readers, ops) && |more| <= 1
    requires more != [] ==> Allowed(cap, Replay(readers, ops), more[0])
    ensures Legal(cap, readers, ops + more)
    ensures Replay(readers, ops + more)
         == (if more == [] then Replay(readers, ops) else Apply(Replay(readers, ops), more[0]))
  {
    if more == [] {
      assert ops + more == ops;
    } else {
      assert (ops + more)[..|ops + more| - 1] == ops;
    }
  }
}
