/**
 The logger's queue: a one-to-one object queue of boxes, each owning one slab of a
 circular pool with no free list. The client builds an event in the active slab,
 offers a box for it to the queue, and moves to the next slab only when the queue
 took it. The consumer's guards destroy the boxes, which destroy the slab events.
 The queue's events are slab indices; every queue step is a step of One2One.
 */
module SlabQueue {
  import opened Word
  import opened Common
  import Q = One2One
  import S = One2OneSafety

  datatype Config = Config(w: nat, bits: nat, slabs: nat) {
    function Queue(): Q.Config { Q.Config(Object, w, bits) }

    predicate Shape() { Queue().Sound() && slabs >= 1 }

    /** The pool holds one slab more than the queue can. */
    predicate Sound() { Shape() && slabs > Queue().Cap() }
  }

  /**
   Out: between log calls. Placed: the event is built in the active slab. Refused: the
   queue was full and the temporary box still owns the event. Moving, Moved: inside a
   successful try_write. Sent: published, the pool not advanced yet.
   */
  datatype Call = Out | Placed | Refused | Moving | Moved | Sent

  /** accepted lists the payloads of the published events; no step reads it, nor the counts. */
  datatype State = State(q: Q.State, pool: seq<Option<Event>>, next: nat, call: Call,
                         accepted: seq<Event>, attempts: nat, lost: nat)

  datatype Action = Place(p: Event) | Offer | Discard | Move | Publish | Seek | Load | Finish(k: nat) | Free(k: nat)

  predicate Shaped(cfg: Config, s: State) {
    cfg.Shape() && Q.Shaped(cfg.Queue(), s.q.c) && |s.pool| == cfg.slabs && s.next < cfg.slabs
  }

  /** Destroying a box destroys the event it owns; a moved-from or empty cell owns none. */
  function Unbox(pool: seq<Option<Event>>, cell: Option<Event>): seq<Option<Event>> {
    if cell.Some? && 0 <= cell.value < |pool| then pool[cell.value := None] else pool
  }

  function Next(cfg: Config, s: State, a: Action): State
    requires Shaped(cfg, s)
  {
    match a
    case Place(p) =>
      if s.call.Out? then s.(pool := s.pool[s.next := Some(p)], call := Placed, attempts := s.attempts + 1) else s
    case Offer =>
      if s.call.Placed? then
        var q := Q.Next(cfg.Queue(), s.q, Q.Check(s.next));
        if q == s.q then s.(call := Refused) else s.(q := q, call := Moving)
      else s
    case Discard =>
      if s.call.Refused? then s.(pool := Unbox(s.pool, Some(s.next)), call := Out, lost := s.lost + 1) else s
    case Move =>
      if s.call.Moving? then s.(q := Q.Next(cfg.Queue(), s.q, Q.Build), call := Moved) else s
    case Publish =>
      if s.call.Moved? then
        s.(q := Q.Next(cfg.Queue(), s.q, Q.Publish), call := Sent,
           accepted := s.accepted + (if s.pool[s.next].Some? then [s.pool[s.next].value] else []))
      else s
    case Seek =>
      if s.call.Sent? then s.(next := if s.next + 1 >= cfg.slabs then 0 else s.next + 1, call := Out) else s
    case Load => s.(q := Q.Next(cfg.Queue(), s.q, Q.Load))
    case Finish(k) =>
      s.(q := Q.Next(cfg.Queue(), s.q, Q.Spend(k)),
         pool := if S.IsHeld(s.q.c.guards, k)
                 then Unbox(s.pool, s.q.c.ring.store[s.q.c.guards[k].bucket]) else s.pool)
    case Free(k) => s.(q := Q.Next(cfg.Queue(), s.q, Q.Free(k)))
  }

  function Init(cfg: Config): State
    requires cfg.Shape()
  {
    State(Q.Init(cfg.Queue()), seq(cfg.slabs, _ => None), 0, Out, [], 0, 0)
  }

  lemma NextShaped(cfg: Config, s: State, a: Action)
    requires Shaped(cfg, s)
    ensures Shaped(cfg, Next(cfg, s, a))
  {
    var qa := match a
      case Offer => Q.Check(s.next)
      case Move => Q.Build
      case Publish => Q.Publish
      case Finish(k) => Q.Spend(k)
      case Free(k) => Q.Free(k)
      case _ => Q.Load;
    Q.StepShaped(cfg.Queue(), s.q.c, qa);
  }

  function Run(cfg: Config, actions: seq<Action>): (s: State)
    requires cfg.Shape()
    ensures Shaped(cfg, s)
  {
    if actions == [] then Init(cfg)
    else
      var s := Run(cfg, actions[..|actions| - 1]);
      NextShaped(cfg, s, actions[|actions| - 1]);
      Next(cfg, s, actions[|actions| - 1])
  }

  // ---------------------------------------------------------------- invariant

  /** The client has an event in the active slab that the queue has not published. */
  predicate Filling(s: State) {
    s.call.Placed? || s.call.Refused? || s.call.Moving? || s.call.Moved?
  }

  predicate CallOk(s: State) {
    match s.call
    case Moving => s.q.c.writer.pc == Q.Checked(s.next)
    case Moved => s.q.c.writer.pc == Q.Built(s.next)
    case _ => s.q.c.writer.pc == Q.Idle
  }

  /** The n-th accepted event sits in slab n mod size until its guard destroys it. */
  predicate SlabOk(cfg: Config, s: State, n: nat)
    requires Shaped(cfg, s) && n < |s.accepted|
  {
    s.pool[n % cfg.slabs] == if S.Intact(s.q.c.guards, n) then Some(s.accepted[n]) else None
  }

  /** Accepted events from this index on still determine the content of their slab. */
  function Low(cfg: Config, s: State): int {
    |s.q.log| - cfg.slabs + (if Filling(s) then 1 else 0)
  }

  predicate Inv(cfg: Config, s: State) {
    && Shaped(cfg, s) && S.Inv(cfg.Queue(), s.q) && CallOk(s)
    && |s.accepted| == |s.q.log|
    && (s.call.Sent? ==> |s.q.log| >= 1)
    && s.next == (if s.call.Sent? then |s.q.log| - 1 else |s.q.log|) % cfg.slabs
    && (Filling(s) ==> s.pool[s.next].Some?)
    && (forall n: nat | n < |s.q.log| :: s.q.log[n] == n % cfg.slabs)
    && (forall n: nat | n < |s.q.log| && n >= Low(cfg, s) :: SlabOk(cfg, s, n))
    && (forall i | |s.q.log| <= i < cfg.slabs && !(Filling(s) && i == s.next) :: s.pool[i] == None)
  }

  lemma InitInv(cfg: Config)
    requires cfg.Sound()
    ensures Inv(cfg, Init(cfg))
  {
    S.InitInv(cfg.Queue());
    SmallMod(0, cfg.slabs);
  }

  lemma SlabsApart(cfg: Config, m: nat, n: nat)
    requires cfg.Shape() && m != n && m < n + cfg.slabs && n < m + cfg.slabs
    ensures m % cfg.slabs != n % cfg.slabs
  {
    if m < n { SameSlot(m, n, cfg.slabs); } else { SameSlot(n, m, cfg.slabs); }
  }

  /** The active slab never stores an event that is queued or under a live guard. */
  lemma ActiveSlabIsFree(cfg: Config, s: State)
    requires cfg.Sound() && Inv(cfg, s) && s.call.Out?
    ensures s.pool[s.next] == None
    ensures forall n: nat | n < |s.q.log| && S.Intact(s.q.c.guards, n) :: n % cfg.slabs != s.next
  {
    var W := |s.q.log|;
    forall n: nat | n < W && S.Intact(s.q.c.guards, n) ensures n % cfg.slabs != s.next {
      assert S.EventOk(cfg.Queue(), s.q, n);
      SlabsApart(cfg, n, W);
    }
    if W < cfg.slabs {
      SmallMod(W, cfg.slabs);
    } else {
      AddMultiple(W - cfg.slabs, cfg.slabs, 1);
      assert SlabOk(cfg, s, W - cfg.slabs);
    }
  }

  lemma PlaceInv(cfg: Config, s: State, p: Event)
    requires cfg.Sound() && Inv(cfg, s)
    ensures Inv(cfg, Next(cfg, s, Place(p)))
  {
    var t := Next(cfg, s, Place(p));
    if s.call.Out? {
      forall n: nat | n < |t.q.log| && n >= Low(cfg, t) ensures SlabOk(cfg, t, n) {
        assert SlabOk(cfg, s, n);
        SlabsApart(cfg, n, |s.q.log|);
      }
    }
  }

  lemma DiscardInv(cfg: Config, s: State)
    requires cfg.Sound() && Inv(cfg, s)
    ensures Inv(cfg, Next(cfg, s, Discard))
  {
    var t := Next(cfg, s, Discard);
    if s.call.Refused? {
      var W := |s.q.log|;
      forall n: nat | n < W && n >= Low(cfg, t) ensures SlabOk(cfg, t, n) {
        if n == W - cfg.slabs {
          AddMultiple(n, cfg.slabs, 1);
          assert S.EventOk(cfg.Queue(), s.q, n);
        } else {
          assert SlabOk(cfg, s, n);
          SlabsApart(cfg, n, W);
        }
      }
    }
  }

  /** A step of the queue alone: slabs, log and the events alive stay as they are. */
  predicate SameSlabs(s: State, t: State) {
    && t == s.(q := t.q, call := t.call) && t.q.log == s.q.log
    && Filling(t) == Filling(s) && t.call.Sent? == s.call.Sent?
    && forall n: nat | n < |s.q.log| :: S.Intact(t.q.c.guards, n) == S.Intact(s.q.c.guards, n)
  }

  lemma SameSlabsInv(cfg: Config, s: State, t: State)
    requires cfg.Sound() && Inv(cfg, s) && Shaped(cfg, t) && S.Inv(cfg.Queue(), t.q) && CallOk(t) && SameSlabs(s, t)
    ensures Inv(cfg, t)
  {
    forall n: nat | n < |t.q.log| && n >= Low(cfg, t) ensures SlabOk(cfg, t, n) { assert SlabOk(cfg, s, n); }
  }

  lemma OfferInv(cfg: Config, s: State)
    requires cfg.Sound() && Inv(cfg, s)
    ensures Inv(cfg, Next(cfg, s, Offer))
  {
    NextShaped(cfg, s, Offer);
    S.StepInv(cfg.Queue(), s.q, Q.Check(s.next));
    SameSlabsInv(cfg, s, Next(cfg, s, Offer));
  }

  lemma MoveInv(cfg: Config, s: State)
    requires cfg.Sound() && Inv(cfg, s)
    ensures Inv(cfg, Next(cfg, s, Move))
  {
    NextShaped(cfg, s, Move);
    S.StepInv(cfg.Queue(), s.q, Q.Build);
    SameSlabsInv(cfg, s, Next(cfg, s, Move));
  }

  lemma PublishInv(cfg: Config, s: State)
    requires cfg.Sound() && Inv(cfg, s)
    ensures Inv(cfg, Next(cfg, s, Publish))
  {
    if s.call.Moved? {
      NextShaped(cfg, s, Publish);
      S.StepInv(cfg.Queue(), s.q, Q.Publish);
      PublishedInv(cfg, s, Next(cfg, s, Publish));
    }
  }

  /** The event in the active slab became the next accepted one. */
  lemma PublishedInv(cfg: Config, s: State, t: State)
    requires cfg.Sound() && Inv(cfg, s) && s.call.Moved? && Shaped(cfg, t) && S.Inv(cfg.Queue(), t.q)
    requires t == s.(q := t.q, call := Sent, accepted := s.accepted + [s.pool[s.next].value])
    requires t.q.log == s.q.log + [s.next] && t.q.c.guards == s.q.c.guards && t.q.c.writer.pc.Idle?
    ensures Inv(cfg, t)
  {
    forall n: nat | n < |t.q.log| && n >= Low(cfg, t) ensures SlabOk(cfg, t, n) {
      if n < |s.q.log| { assert SlabOk(cfg, s, n); }
    }
    forall i | |t.q.log| <= i < cfg.slabs ensures t.pool[i] == None {
      SmallMod(|s.q.log|, cfg.slabs);
    }
  }

  lemma SeekInv(cfg: Config, s: State)
    requires cfg.Sound() && Inv(cfg, s)
    ensures Inv(cfg, Next(cfg, s, Seek))
  {
    var t := Next(cfg, s, Seek);
    if s.call.Sent? {
      NextSlab(|s.q.log| - 1, cfg.slabs);
      forall n: nat | n < |t.q.log| && n >= Low(cfg, t) ensures SlabOk(cfg, t, n) { assert SlabOk(cfg, s, n); }
    }
  }

  /** seek_to_next_slab is one step around the circle. */
  lemma NextSlab(n: nat, size: nat)
    requires size >= 1
    ensures (n + 1) % size == if n % size + 1 >= size then 0 else n % size + 1
  {
    DivModIdentity(n, size);
    var q, r := n / size, n % size;
    AddMultiple(r + 1, size, q);
    if r + 1 == size { AddMultiple(0, size, 1); SmallMod(0, size); } else { SmallMod(r + 1, size); }
  }

  lemma LoadInv(cfg: Config, s: State)
    requires cfg.Sound() && Inv(cfg, s)
    ensures Inv(cfg, Next(cfg, s, Load))
  {
    NextShaped(cfg, s, Load);
    S.StepInv(cfg.Queue(), s.q, Q.Load);
    SameSlabsInv(cfg, s, Next(cfg, s, Load));
  }

  lemma FreeInv(cfg: Config, s: State, k: nat)
    requires cfg.Sound() && Inv(cfg, s)
    ensures Inv(cfg, Next(cfg, s, Free(k)))
  {
    NextShaped(cfg, s, Free(k));
    S.StepInv(cfg.Queue(), s.q, Q.Free(k));
    SameSlabsInv(cfg, s, Next(cfg, s, Free(k)));
  }

  /** A live guard's box owns a live slab event: the payload logged under its number. */
  lemma GuardOwnsSlab(cfg: Config, s: State, k: nat)
    requires cfg.Sound() && Inv(cfg, s) && S.IsHeld(s.q.c.guards, k)
    ensures k < |s.accepted|
    ensures s.q.c.ring.store[s.q.c.guards[k].bucket] == Some(k % cfg.slabs)
    ensures s.pool[k % cfg.slabs] == Some(s.accepted[k])
    ensures k >= Low(cfg, s)
  {
    S.GuardInWindow(cfg.Queue(), s.q, k);
    assert SlabOk(cfg, s, k);
  }

  lemma FinishSlab(cfg: Config, s: State, t: State, k: nat, n: nat)
    requires cfg.Sound() && Inv(cfg, s) && S.IsHeld(s.q.c.guards, k) && Shaped(cfg, t)
    requires n < |s.accepted| && n >= Low(cfg, s) && t.accepted == s.accepted
    requires t.pool == s.pool[k % cfg.slabs := None]
    requires t.q.c.guards == s.q.c.guards[k := Q.Guard(s.q.c.guards[k].bucket, Q.Spent)]
    ensures SlabOk(cfg, t, n)
  {
    GuardOwnsSlab(cfg, s, k);
    assert SlabOk(cfg, s, n);
    if n != k { SlabsApart(cfg, n, k); }
  }

  /** Dropping a held guard destroys its box, and with it the event in slab i. */
  lemma FinishEffect(cfg: Config, s: State, k: nat, i: nat)
    requires Shaped(cfg, s) && S.IsHeld(s.q.c.guards, k) && i < cfg.slabs
    requires s.q.c.ring.store[s.q.c.guards[k].bucket] == Some(i)
    ensures var t := Next(cfg, s, Finish(k));
            && t == s.(q := t.q, pool := s.pool[i := None])
            && t.q.log == s.q.log && t.q.c.writer == s.q.c.writer
            && t.q.c.guards == s.q.c.guards[k := Q.Guard(s.q.c.guards[k].bucket, Q.Spent)]
  {
  }

  lemma FinishHeld(cfg: Config, s: State, t: State, k: nat)
    requires cfg.Sound() && Inv(cfg, s) && S.IsHeld(s.q.c.guards, k)
    requires Shaped(cfg, t) && S.Inv(cfg.Queue(), t.q)
    requires t == s.(q := t.q, pool := s.pool[k % cfg.slabs := None])
    requires t.q.log == s.q.log && t.q.c.writer == s.q.c.writer
    requires t.q.c.guards == s.q.c.guards[k := Q.Guard(s.q.c.guards[k].bucket, Q.Spent)]
    ensures Inv(cfg, t)
  {
    GuardOwnsSlab(cfg, s, k);
    ModAtMost(k, cfg.slabs);
    if Filling(s) { SlabsApart(cfg, k, |s.q.log|); }
    forall n: nat | n < |t.q.log| && n >= Low(cfg, t) ensures SlabOk(cfg, t, n) { FinishSlab(cfg, s, t, k, n); }
  }

  lemma FinishInv(cfg: Config, s: State, k: nat)
    requires cfg.Sound() && Inv(cfg, s)
    ensures Inv(cfg, Next(cfg, s, Finish(k)))
  {
    var t := Next(cfg, s, Finish(k));
    if S.IsHeld(s.q.c.guards, k) {
      GuardOwnsSlab(cfg, s, k);
      NextShaped(cfg, s, Finish(k));
      S.StepInv(cfg.Queue(), s.q, Q.Spend(k));
      FinishEffect(cfg, s, k, k % cfg.slabs);
      FinishHeld(cfg, s, t, k);
    } else {
      assert t == s;
    }
  }

  lemma StepInv(cfg: Config, s: State, a: Action)
    requires cfg.Sound() && Inv(cfg, s)
    ensures Inv(cfg, Next(cfg, s, a))
  {
    match a
    case Place(p) => PlaceInv(cfg, s, p);
    case Offer => OfferInv(cfg, s);
    case Discard => DiscardInv(cfg, s);
    case Move => MoveInv(cfg, s);
    case Publish => PublishInv(cfg, s);
    case Seek => SeekInv(cfg, s);
    case Load => LoadInv(cfg, s);
    case Finish(k) => FinishInv(cfg, s, k);
    case Free(k) => FreeInv(cfg, s, k);
  }

  lemma {:induction false} RunInv(cfg: Config, actions: seq<Action>)
    requires cfg.Sound()
    ensures Inv(cfg, Run(cfg, actions))
  {
    if actions == [] {
      InitInv(cfg);
    } else {
      RunInv(cfg, actions[..|actions| - 1]);
      StepInv(cfg, Run(cfg, actions[..|actions| - 1]), actions[|actions| - 1]);
    }
  }
}
