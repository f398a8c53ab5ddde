/** What the queue, the slab pool and the boxes guarantee together, over every run. */
module SlabQueueTheorems {
  import opened Word
  import opened Common
  import opened Capacity
  import opened SlabQueue
  import Q = One2One
  import S = One2OneSafety
  import T = One2OneTheorems
  import L = One2OneLimits

  /** A guard reads the payload that was logged, however long it is held and whatever else happens. */
  lemma {:induction false} GuardReadsItsPayload(cfg: Config, actions: seq<Action>, k: nat)
    requires cfg.Sound() && S.IsHeld(Run(cfg, actions).q.c.guards, k)
    ensures var s := Run(cfg, actions);
            && k < |s.accepted|
            && s.q.c.ring.store[s.q.c.guards[k].bucket] == Some(k % cfg.slabs)
            && s.pool[k % cfg.slabs] == Some(s.accepted[k])
  {
    RunInv(cfg, actions);
    GuardOwnsSlab(cfg, Run(cfg, actions), k);
  }

  /** What one step delivers: the payload behind the box of the guard a successful load creates. */
  function Delivers(cfg: Config, s: State, a: Action): seq<Event>
    requires Shaped(cfg, s)
  {
    if a.Load? && |Next(cfg, s, a).q.c.guards| > |s.q.c.guards| then
      var box := s.q.c.ring.store[s.q.c.reader.bucket];
      if box.Some? && 0 <= box.value < |s.pool| && s.pool[box.value].Some? then [s.pool[box.value].value] else []
    else []
  }

  function Delivered(cfg: Config, actions: seq<Action>): seq<Event>
    requires cfg.Shape()
  {
    if actions == [] then []
    else Delivered(cfg, actions[..|actions| - 1])
         + Delivers(cfg, Run(cfg, actions[..|actions| - 1]), actions[|actions| - 1])
  }

  lemma LoadDelivers(cfg: Config, s: State)
    requires cfg.Sound() && Inv(cfg, s)
    ensures var t := Next(cfg, s, Load);
            && t.accepted == s.accepted && |s.q.c.guards| <= |t.q.c.guards| <= |t.accepted|
            && Delivers(cfg, s, Load) == t.accepted[|s.q.c.guards|..|t.q.c.guards|]
  {
    S.LoadMatches(cfg.Queue(), s.q);
    var n := |s.q.c.guards|;
    if n < |s.q.log| {
      assert S.EventOk(cfg.Queue(), s.q, n) && S.Intact(s.q.c.guards, n);
      assert SlabOk(cfg, s, n);
    }
  }

  /** A step that is not a load delivers nothing and creates no guard. */
  lemma OthersDeliverNothing(cfg: Config, s: State, a: Action)
    requires Shaped(cfg, s) && !a.Load?
    ensures var t := Next(cfg, s, a);
            s.accepted <= t.accepted && |t.q.c.guards| == |s.q.c.guards| && Delivers(cfg, s, a) == []
  {
  }

  lemma DeliversNext(cfg: Config, s: State, a: Action)
    requires cfg.Sound() && Inv(cfg, s)
    ensures var t := Next(cfg, s, a);
            && s.accepted <= t.accepted
            && |s.q.c.guards| <= |t.q.c.guards| <= |t.accepted|
            && Delivers(cfg, s, a) == t.accepted[|s.q.c.guards|..|t.q.c.guards|]
  {
    if a.Load? { LoadDelivers(cfg, s); } else { OthersDeliverNothing(cfg, s, a); }
  }

  lemma {:induction false} DeliveredIsPrefix(cfg: Config, actions: seq<Action>)
    requires cfg.Sound()
    ensures var s := Run(cfg, actions);
            |s.q.c.guards| <= |s.accepted| && Delivered(cfg, actions) == s.accepted[..|s.q.c.guards|]
  {
    if actions != [] {
      var before := actions[..|actions| - 1];
      DeliveredIsPrefix(cfg, before);
      RunInv(cfg, before);
      var s, t := Run(cfg, before), Run(cfg, actions);
      DeliversNext(cfg, s, actions[|actions| - 1]);
      assert s.accepted[..|s.q.c.guards|] + t.accepted[|s.q.c.guards|..|t.q.c.guards|] == t.accepted[..|t.q.c.guards|];
    }
  }

  /** Attempts that are neither accepted, nor lost, nor in progress. */
  function Unaccounted(s: State): int {
    s.attempts - |s.accepted| - s.lost - (if Filling(s) then 1 else 0)
  }

  lemma AttemptStep(cfg: Config, s: State, a: Action)
    requires cfg.Sound() && Inv(cfg, s)
    ensures var t := Next(cfg, s, a);
            Unaccounted(t) == Unaccounted(s)
  {
  }

  lemma {:induction false} AttemptsAddUp(cfg: Config, actions: seq<Action>)
    requires cfg.Sound()
    ensures var s := Run(cfg, actions);
            Unaccounted(s) == 0
  {
    if actions != [] {
      AttemptsAddUp(cfg, actions[..|actions| - 1]);
      RunInv(cfg, actions[..|actions| - 1]);
      AttemptStep(cfg, Run(cfg, actions[..|actions| - 1]), actions[|actions| - 1]);
    }
  }

  /**
   End-to-end accounting between log calls: every attempt was delivered, is pending, or was
   counted as lost, and the deliveries are the accepted payloads in order.
   */
  lemma {:induction false} Accounting(cfg: Config, actions: seq<Action>)
    requires cfg.Sound() && Run(cfg, actions).call.Out?
    ensures var s := Run(cfg, actions);
            && Delivered(cfg, actions) <= s.accepted
            && s.attempts == |Delivered(cfg, actions)| + (|s.accepted| - |s.q.c.guards|) + s.lost
  {
    DeliveredIsPrefix(cfg, actions);
    AttemptsAddUp(cfg, actions);
  }

  // ---------------------------------------------------------------- exactly-once destruction

  function Builds(s: State, a: Action, p: Event): nat {
    if a == Place(p) && s.call.Out? then 1 else 0
  }

  /** The event a box destructor ends in this step: the refused temporary's, or a guard's. */
  function Ends(cfg: Config, s: State, a: Action): Option<Event>
    requires Shaped(cfg, s)
  {
    match a
    case Discard => if s.call.Refused? then s.pool[s.next] else None
    case Finish(k) =>
      if S.IsHeld(s.q.c.guards, k) then
        var box := s.q.c.ring.store[s.q.c.guards[k].bucket];
        if box.Some? && 0 <= box.value < |s.pool| then s.pool[box.value] else None
      else None
    case _ => None
  }

  function Built(cfg: Config, actions: seq<Action>, p: Event): nat
    requires cfg.Shape()
  {
    if actions == [] then 0
    else Built(cfg, actions[..|actions| - 1], p)
         + Builds(Run(cfg, actions[..|actions| - 1]), actions[|actions| - 1], p)
  }

  function Destroyed(cfg: Config, actions: seq<Action>, p: Event): nat
    requires cfg.Shape()
  {
    if actions == [] then 0
    else Destroyed(cfg, actions[..|actions| - 1], p)
         + Is(Ends(cfg, Run(cfg, actions[..|actions| - 1]), actions[|actions| - 1]), p)
  }

  lemma BalanceStep(cfg: Config, s: State, a: Action, p: Event)
    requires cfg.Sound() && Inv(cfg, s)
    ensures Alive(Next(cfg, s, a).pool, p) + Is(Ends(cfg, s, a), p) == Alive(s.pool, p) + Builds(s, a, p)
  {
    if a.Place? && s.call.Out? {
      ActiveSlabIsFree(cfg, s);
      AliveUpdate(s.pool, s.next, Some(a.p), p);
    } else if a.Discard? && s.call.Refused? {
      AliveUpdate(s.pool, s.next, None, p);
    } else if a.Finish? && S.IsHeld(s.q.c.guards, a.k) {
      GuardOwnsSlab(cfg, s, a.k);
      AliveUpdate(s.pool, a.k % cfg.slabs, None, p);
    }
  }

  /** Every event built in a slab is alive in one slab or was destroyed by exactly one box. */
  lemma {:induction false} DestructionBalance(cfg: Config, actions: seq<Action>, p: Event)
    requires cfg.Sound()
    ensures Built(cfg, actions, p) == Destroyed(cfg, actions, p) + Alive(Run(cfg, actions).pool, p)
  {
    if actions == [] {
      NoneAlive(Init(cfg).pool, p);
    } else {
      DestructionBalance(cfg, actions[..|actions| - 1], p);
      RunInv(cfg, actions[..|actions| - 1]);
      BalanceStep(cfg, Run(cfg, actions[..|actions| - 1]), actions[|actions| - 1], p);
    }
  }

  /** Bucket b is occupied and its box owns slab i. */
  predicate Owns(cfg: Config, s: State, b: nat, i: int)
    requires Shaped(cfg, s)
  {
    b < cfg.Queue().Cap() && s.q.c.ring.seqn[b] != Dummy(cfg.w) && s.q.c.ring.store[b] == Some(i)
  }

  /** No call is in progress and every guard is dropped. */
  predicate Quiet(s: State) {
    s.call.Out? && T.Quiet(s.q)
  }

  /** The event that an occupied bucket of a quiet queue holds, and the slab its box owns. */
  lemma OccupiedBy(cfg: Config, s: State, b: nat) returns (n: nat)
    requires cfg.Sound() && Inv(cfg, s) && Quiet(s) && b < cfg.Queue().Cap() && s.q.c.ring.seqn[b] != Dummy(cfg.w)
    ensures n < |s.q.log| <= n + cfg.Queue().Cap() && n % cfg.Queue().Cap() == b
    ensures Owns(cfg, s, b, n % cfg.slabs) && s.pool[n % cfg.slabs].Some?
  {
    assert b >= |s.q.log| ==> S.FreshOk(cfg.Queue(), s.q, b);
    n := LatestIn(b, |s.q.log|, cfg.Queue().Cap());
    assert S.EventOk(cfg.Queue(), s.q, n) && SlabOk(cfg, s, n);
  }

  /** The boxes left in the ring own exactly the live slabs. */
  lemma BoxesOwnLiveSlabs(cfg: Config, s: State, i: nat)
    requires cfg.Sound() && Inv(cfg, s) && Quiet(s) && i < cfg.slabs
    ensures s.pool[i].Some? <==> exists b: nat :: Owns(cfg, s, b, i)
  {
    if s.pool[i].Some? {
      assert i < |s.q.log|;
      var n := LatestIn(i, |s.q.log|, cfg.slabs);
      assert SlabOk(cfg, s, n) && S.EventOk(cfg.Queue(), s.q, n);
      PublishedOf(cfg.w, n);
      assert Owns(cfg, s, n % cfg.Queue().Cap(), i);
    }
    if b: nat :| Owns(cfg, s, b, i) {
      var _ := OccupiedBy(cfg, s, b);
    }
  }

  /** No two boxes own the same slab. */
  lemma BoxesAreDistinct(cfg: Config, s: State, a: nat, b: nat, i: int)
    requires cfg.Sound() && Inv(cfg, s) && Quiet(s) && Owns(cfg, s, a, i) && Owns(cfg, s, b, i)
    ensures a == b
  {
    var m := OccupiedBy(cfg, s, a);
    var n := OccupiedBy(cfg, s, b);
    if m != n { SlabsApart(cfg, m, n); }
  }

  /** A bucket that is marked occupied holds a box, and the box owns a slab. */
  predicate Boxes(cfg: Config, s: State) {
    Shaped(cfg, s) &&
    forall b | 0 <= b < cfg.Queue().Cap() && s.q.c.ring.seqn[b] != Dummy(cfg.w) ::
      s.q.c.ring.store[b].Some? && 0 <= s.q.c.ring.store[b].value < cfg.slabs
  }

  lemma QuietBoxes(cfg: Config, s: State)
    requires cfg.Sound() && Inv(cfg, s) && Quiet(s)
    ensures Boxes(cfg, s)
  {
    forall b | 0 <= b < cfg.Queue().Cap() && s.q.c.ring.seqn[b] != Dummy(cfg.w)
      ensures s.q.c.ring.store[b].Some? && 0 <= s.q.c.ring.store[b].value < cfg.slabs
    {
      var _ := OccupiedBy(cfg, s, b);
    }
  }

  /** The slabs after the destructors of the first b buckets: an occupied one destroys its box, and that its event. */
  function TearDown(cfg: Config, s: State, b: nat): (pool: seq<Option<Event>>)
    requires Boxes(cfg, s) && b <= cfg.Queue().Cap()
    ensures |pool| == cfg.slabs
  {
    if b == 0 then s.pool
    else if s.q.c.ring.seqn[b - 1] == Dummy(cfg.w) then TearDown(cfg, s, b - 1)
    else TearDown(cfg, s, b - 1)[s.q.c.ring.store[b - 1].value := None]
  }

  /** A slab keeps its event until the one bucket whose box owns it is destroyed. */
  lemma {:induction false} TearDownSlab(cfg: Config, s: State, b: nat, i: nat)
    requires Boxes(cfg, s) && b <= cfg.Queue().Cap() && i < cfg.slabs
    ensures (exists a: nat :: a < b && Owns(cfg, s, a, i)) ==> TearDown(cfg, s, b)[i] == None
    ensures !(exists a: nat :: a < b && Owns(cfg, s, a, i)) ==> TearDown(cfg, s, b)[i] == s.pool[i]
  {
    if b > 0 {
      TearDownSlab(cfg, s, b - 1, i);
      assert s.q.c.ring.seqn[b - 1] != Dummy(cfg.w) && s.q.c.ring.store[b - 1] == Some(i) ==> Owns(cfg, s, b - 1, i);
    }
  }

  /**
   Teardown runs the bucket destructors before the pool is freed. Each box left in the ring
   finds its event alive, so it is destroyed exactly once, and no slab event outlives the ring.
   */
  lemma TeardownEndsEachOnce(cfg: Config, s: State, b: nat, i: nat)
    requires cfg.Sound() && Inv(cfg, s) && Quiet(s) && i < cfg.slabs
    ensures Boxes(cfg, s)
    ensures TearDown(cfg, s, cfg.Queue().Cap())[i] == None
    ensures Owns(cfg, s, b, i) ==> TearDown(cfg, s, b)[i] == s.pool[i] && s.pool[i].Some?
  {
    QuietBoxes(cfg, s);
    TearDownSlab(cfg, s, cfg.Queue().Cap(), i);
    BoxesOwnLiveSlabs(cfg, s, i);
    if Owns(cfg, s, b, i) {
      TearDownSlab(cfg, s, b, i);
      if a: nat :| a < b && Owns(cfg, s, a, i) { BoxesAreDistinct(cfg, s, a, b, i); }
    }
  }

  // ---------------------------------------------------------------- the bound on the pool size

  lemma {:induction false} RunStep(cfg: Config, actions: seq<Action>, a: Action)
    requires cfg.Shape()
    ensures Run(cfg, actions + [a]) == Next(cfg, Run(cfg, actions), a)
  {
    assert (actions + [a])[..|actions + [a]| - 1] == actions;
  }

  /** A log call the queue accepts, from placing the event to advancing the pool. */
  function LogCall(p: Event): seq<Action> {
    [Place(p), Offer, Move, Publish, Seek]
  }

  function Logged(cfg: Config, s: State, p: Event): State
    requires Shaped(cfg, s)
  {
    s.(q := L.Wrote(cfg.Queue(), s.q, s.next), pool := s.pool[s.next := Some(p)],
       next := if s.next + 1 >= cfg.slabs then 0 else s.next + 1,
       accepted := s.accepted + [p], attempts := s.attempts + 1)
  }

  /** Between log calls, with room in the queue. */
  predicate HasRoom(cfg: Config, s: State)
    requires Shaped(cfg, s)
  {
    s.call.Out? && s.q.c.writer.pc.Idle? && s.q.c.ring.seqn[s.q.c.writer.bucket] == Dummy(cfg.w)
  }

  /** The first three steps: the event is built, and its box is in the bucket. */
  function Boxed(cfg: Config, s: State, p: Event): State
    requires Shaped(cfg, s)
  {
    var b := s.q.c.writer.bucket;
    s.(pool := s.pool[s.next := Some(p)], call := Moved, attempts := s.attempts + 1,
       q := s.q.(c := s.q.c.(ring := s.q.c.ring.(store := s.q.c.ring.store[b := Some(s.next)]),
                             writer := s.q.c.writer.(pc := Q.Built(s.next)))))
  }

  lemma BoxingSteps(cfg: Config, s: State, p: Event)
    requires Shaped(cfg, s) && HasRoom(cfg, s)
    ensures Shaped(cfg, Next(cfg, s, Place(p))) && Shaped(cfg, Next(cfg, Next(cfg, s, Place(p)), Offer))
    ensures Next(cfg, Next(cfg, Next(cfg, s, Place(p)), Offer), Move) == Boxed(cfg, s, p)
  {
    NextShaped(cfg, s, Place(p));
    NextShaped(cfg, Next(cfg, s, Place(p)), Offer);
  }

  lemma PublishingSteps(cfg: Config, s: State, p: Event)
    requires Shaped(cfg, s) && HasRoom(cfg, s) && Shaped(cfg, Boxed(cfg, s, p))
    ensures Shaped(cfg, Next(cfg, Boxed(cfg, s, p), Publish))
    ensures Next(cfg, Next(cfg, Boxed(cfg, s, p), Publish), Seek) == Logged(cfg, s, p)
  {
    NextShaped(cfg, Boxed(cfg, s, p), Publish);
  }

  lemma {:induction false} BoxedRuns(cfg: Config, actions: seq<Action>, p: Event)
    requires cfg.Shape() && HasRoom(cfg, Run(cfg, actions))
    ensures Run(cfg, actions + [Place(p), Offer, Move]) == Boxed(cfg, Run(cfg, actions), p)
  {
    RunStep(cfg, actions, Place(p));
    RunStep(cfg, actions + [Place(p)], Offer);
    RunStep(cfg, actions + [Place(p)] + [Offer], Move);
    assert actions + [Place(p), Offer, Move] == actions + [Place(p)] + [Offer] + [Move];
    BoxingSteps(cfg, Run(cfg, actions), p);
  }

  lemma {:induction false} LogRuns(cfg: Config, actions: seq<Action>, p: Event)
    requires cfg.Shape() && HasRoom(cfg, Run(cfg, actions))
    ensures Run(cfg, actions + LogCall(p)) == Logged(cfg, Run(cfg, actions), p)
  {
    var a3 := actions + [Place(p), Offer, Move];
    BoxedRuns(cfg, actions, p);
    RunStep(cfg, a3, Publish);
    RunStep(cfg, a3 + [Publish], Seek);
    assert actions + LogCall(p) == a3 + [Publish] + [Seek];
    PublishingSteps(cfg, Run(cfg, actions), p);
  }

  /** j accepted log calls from the initial state, with nobody reading. */
  predicate Filled(cfg: Config, s: State, j: nat)
    requires Shaped(cfg, s)
  {
    && s.call.Out? && s.next == Slot(j, cfg.slabs)
    && |s.q.log| == j && s.q.c.guards == []
    && s.q.c.writer == Q.Writer(j, Slot(j, cfg.Queue().Cap()), Q.Idle)
    && (forall b | j <= b < cfg.Queue().Cap() :: s.q.c.ring.seqn[b] == Dummy(cfg.w))
    && (forall i | 0 <= i < j && i < cfg.slabs :: s.pool[i].Some?)
  }

  lemma LogNext(cfg: Config, s: State, j: nat)
    requires cfg.Shape() && Shaped(cfg, s) && j < cfg.slabs && j < cfg.Queue().Cap() && Filled(cfg, s, j)
    requires Shaped(cfg, Logged(cfg, s, 0))
    ensures Filled(cfg, Logged(cfg, s, 0), j + 1)
  {
    SmallNumber(cfg.w, cfg.bits, j);
  }

  lemma FilledHasRoom(cfg: Config, s: State, j: nat)
    requires Shaped(cfg, s) && Filled(cfg, s, j) && j < cfg.Queue().Cap()
    ensures HasRoom(cfg, s)
  {
  }

  lemma NothingFilled(cfg: Config) returns (actions: seq<Action>)
    requires cfg.Shape()
    ensures Filled(cfg, Run(cfg, actions), 0)
  {
    actions := [];
  }

  lemma {:induction false} OneMoreLog(cfg: Config, before: seq<Action>, j: nat) returns (actions: seq<Action>)
    requires cfg.Shape() && j < cfg.slabs && j < cfg.Queue().Cap() && Filled(cfg, Run(cfg, before), j)
    ensures Filled(cfg, Run(cfg, actions), j + 1)
  {
    FilledHasRoom(cfg, Run(cfg, before), j);
    LogRuns(cfg, before, 0);
    LogNext(cfg, Run(cfg, before), j);
    actions := before + LogCall(0);
  }

  lemma {:induction false} FillPool(cfg: Config, j: nat) returns (actions: seq<Action>)
    requires cfg.Shape() && j <= cfg.slabs && j <= cfg.Queue().Cap()
    ensures Filled(cfg, Run(cfg, actions), j)
  {
    if j == 0 {
      actions := NothingFilled(cfg);
    } else {
      var before := FillPool(cfg, j - 1);
      actions := OneMoreLog(cfg, before, j - 1);
    }
  }

  /** Placing an event never lands on a live one iff the pool is larger than the queue. */
  lemma PoolBoundIsExact(cfg: Config)
    requires cfg.Shape()
    ensures (forall actions: seq<Action> ::
               Run(cfg, actions).call.Out? ==> Run(cfg, actions).pool[Run(cfg, actions).next] == None)
            <==> cfg.slabs > cfg.Queue().Cap()
  {
    if cfg.slabs > cfg.Queue().Cap() {
      forall actions: seq<Action> | Run(cfg, actions).call.Out?
        ensures Run(cfg, actions).pool[Run(cfg, actions).next] == None
      {
        RunInv(cfg, actions);
        ActiveSlabIsFree(cfg, Run(cfg, actions));
      }
    } else {
      var actions := FillPool(cfg, cfg.slabs);
      assert Run(cfg, actions).next == 0;
      assert Run(cfg, actions).pool[0].Some?;
      assert Run(cfg, actions).call.Out? && Run(cfg, actions).pool[Run(cfg, actions).next].Some?;
    }
  }

  /**
   The pool as the library sizes it, n + 1 slabs for a queue asked for n events, is safe
   exactly when rounding to a power of two leaves n alone or clamps it.
   */
  lemma RequestedPoolIsSafe(w: nat, n: nat)
    requires w >= 4
    ensures var cfg := Config(w, CapacityBits(w, n), n + 1);
            && cfg.Shape()
            && (cfg.Sound() <==> (n >= Pow2(w - 2) || exists k :: 2 <= k <= w - 2 && n == Pow2(k)))
  {
    CapacityIsLeast(w, n, 2);
    PoolExceedsQueue(w, n);
  }

  /** The logger's own parameters: 64-bit counters and 4096 events. */
  lemma LoggerPoolIsSafe()
    ensures Config(64, CapacityBits(64, 4096), 4096 + 1).Sound()
  {
    LoggerPool();
    RequestedPoolIsSafe(64, 4096);
    assert 4096 == Pow2(12);
  }
}
