/** What holds over every run of the one-to-one protocol. */
module One2OneTheorems {
  import opened Word
  import opened Common
  import opened One2One
  import opened One2OneSafety
  import B = Broadcast

  // ---------------------------------------------------------------- refinement

  /** Which of the events it took the reader has given back. */
  function Returned(gs: seq<Guard>): seq<bool> {
    seq(|gs|, k requires 0 <= k < |gs| => gs[k].phase.Released?)
  }

  function Abs(s: State): B.Spec {
    B.Spec(s.log, [Returned(s.c.guards)])
  }

  /** The abstract operation an atomic step amounts to, if any. */
  function OpOf(cfg: Config, s: State, a: Action): (ops: seq<B.Op>)
    requires cfg.Shape() && Shaped(cfg, s.c)
    ensures |ops| <= 1
  {
    match a
    case Publish => if s.c.writer.pc.Built? then [B.Write(s.c.writer.pc.e)] else []
    case Load => if Step(cfg, s.c, a) != s.c then [B.Take(0)] else []
    case Free(k) => if Step(cfg, s.c, a) != s.c then [B.Give(0, k)] else []
    case _ => []
  }

  function Ops(cfg: Config, actions: seq<Action>): seq<B.Op>
    requires cfg.Shape()
  {
    if actions == [] then []
    else Ops(cfg, actions[..|actions| - 1])
         + OpOf(cfg, Run(cfg, actions[..|actions| - 1]), actions[|actions| - 1])
  }

  predicate Simulates(cfg: Config, s: State, t: State, ops: seq<B.Op>) {
    if ops == [] then Abs(t) == Abs(s)
    else B.Allowed(cfg.Cap(), Abs(s), ops[0]) && Abs(t) == B.Apply(Abs(s), ops[0])
  }

  lemma GuardRefines(cfg: Config, s: State, a: Action, k: nat)
    requires cfg.Sound() && Inv(cfg, s) && (a == Spend(k) || a == Free(k))
    ensures Simulates(cfg, s, Next(cfg, s, a), OpOf(cfg, s, a))
  {
    var t := Next(cfg, s, a);
    if t.c != s.c {
      if a.Free? {
        assert Returned(t.c.guards) == Returned(s.c.guards)[k := true];
      } else {
        assert Returned(t.c.guards) == Returned(s.c.guards);
      }
    }
  }

  lemma StepRefines(cfg: Config, s: State, a: Action)
    requires cfg.Sound() && Inv(cfg, s)
    ensures Simulates(cfg, s, Next(cfg, s, a), OpOf(cfg, s, a))
  {
    match a
    case Publish =>
      if s.c.writer.pc.Built? && |s.log| >= cfg.Cap() {
        assert EventOk(cfg, s, |s.log| - cfg.Cap());
      }
    case Load =>
      if Step(cfg, s.c, a) != s.c {
        LoadMatches(cfg, s);
        assert Returned(Next(cfg, s, a).c.guards) == Returned(s.c.guards) + [false];
      }
    case Spend(k) => GuardRefines(cfg, s, a, k);
    case Free(k) => GuardRefines(cfg, s, a, k);
    case _ =>
  }

  /** Every run of the wrapping, ring-based protocol is a legal history of the unbounded log. */
  lemma {:induction false} RunRefines(cfg: Config, actions: seq<Action>)
    requires cfg.Sound()
    ensures B.Legal(cfg.Cap(), 1, Ops(cfg, actions))
    ensures B.Replay(1, Ops(cfg, actions)) == Abs(Run(cfg, actions))
  {
    if actions == [] {
      assert Abs(Init(cfg)).returned == B.Start(1).returned;
    } else {
      var before, a := actions[..|actions| - 1], actions[|actions| - 1];
      RunRefines(cfg, before);
      RunInv(cfg, before);
      StepRefines(cfg, Run(cfg, before), a);
      B.Extend(cfg.Cap(), 1, Ops(cfg, before), OpOf(cfg, Run(cfg, before), a));
    }
  }

  // ---------------------------------------------------------------- delivery

  /** What one step hands to the reader: the event its new guard refers to, or the pod copy. */
  function Yield(cfg: Config, c: Conc, a: Action): seq<Event>
    requires cfg.Shape() && Shaped(cfg, c)
  {
    if a.Load? && cfg.kind.Object? && Step(cfg, c, a) != c && c.ring.store[c.reader.bucket].Some?
    then [c.ring.store[c.reader.bucket].value]
    else if a.Spend? && cfg.kind.Pod? && Step(cfg, c, a) != c && c.ring.store[c.guards[a.k].bucket].Some?
    then [c.ring.store[c.guards[a.k].bucket].value]
    else []
  }

  function Received(cfg: Config, actions: seq<Action>): seq<Event>
    requires cfg.Shape()
  {
    if actions == [] then []
    else Received(cfg, actions[..|actions| - 1])
         + Yield(cfg, Run(cfg, actions[..|actions| - 1]).c, actions[|actions| - 1])
  }

  /** How many events the reader has: a pod reader's last one may not be copied yet. */
  function HandedOver(cfg: Config, gs: seq<Guard>): nat {
    if cfg.kind.Pod? && gs != [] && gs[|gs| - 1].phase.Held? then |gs| - 1 else |gs|
  }

  lemma LoadYields(cfg: Config, s: State)
    requires cfg.Sound() && Inv(cfg, s) && Step(cfg, s.c, Load) != s.c
    ensures var k, t := |s.c.guards|, Next(cfg, s, Load);
            && k < |s.log| && HandedOver(cfg, s.c.guards) == k
            && HandedOver(cfg, t.c.guards) == (if cfg.kind.Object? then k + 1 else k)
            && Yield(cfg, s.c, Load) == if cfg.kind.Object? then [s.log[k]] else []
  {
    LoadMatches(cfg, s);
    assert EventOk(cfg, s, |s.c.guards|) && Intact(s.c.guards, |s.c.guards|);
  }

  lemma CopyYields(cfg: Config, s: State, k: nat)
    requires cfg.Sound() && Inv(cfg, s) && cfg.kind.Pod? && Step(cfg, s.c, Spend(k)) != s.c
    ensures k == |s.c.guards| - 1 < |s.log| && HandedOver(cfg, s.c.guards) == k
    ensures HandedOver(cfg, Next(cfg, s, Spend(k)).c.guards) == k + 1
    ensures Yield(cfg, s.c, Spend(k)) == [s.log[k]]
  {
    GuardInWindow(cfg, s, k);
    assert k < |s.c.guards| - 1 ==> Done(s.c.guards, k);
  }

  /** A step that is neither a load nor a copy hands the reader nothing. */
  lemma OthersYieldNothing(cfg: Config, s: State, a: Action)
    requires cfg.Shape() && Shaped(cfg, s.c)
    requires Step(cfg, s.c, a) == s.c || (!a.Load? && !(a.Spend? && cfg.kind.Pod?))
    ensures Yield(cfg, s.c, a) == []
    ensures HandedOver(cfg, Next(cfg, s, a).c.guards) == HandedOver(cfg, s.c.guards)
  {
  }

  lemma YieldNext(cfg: Config, s: State, a: Action)
    requires cfg.Sound() && Inv(cfg, s)
    ensures var n, m := HandedOver(cfg, s.c.guards), HandedOver(cfg, Next(cfg, s, a).c.guards);
            n <= m <= |s.log| && Yield(cfg, s.c, a) == s.log[n..m]
  {
    if a.Load? && Step(cfg, s.c, a) != s.c {
      LoadYields(cfg, s);
    } else if a.Spend? && cfg.kind.Pod? && Step(cfg, s.c, a) != s.c {
      CopyYields(cfg, s, a.k);
    } else {
      OthersYieldNothing(cfg, s, a);
    }
  }

  /** No loss, duplicate, reordering or foreign value: the reader receives a prefix of the log. */
  lemma {:induction false} ReceivedIsPrefix(cfg: Config, actions: seq<Action>)
    requires cfg.Sound()
    ensures var s := Run(cfg, actions);
            && HandedOver(cfg, s.c.guards) <= |s.log|
            && Received(cfg, actions) == s.log[..HandedOver(cfg, s.c.guards)]
  {
    if actions != [] {
      var before, a := actions[..|actions| - 1], actions[|actions| - 1];
      ReceivedIsPrefix(cfg, before);
      RunInv(cfg, before);
      var s, t := Run(cfg, before), Run(cfg, actions);
      YieldNext(cfg, s, a);
      var n, m := HandedOver(cfg, s.c.guards), HandedOver(cfg, t.c.guards);
      PrefixGrows(s.log, t.log, n, m);
    }
  }

  // ---------------------------------------------------------------- no torn access

  /** The bucket of guard k holds log[k] under its own number and is closed to the writer. */
  predicate LiveCell(cfg: Config, s: State, k: nat)
    requires cfg.Shape() && Shaped(cfg, s.c) && k < |s.c.guards|
  {
    var b := s.c.guards[k].bucket;
    && k < |s.log|
    && s.c.ring.store[b] == Some(s.log[k])
    && s.c.ring.seqn[b] == k % Pow2(cfg.w - 1) != Dummy(cfg.w)
    && (s.c.writer.pc.Idle? || s.c.writer.bucket != b)
  }

  lemma LiveCellHolds(cfg: Config, s: State, k: nat)
    requires cfg.Sound() && Inv(cfg, s) && IsHeld(s.c.guards, k)
    ensures LiveCell(cfg, s, k)
  {
    GuardInWindow(cfg, s, k);
    PublishedOf(cfg.w, k);
    if !s.c.writer.pc.Idle? { Apart(cfg, k, |s.log|); }
  }

  /** A live guard stays live, on the same bucket, under every step but its own release. */
  lemma GuardPersists(cfg: Config, s: State, a: Action, k: nat)
    requires cfg.Shape() && Shaped(cfg, s.c) && IsHeld(s.c.guards, k) && a != Spend(k)
    ensures var t := Next(cfg, s, a);
            IsHeld(t.c.guards, k) && t.c.guards[k].bucket == s.c.guards[k].bucket && s.log <= t.log
  {
  }

  /** From the load that matched until its own release, a guard reads the event published under its number. */
  lemma {:induction false} NoTornAccess(cfg: Config, before: seq<Action>, during: seq<Action>, k: nat)
    requires cfg.Sound() && IsHeld(Run(cfg, before).c.guards, k)
    requires Spend(k) !in during
    ensures var s, t := Run(cfg, before), Run(cfg, before + during);
            && IsHeld(t.c.guards, k)
            && t.c.guards[k].bucket == s.c.guards[k].bucket
            && s.log <= t.log
            && LiveCell(cfg, t, k)
  {
    var t := Run(cfg, before + during);
    if during == [] {
      assert before + during == before;
    } else {
      var last := |during| - 1;
      var middle := before + during[..last];
      NoTornAccess(cfg, before, during[..last], k);
      assert before + during == middle + [during[last]];
      assert (middle + [during[last]])[..|middle|] == middle;
      GuardPersists(cfg, Run(cfg, middle), during[last], k);
    }
    RunInv(cfg, before + during);
    LiveCellHolds(cfg, t, k);
  }

  // ---------------------------------------------------------------- fullness, emptiness, progress

  /** try_write is refused exactly when the event a lap ago exists and is not yet released. */
  lemma FullIffOldestOwed(cfg: Config, s: State, e: Event)
    requires cfg.Sound() && Inv(cfg, s) && s.c.writer.pc.Idle?
    ensures Next(cfg, s, Check(e)) == s <==> (|s.log| >= cfg.Cap() && !Done(s.c.guards, |s.log| - cfg.Cap()))
  {
    SeesEmpty(cfg, s);
  }

  /** try_read fails exactly when the reader has taken everything written. */
  lemma EmptyIffAllTaken(cfg: Config, s: State)
    requires cfg.Sound() && Inv(cfg, s) && MayLoad(cfg, s.c)
    ensures Next(cfg, s, Load) == s <==> |s.c.guards| == |s.log|
  {
    LoadMatches(cfg, s);
  }

  /**
   A blocked writer waits on the event a lap ago: the reader has not taken it, and can load now or
   is inside a pod read; or the guard on exactly this event is not released.
   */
  lemma BlockedWriterHasCause(cfg: Config, s: State, e: Event)
    requires cfg.Sound() && Inv(cfg, s) && s.c.writer.pc.Idle? && Next(cfg, s, Check(e)) == s
    ensures |s.log| >= cfg.Cap()
    ensures var n := |s.log| - cfg.Cap();
            if |s.c.guards| <= n then Next(cfg, s, Load) != s || !MayLoad(cfg, s.c)
            else !s.c.guards[n].phase.Released?
  {
    FullIffOldestOwed(cfg, s, e);
    if MayLoad(cfg, s.c) { EmptyIffAllTaken(cfg, s); }
  }

  // ---------------------------------------------------------------- exactly-once destruction

  function Builds(cfg: Config, c: Conc, a: Action, e: Event): nat {
    if a.Build? && c.writer.pc == Checked(e) then 1 else 0
  }

  function Destroys(cfg: Config, c: Conc, a: Action, e: Event): nat
    requires cfg.Shape() && Shaped(cfg, c)
  {
    if a.Spend? && IsHeld(c.guards, a.k) && c.ring.store[c.guards[a.k].bucket] == Some(e) then 1 else 0
  }

  /** How often e was constructed in a bucket, and destroyed there by a guard, over a run. */
  function Built(cfg: Config, actions: seq<Action>, e: Event): nat
    requires cfg.Shape()
  {
    if actions == [] then 0
    else Built(cfg, actions[..|actions| - 1], e)
         + Builds(cfg, Run(cfg, actions[..|actions| - 1]).c, actions[|actions| - 1], e)
  }

  function Destroyed(cfg: Config, actions: seq<Action>, e: Event): nat
    requires cfg.Shape()
  {
    if actions == [] then 0
    else Destroyed(cfg, actions[..|actions| - 1], e)
         + Destroys(cfg, Run(cfg, actions[..|actions| - 1]).c, actions[|actions| - 1], e)
  }

  /** Construction never lands on a live object, and a guard always finds one to destroy. */
  lemma NeverOverLive(cfg: Config, s: State)
    requires cfg.Sound() && Inv(cfg, s) && cfg.kind.Object?
    ensures s.c.writer.pc.Checked? ==> s.c.ring.store[s.c.writer.bucket] == None
    ensures forall k: nat | IsHeld(s.c.guards, k) ::
              k < |s.log| && s.c.ring.store[s.c.guards[k].bucket] == Some(s.log[k])
  {
    forall k: nat | IsHeld(s.c.guards, k)
      ensures k < |s.log| && s.c.ring.store[s.c.guards[k].bucket] == Some(s.log[k])
    {
      GuardInWindow(cfg, s, k);
    }
  }

  lemma BalanceStep(cfg: Config, s: State, a: Action, e: Event)
    requires cfg.Sound() && Inv(cfg, s) && cfg.kind.Object?
    ensures Alive(Step(cfg, s.c, a).ring.store, e) + Destroys(cfg, s.c, a, e)
         == Alive(s.c.ring.store, e) + Builds(cfg, s.c, a, e)
  {
    NeverOverLive(cfg, s);
    if a.Build? && s.c.writer.pc.Checked? {
      AliveUpdate(s.c.ring.store, s.c.writer.bucket, Some(s.c.writer.pc.e), e);
    } else if a.Spend? && IsHeld(s.c.guards, a.k) {
      AliveUpdate(s.c.ring.store, s.c.guards[a.k].bucket, None, e);
    }
  }

  /** Every constructed event is alive in one cell or was destroyed once. */
  lemma {:induction false} DestructionBalance(cfg: Config, actions: seq<Action>, e: Event)
    requires cfg.Sound() && cfg.kind.Object?
    ensures Built(cfg, actions, e) == Destroyed(cfg, actions, e) + Alive(Run(cfg, actions).c.ring.store, e)
  {
    if actions == [] {
      NoneAlive(Init(cfg).c.ring.store, e);
    } else {
      var before, a := actions[..|actions| - 1], actions[|actions| - 1];
      DestructionBalance(cfg, before, e);
      RunInv(cfg, before);
      BalanceStep(cfg, Run(cfg, before), a, e);
    }
  }

  predicate Quiet(s: State) {
    s.c.writer.pc.Idle? && forall k | 0 <= k < |s.c.guards| :: Done(s.c.guards, k)
  }

  /** With no call in progress and every guard dropped, a bucket is marked occupied iff it holds an object. */
  lemma QuietMarks(cfg: Config, s: State, b: nat)
    requires cfg.Sound() && Inv(cfg, s) && cfg.kind.Object? && Quiet(s) && b < cfg.Cap()
    ensures s.c.ring.seqn[b] != Dummy(cfg.w) <==> s.c.ring.store[b].Some?
  {
    if b >= |s.log| {
      assert FreshOk(cfg, s, b);
    } else {
      var n := LatestIn(b, |s.log|, cfg.Cap());
      assert EventOk(cfg, s, n);
      PublishedOf(cfg.w, n);
    }
  }

  /** The bucket destructors: an occupied bucket destroys its event and takes the dummy number again. */
  function TornDown(cfg: Config, ring: Ring): Ring
    requires RingShape(cfg, ring)
  {
    Ring(seq(cfg.Cap(), _ => Dummy(cfg.w)),
         seq(cfg.Cap(), b requires 0 <= b < cfg.Cap() => if ring.seqn[b] != Dummy(cfg.w) then None else ring.store[b]))
  }

  /** The occupied ones of the first n buckets, in order. */
  function OccupiedUpTo(cfg: Config, seqn: seq<nat>, n: nat): seq<nat>
    requires n <= |seqn|
  {
    if n == 0 then []
    else OccupiedUpTo(cfg, seqn, n - 1) + (if seqn[n - 1] != Dummy(cfg.w) then [n - 1] else [])
  }

  /** The list names the occupied buckets and no others, each once, for it is rising. */
  lemma {:induction false} OccupiedOnce(cfg: Config, seqn: seq<nat>, n: nat)
    requires n <= |seqn|
    ensures forall b :: b in OccupiedUpTo(cfg, seqn, n) <==> 0 <= b < n && seqn[b] != Dummy(cfg.w)
    ensures Rising(OccupiedUpTo(cfg, seqn, n))
  {
    if n > 0 {
      var prev := OccupiedUpTo(cfg, seqn, n - 1);
      OccupiedOnce(cfg, seqn, n - 1);
      forall i | 0 <= i < |prev| ensures prev[i] < n - 1 {
        assert prev[i] in prev;
      }
      assert seqn[n - 1] != Dummy(cfg.w) ==> OccupiedUpTo(cfg, seqn, n) == prev + [n - 1];
    }
  }

  /** Once every guard is dropped, teardown ends exactly the events no guard ended. */
  lemma {:induction false} TeardownCompletes(cfg: Config, actions: seq<Action>, e: Event)
    requires cfg.Sound() && cfg.kind.Object? && Quiet(Run(cfg, actions))
    ensures var ring := Run(cfg, actions).c.ring;
            && (forall b | 0 <= b < cfg.Cap() :: TornDown(cfg, ring).store[b] == None)
            && (forall b | 0 <= b < cfg.Cap() :: ring.seqn[b] != Dummy(cfg.w) <==> ring.store[b].Some?)
            && (forall b | 0 <= b < cfg.Cap() :: TornDown(cfg, ring).seqn[b] == Dummy(cfg.w))
            && Built(cfg, actions, e) == Destroyed(cfg, actions, e) + Alive(ring.store, e)
  {
    RunInv(cfg, actions);
    DestructionBalance(cfg, actions, e);
    forall b | 0 <= b < cfg.Cap()
      ensures Run(cfg, actions).c.ring.seqn[b] != Dummy(cfg.w) <==> Run(cfg, actions).c.ring.store[b].Some?
    {
      QuietMarks(cfg, Run(cfg, actions), b);
    }
  }
}
