/** What holds over every run of the one-to-each protocol. */
module One2EachTheorems {
  import opened Word
  import opened Common
  import opened One2Each
  import opened One2EachSafety
  import B = Broadcast

  // ---------------------------------------------------------------- refinement

  /** Which of the events it took the reader with these guards has given back. */
  function Returned(gs: seq<Guard>): seq<bool> {
    seq(|gs|, k requires 0 <= k < |gs| => !Waits(gs, k))
  }

  function Abs(s: State): B.Spec {
    B.Spec(s.log, seq(|s.c.guards|, r requires 0 <= r < |s.c.guards| => Returned(s.c.guards[r])))
  }

  /** The abstract operation an atomic step amounts to, if any. */
  function OpOf(cfg: Config, s: State, a: Action): (ops: seq<B.Op>)
    requires cfg.Shape() && Shaped(cfg, s.c)
    ensures |ops| <= 1
  {
    match a
    case Publish => if s.c.writer.pc.Counted? then [B.Write(s.c.writer.pc.e)] else []
    case Load(r) => if Step(cfg, s.c, a) != s.c then [B.Take(r)] else []
    case Release(r, k) => if Step(cfg, s.c, a) != s.c then [B.Give(r, k)] else []
    case _ => []
  }

  function Ops(cfg: Config, actions: seq<Action>): seq<B.Op>
    requires cfg.Shape()
  {
    if actions == [] then []
    else Ops(cfg, actions[..|actions| - 1])
         + OpOf(cfg, Run(cfg, actions[..|actions| - 1]), actions[|actions| - 1])
  }

  predicate Simulates(cfg: Config, s: State, t: State, ops: seq<B.Op>) {
    if ops == [] then Abs(t) == Abs(s)
    else B.Allowed(cfg.Cap(), Abs(s), ops[0]) && Abs(t) == B.Apply(Abs(s), ops[0])
  }

  lemma AbsUpdate(s: State, t: State, r: nat)
    requires r < |s.c.guards| == |t.c.guards| && t.log == s.log && t.c.guards == s.c.guards[r := t.c.guards[r]]
    ensures Abs(t) == Abs(s).(returned := Abs(s).returned[r := Returned(t.c.guards[r])])
  {
  }

  lemma PublishRefines(cfg: Config, s: State)
    requires cfg.Sound() && Inv(cfg, s) && s.c.writer.pc.Counted?
    ensures Simulates(cfg, s, Next(cfg, s, Publish), [B.Write(s.c.writer.pc.e)])
  {
    if |s.log| >= cfg.Cap() {
      var n := |s.log| - cfg.Cap();
      assert EventOk(cfg, s, n) && AllDone(s.c.guards, n);
      forall r | 0 <= r < |s.c.guards| ensures n < |s.c.guards[r]| && !Waits(s.c.guards[r], n) {
        assert Done(s.c.guards[r], n);
      }
    }
  }

  lemma LoadRefines(cfg: Config, s: State, r: nat)
    requires cfg.Sound() && Inv(cfg, s) && Step(cfg, s.c, Load(r)) != s.c
    ensures Simulates(cfg, s, Next(cfg, s, Load(r)), [B.Take(r)])
  {
    var t := Next(cfg, s, Load(r));
    LoadMatches(cfg, s, r);
    AbsUpdate(s, t, r);
    assert Returned(t.c.guards[r]) == Returned(s.c.guards[r]) + [false];
  }

  lemma GuardRefines(cfg: Config, s: State, a: Action, r: nat, k: nat)
    requires cfg.Sound() && Inv(cfg, s)
    requires a in {Copy(r, k), Release(r, k), Destroy(r, k), Clear(r, k)}
    ensures Simulates(cfg, s, Next(cfg, s, a), OpOf(cfg, s, a))
  {
    var t := Next(cfg, s, a);
    if t.c != s.c {
      AbsUpdate(s, t, r);
      if a.Release? {
        assert Returned(t.c.guards[r]) == Returned(s.c.guards[r])[k := true];
      } else {
        assert Returned(t.c.guards[r]) == Returned(s.c.guards[r]);
        assert Abs(t).returned == Abs(s).returned;
      }
    }
  }

  lemma StepRefines(cfg: Config, s: State, a: Action)
    requires cfg.Sound() && Inv(cfg, s)
    ensures Simulates(cfg, s, Next(cfg, s, a), OpOf(cfg, s, a))
  {
    match a
    case Publish => if s.c.writer.pc.Counted? { PublishRefines(cfg, s); }
    case Load(r) => if Step(cfg, s.c, a) != s.c { LoadRefines(cfg, s, r); }
    case Copy(r, k) => GuardRefines(cfg, s, a, r, k);
    case Release(r, k) => GuardRefines(cfg, s, a, r, k);
    case Destroy(r, k) => GuardRefines(cfg, s, a, r, k);
    case Clear(r, k) => GuardRefines(cfg, s, a, r, k);
    case _ =>
  }

  /** Every run of the wrapping, ring-based protocol is a legal history of the unbounded log. */
  lemma {:induction false} RunRefines(cfg: Config, actions: seq<Action>)
    requires cfg.Sound()
    ensures B.Legal(cfg.Cap(), cfg.readers, Ops(cfg, actions))
    ensures B.Replay(cfg.readers, Ops(cfg, actions)) == Abs(Run(cfg, actions))
  {
    if actions == [] {
      assert Abs(Init(cfg)).returned == B.Start(cfg.readers).returned;
    } else {
      var before, a := actions[..|actions| - 1], actions[|actions| - 1];
      var s := Run(cfg, before);
      RunRefines(cfg, before);
      RunInv(cfg, before);
      StepRefines(cfg, s, a);
      MoreRefines(cfg, s, Run(cfg, actions), Ops(cfg, before), OpOf(cfg, s, a));
    }
  }

  /** A history of s, extended by what the next step amounts to, is a history of the next state. */
  lemma {:induction false} MoreRefines(cfg: Config, s: State, t: State, ops: seq<B.Op>, more: seq<B.Op>)
    requires B.Legal(cfg.Cap(), cfg.readers, ops) && B.Replay(cfg.readers, ops) == Abs(s)
    requires |more| <= 1 && Simulates(cfg, s, t, more)
    ensures B.Legal(cfg.Cap(), cfg.readers, ops + more) && B.Replay(cfg.readers, ops + more) == Abs(t)
  {
    B.Extend(cfg.Cap(), cfg.readers, ops, more);
  }

  // ---------------------------------------------------------------- delivery

  /** What one step hands to reader r: the event its new guard refers to, or the pod copy. */
  function Yield(cfg: Config, c: Conc, a: Action, r: nat): seq<Event>
    requires cfg.Shape() && Shaped(cfg, c)
  {
    if a == Load(r) && cfg.kind.Object? && Step(cfg, c, a) != c && c.ring.store[c.readers[r].bucket].Some?
    then [c.ring.store[c.readers[r].bucket].value]
    else if a.Copy? && a.r == r && Step(cfg, c, a) != c && c.ring.store[c.guards[r][a.k].bucket].Some?
    then [c.ring.store[c.guards[r][a.k].bucket].value]
    else []
  }

  function Received(cfg: Config, actions: seq<Action>, r: nat): seq<Event>
    requires cfg.Shape()
  {
    if actions == [] then []
    else Received(cfg, actions[..|actions| - 1], r)
         + Yield(cfg, Run(cfg, actions[..|actions| - 1]).c, actions[|actions| - 1], r)
  }

  /** How many events reader r has in hand or behind it: a pod reader's last one may not be copied yet. */
  function HandedOver(cfg: Config, gs: seq<Guard>): nat {
    if cfg.kind.Pod? && gs != [] && gs[|gs| - 1].phase.Held? then |gs| - 1 else |gs|
  }

  /** The next event of a reader that is behind waits in the reader's bucket. */
  lemma UntakenIsStored(cfg: Config, s: State, r: nat)
    requires cfg.Sound() && Inv(cfg, s) && r < cfg.readers && |s.c.guards[r]| < |s.log|
    ensures s.c.ring.store[s.c.readers[r].bucket] == Some(s.log[|s.c.guards[r]|])
  {
    var n := |s.c.guards[r]|;
    assert ReaderOk(cfg, s, r) && EventOk(cfg, s, n);
    WaitingBounds(s.c.guards, n);
    assert Waits(s.c.guards[r], n);
    assert n < Low(cfg, s) ==> Done(s.c.guards[r], n);
  }

  lemma LoadYields(cfg: Config, s: State, r: nat)
    requires cfg.Sound() && Inv(cfg, s) && r < cfg.readers && Step(cfg, s.c, Load(r)) != s.c
    ensures var k, t := |s.c.guards[r]|, Next(cfg, s, Load(r));
            && k < |s.log| && t.c.guards[r] == s.c.guards[r] + [Guard(s.c.readers[r].bucket, Held)]
            && HandedOver(cfg, s.c.guards[r]) == k
            && HandedOver(cfg, t.c.guards[r]) == (if cfg.kind.Object? then k + 1 else k)
            && Yield(cfg, s.c, Load(r), r) == if cfg.kind.Object? then [s.log[k]] else []
  {
    LoadMatches(cfg, s, r);
    UntakenIsStored(cfg, s, r);
  }

  lemma CopyYields(cfg: Config, s: State, r: nat, k: nat)
    requires cfg.Sound() && Inv(cfg, s) && Step(cfg, s.c, Copy(r, k)) != s.c
    ensures k == |s.c.guards[r]| - 1 < |s.log| && cfg.kind.Pod? && s.c.guards[r][k].phase.Held?
    ensures HandedOver(cfg, s.c.guards[r]) == k
    ensures HandedOver(cfg, Next(cfg, s, Copy(r, k)).c.guards[r]) == k + 1
    ensures Yield(cfg, s.c, Copy(r, k), r) == [s.log[k]]
  {
    HolderCounts(cfg, s, r, k);
    GuardInWindow(cfg, s, r, k);
    assert ReaderOk(cfg, s, r);
    assert k < |s.c.guards[r]| - 1 ==> Done(s.c.guards[r], k);
  }

  /** A step that is neither a load nor a copy of reader r hands it nothing. */
  lemma OthersYieldNothing(cfg: Config, s: State, a: Action, r: nat)
    requires cfg.Shape() && Shaped(cfg, s.c) && r < cfg.readers
    requires Step(cfg, s.c, a) == s.c || (a != Load(r) && !(a.Copy? && a.r == r))
    ensures Yield(cfg, s.c, a, r) == []
    ensures HandedOver(cfg, Next(cfg, s, a).c.guards[r]) == HandedOver(cfg, s.c.guards[r])
  {
  }

  lemma YieldNext(cfg: Config, s: State, a: Action, r: nat)
    requires cfg.Sound() && Inv(cfg, s) && r < cfg.readers
    ensures var n, m := HandedOver(cfg, s.c.guards[r]), HandedOver(cfg, Next(cfg, s, a).c.guards[r]);
            n <= m <= |s.log| && Yield(cfg, s.c, a, r) == s.log[n..m]
  {
    assert ReaderOk(cfg, s, r);
    if a == Load(r) && Step(cfg, s.c, a) != s.c {
      LoadYields(cfg, s, r);
    } else if a.Copy? && a.r == r && Step(cfg, s.c, a) != s.c {
      CopyYields(cfg, s, r, a.k);
    } else {
      OthersYieldNothing(cfg, s, a, r);
    }
  }

  /** No loss, duplicate, reordering or foreign value: each reader receives a prefix of the log. */
  lemma {:induction false} ReceivedIsPrefix(cfg: Config, actions: seq<Action>, r: nat)
    requires cfg.Sound() && r < cfg.readers
    ensures var s := Run(cfg, actions);
            && HandedOver(cfg, s.c.guards[r]) <= |s.log|
            && Received(cfg, actions, r) == s.log[..HandedOver(cfg, s.c.guards[r])]
  {
    if actions != [] {
      var before, a := actions[..|actions| - 1], actions[|actions| - 1];
      ReceivedIsPrefix(cfg, before, r);
      RunInv(cfg, before);
      YieldNext(cfg, Run(cfg, before), a, r);
      var s, t := Run(cfg, before), Run(cfg, actions);
      var n, m := HandedOver(cfg, s.c.guards[r]), HandedOver(cfg, t.c.guards[r]);
      PrefixGrows(s.log, t.log, n, m);
    }
  }

  // ---------------------------------------------------------------- no torn access

  /** A live guard stays live, on the same bucket, under every step but its own release. */
  lemma GuardPersists(cfg: Config, c: Conc, a: Action, r: nat, k: nat)
    requires cfg.Shape() && Shaped(cfg, c) && Names(c, r, k) && Waits(c.guards[r], k) && a != Release(r, k)
    ensures var d := Step(cfg, c, a);
            Names(d, r, k) && Waits(d.guards[r], k) && d.guards[r][k].bucket == c.guards[r][k].bucket
  {
  }

  /**
   From the load that matched until its own release, whatever else happens in between,
   a guard reads the event published under its number.
   */
  lemma {:induction false} NoTornAccess(cfg: Config, before: seq<Action>, during: seq<Action>, r: nat, k: nat)
    requires cfg.Sound() && Names(Run(cfg, before).c, r, k) && Waits(Run(cfg, before).c.guards[r], k)
    requires Release(r, k) !in during
    ensures var s, t := Run(cfg, before), Run(cfg, before + during);
            && Names(t.c, r, k) && Waits(t.c.guards[r], k)
            && t.c.guards[r][k].bucket == s.c.guards[r][k].bucket
            && s.log <= t.log
            && LiveCell(cfg, t, r, k)
  {
    if during == [] {
      assert before + during == before;
    } else {
      var last := |during| - 1;
      NoTornAccess(cfg, before, during[..last], r, k);
      assert (before + during)[..|before + during| - 1] == before + during[..last];
      GuardPersists(cfg, Run(cfg, before + during[..last]).c, during[last], r, k);
    }
    RunInv(cfg, before + during);
    LiveCellHolds(cfg, Run(cfg, before + during), r, k);
  }

  /** The bucket of guard (r, k) holds log[k] under its own number and is closed to the writer. */
  predicate LiveCell(cfg: Config, s: State, r: nat, k: nat)
    requires cfg.Shape() && Shaped(cfg, s.c) && Names(s.c, r, k)
  {
    var b := s.c.guards[r][k].bucket;
    && k < |s.log|
    && s.c.ring.store[b] == Some(s.log[k])
    && s.c.ring.seqn[b] == k % Pow2(cfg.w - 1)
    && s.c.ring.counter[b] != 0
    && (s.c.writer.pc.Idle? || s.c.writer.bucket != b)
  }

  lemma LiveCellHolds(cfg: Config, s: State, r: nat, k: nat)
    requires cfg.Sound() && Inv(cfg, s) && Names(s.c, r, k) && Waits(s.c.guards[r], k)
    ensures LiveCell(cfg, s, r, k)
  {
    HolderCounts(cfg, s, r, k);
    GuardInWindow(cfg, s, r, k);
    assert EventOk(cfg, s, k) && ReaderOk(cfg, s, r);
    if !s.c.writer.pc.Idle? { Apart(cfg, k, |s.log|); }
  }

  /** The last release: only the guard whose fetch_sub finds every other reader done ends the event. */
  lemma LastReleaseIsUnique(cfg: Config, s: State, r: nat, k: nat)
    requires cfg.Sound() && Inv(cfg, s) && cfg.kind.Object? && Names(s.c, r, k) && s.c.guards[r][k].phase.Held?
    ensures var t := Next(cfg, s, Release(r, k));
            && (t.c.guards[r][k].phase.Last? <==> forall q | 0 <= q < cfg.readers && q != r :: !Waits(s.c.guards[q], k))
            && (t.c.guards[r][k].phase.Last? ==>
                  forall q | 0 <= q < cfg.readers && q != r :: Done(s.c.guards[q], k))
  {
    var t := Next(cfg, s, Release(r, k));
    HolderCounts(cfg, s, r, k);
    GuardInWindow(cfg, s, r, k);
    WaitingUpdate(s.c.guards, r, t.c.guards[r], k);
    WaitingBounds(t.c.guards, k);
    assert t.c.guards[r][k].phase.Last? <==> Waiting(t.c.guards, k) == 0;
    assert forall q | 0 <= q < cfg.readers && q != r :: t.c.guards[q] == s.c.guards[q];
    if t.c.guards[r][k].phase.Last? {
      forall q | 0 <= q < cfg.readers && q != r ensures Done(s.c.guards[q], k) {
        assert !Waits(t.c.guards[q], k) && !Ends(s.c.guards[q], k);
      }
    }
  }

  // ---------------------------------------------------------------- fullness, emptiness, progress

  /** No guard destructor is between its fetch_sub and its last store. */
  predicate NoEnding(s: State) {
    forall r, k | 0 <= r < |s.c.guards| && 0 <= k < |s.c.guards[r]| :: !Ends(s.c.guards[r], k)
  }

  /** try_write is refused exactly when the event a lap ago exists and some reader still owes its release. */
  lemma FullIffOldestOwed(cfg: Config, s: State, e: Event)
    requires cfg.Sound() && Inv(cfg, s) && s.c.writer.pc.Idle? && NoEnding(s)
    ensures Next(cfg, s, Check(e)) == s <==>
            (|s.log| >= cfg.Cap() && exists r: nat :: r < cfg.readers && Waits(s.c.guards[r], |s.log| - cfg.Cap()))
  {
    SeesEmpty(cfg, s);
    if |s.log| >= cfg.Cap() {
      var n := |s.log| - cfg.Cap();
      if !AllDone(s.c.guards, n) {
        var r :| 0 <= r < |s.c.guards| && !Done(s.c.guards[r], n);
        assert !Ends(s.c.guards[r], n);
        assert Waits(s.c.guards[r], n);
      }
    }
  }

  /** try_read fails exactly when the reader has taken everything written. */
  lemma EmptyIffAllTaken(cfg: Config, s: State, r: nat)
    requires cfg.Sound() && Inv(cfg, s) && r < cfg.readers && MayLoad(cfg, s.c, r)
    ensures Next(cfg, s, Load(r)) == s <==> |s.c.guards[r]| == |s.log|
  {
    LoadMatches(cfg, s, r);
    assert ReaderOk(cfg, s, r);
  }

  /** A blocked writer waits on a reader that has not finished the event a lap ago, and that reader can go on. */
  lemma BlockedWriterHasCause(cfg: Config, s: State, e: Event)
    requires cfg.Sound() && Inv(cfg, s) && s.c.writer.pc.Idle? && Next(cfg, s, Check(e)) == s
    ensures |s.log| >= cfg.Cap()
    ensures exists r: nat :: Blocks(cfg, s, r)
  {
    SeesEmpty(cfg, s);
    var n := |s.log| - cfg.Cap();
    var r :| 0 <= r < |s.c.guards| && !Done(s.c.guards[r], n);
    if MayLoad(cfg, s.c, r) { EmptyIffAllTaken(cfg, s, r); }
    assert Blocks(cfg, s, r);
  }

  /**
   Reader r has not finished the event a lap ago: it has not taken it, and can load now or is
   inside a pod read; or its guard on exactly this event is not released.
   */
  predicate Blocks(cfg: Config, s: State, r: nat)
    requires cfg.Shape() && Shaped(cfg, s.c) && |s.log| >= cfg.Cap()
  {
    var n := |s.log| - cfg.Cap();
    r < cfg.readers &&
    if |s.c.guards[r]| <= n then Next(cfg, s, Load(r)) != s || !MayLoad(cfg, s.c, r)
    else !s.c.guards[r][n].phase.Released?
  }

  // ---------------------------------------------------------------- exactly-once destruction

  /** Is this step a Build that constructs e, or a Destroy that ends e? */
  function Builds(cfg: Config, c: Conc, a: Action, e: Event): nat {
    if a.Build? && c.writer.pc == Checked(e) then 1 else 0
  }

  function Destroys(cfg: Config, c: Conc, a: Action, e: Event): nat
    requires cfg.Shape() && Shaped(cfg, c)
  {
    if a.Destroy? && Names(c, a.r, a.k) && c.guards[a.r][a.k].phase.Last?
       && c.ring.store[c.guards[a.r][a.k].bucket] == Some(e) then 1 else 0
  }

  function Built(cfg: Config, actions: seq<Action>, e: Event): nat
    requires cfg.Shape()
  {
    if actions == [] then 0
    else Built(cfg, actions[..|actions| - 1], e)
         + Builds(cfg, Run(cfg, actions[..|actions| - 1]).c, actions[|actions| - 1], e)
  }

  function Destroyed(cfg: Config, actions: seq<Action>, e: Event): nat
    requires cfg.Shape()
  {
    if actions == [] then 0
    else Destroyed(cfg, actions[..|actions| - 1], e)
         + Destroys(cfg, Run(cfg, actions[..|actions| - 1]).c, actions[|actions| - 1], e)
  }

  /** Construction never lands on a live object, and destruction always finds one. */
  lemma NeverOverLive(cfg: Config, s: State)
    requires cfg.Sound() && Inv(cfg, s) && cfg.kind.Object?
    ensures s.c.writer.pc.Checked? ==> s.c.ring.store[s.c.writer.bucket] == None
    ensures forall r: nat, k: nat | Names(s.c, r, k) && s.c.guards[r][k].phase.Last? ::
              k < |s.log| && s.c.ring.store[s.c.guards[r][k].bucket] == Some(s.log[k])
  {
    forall r: nat, k: nat | Names(s.c, r, k) && s.c.guards[r][k].phase.Last?
      ensures k < |s.log| && s.c.ring.store[s.c.guards[r][k].bucket] == Some(s.log[k])
    {
      GuardInWindow(cfg, s, r, k);
      assert Ends(s.c.guards[r], k);
      assert !NoneEnds(s.c.guards, k);
      assert EndsAlone(s.c.guards, r, k, s.c.ring.store[k % cfg.Cap()], s.log[k]);
    }
  }

  lemma BalanceStep(cfg: Config, s: State, a: Action, e: Event)
    requires cfg.Sound() && Inv(cfg, s) && cfg.kind.Object?
    ensures Alive(Step(cfg, s.c, a).ring.store, e) + Destroys(cfg, s.c, a, e)
         == Alive(s.c.ring.store, e) + Builds(cfg, s.c, a, e)
  {
    NeverOverLive(cfg, s);
    if a.Build? && s.c.writer.pc.Checked? {
      AliveUpdate(s.c.ring.store, s.c.writer.bucket, Some(s.c.writer.pc.e), e);
    } else if a.Destroy? && Names(s.c, a.r, a.k) && s.c.guards[a.r][a.k].phase.Last? {
      AliveUpdate(s.c.ring.store, s.c.guards[a.r][a.k].bucket, None, e);
    }
  }

  /** Every constructed event is alive in one cell or was destroyed once. */
  lemma {:induction false} DestructionBalance(cfg: Config, actions: seq<Action>, e: Event)
    requires cfg.Sound() && cfg.kind.Object?
    ensures Built(cfg, actions, e) == Destroyed(cfg, actions, e) + Alive(Run(cfg, actions).c.ring.store, e)
  {
    if actions == [] {
      NoneAlive(Init(cfg).c.ring.store, e);
    } else {
      var before, a := actions[..|actions| - 1], actions[|actions| - 1];
      DestructionBalance(cfg, before, e);
      RunInv(cfg, before);
      BalanceStep(cfg, Run(cfg, before), a, e);
    }
  }

  /** The bucket destructors: an occupied bucket destroys its event and goes back to its initial marks. */
  function TornDown(cfg: Config, ring: Ring): Ring
    requires RingShape(cfg, ring)
  {
    Ring(seq(cfg.Cap(), b requires 0 <= b < cfg.Cap() => if ring.counter[b] != 0 then Dummy(cfg.w) else ring.seqn[b]),
         seq(cfg.Cap(), b => 0),
         seq(cfg.Cap(), b requires 0 <= b < cfg.Cap() => if ring.counter[b] != 0 then None else ring.store[b]))
  }

  /** The occupied ones of the first n buckets, in order. */
  function OccupiedUpTo(counter: seq<nat>, n: nat): seq<nat>
    requires n <= |counter|
  {
    if n == 0 then []
    else OccupiedUpTo(counter, n - 1) + (if counter[n - 1] != 0 then [n - 1] else [])
  }

  /** The list names the occupied buckets and no others, each once, for it is rising. */
  lemma {:induction false} OccupiedOnce(counter: seq<nat>, n: nat)
    requires n <= |counter|
    ensures forall b :: b in OccupiedUpTo(counter, n) <==> 0 <= b < n && counter[b] != 0
    ensures Rising(OccupiedUpTo(counter, n))
  {
    if n > 0 {
      var prev := OccupiedUpTo(counter, n - 1);
      OccupiedOnce(counter, n - 1);
      forall i | 0 <= i < |prev| ensures prev[i] < n - 1 {
        assert prev[i] in prev;
      }
      assert counter[n - 1] != 0 ==> OccupiedUpTo(counter, n) == prev + [n - 1];
    }
  }

  predicate Quiet(s: State) {
    && s.c.writer.pc.Idle?
    && forall r, k | 0 <= r < |s.c.guards| && 0 <= k < |s.c.guards[r]| :: Done(s.c.guards[r], k)
  }

  /** With no call in progress and every guard dropped, a bucket is marked occupied iff it holds an object. */
  lemma QuietMarks(cfg: Config, s: State, b: nat)
    requires cfg.Sound() && Inv(cfg, s) && cfg.kind.Object? && Quiet(s) && b < cfg.Cap()
    ensures s.c.ring.counter[b] != 0 <==> s.c.ring.store[b].Some?
  {
    if b >= |s.log| {
      assert FreshOk(cfg, s, b);
    } else {
      var n := LatestIn(b, |s.log|, cfg.Cap());
      assert EventOk(cfg, s, n);
      forall r | 0 <= r < |s.c.guards| ensures !Ends(s.c.guards[r], n) {
        assert n < |s.c.guards[r]| ==> Done(s.c.guards[r], n);
      }
    }
  }

  /** Once every guard is dropped, teardown ends exactly the events no guard ended. */
  lemma {:induction false} TeardownCompletes(cfg: Config, actions: seq<Action>, e: Event)
    requires cfg.Sound() && cfg.kind.Object? && Quiet(Run(cfg, actions))
    ensures var ring := Run(cfg, actions).c.ring;
            && (forall b | 0 <= b < cfg.Cap() :: TornDown(cfg, ring).store[b] == None)
            && (forall b | 0 <= b < cfg.Cap() :: ring.counter[b] != 0 <==> ring.store[b].Some?)
            && (forall b | 0 <= b < cfg.Cap() && ring.counter[b] == 0 ::
                  TornDown(cfg, ring).seqn[b] == ring.seqn[b] && TornDown(cfg, ring).counter[b] == 0)
            && (forall b | 0 <= b < cfg.Cap() && ring.counter[b] != 0 ::
                  TornDown(cfg, ring).seqn[b] == Dummy(cfg.w) && TornDown(cfg, ring).counter[b] == 0)
            && Built(cfg, actions, e) == Destroyed(cfg, actions, e) + Alive(ring.store, e)
  {
    RunInv(cfg, actions);
    DestructionBalance(cfg, actions, e);
    forall b | 0 <= b < cfg.Cap()
      ensures Run(cfg, actions).c.ring.counter[b] != 0 <==> Run(cfg, actions).c.ring.store[b].Some?
    {
      QuietMarks(cfg, Run(cfg, actions), b);
    }
  }
}
