/** The inductive invariant of the one-to-one protocol, and its preservation by every atomic step. */
module One2OneSafety {
  import opened Word
  import opened Common
  import opened One2One

  predicate Done(gs: seq<Guard>, n: nat) {
    n < |gs| && gs[n].phase.Released?
  }

  predicate IsHeld(gs: seq<Guard>, n: nat) {
    n < |gs| && gs[n].phase.Held?
  }

  /** Event n is alive: not yet taken, or under a guard that has not destroyed it. */
  predicate Intact(gs: seq<Guard>, n: nat) {
    n < |gs| ==> gs[n].phase.Held?
  }

  /** Every event below this index is released; while the writer is inside a call it owns bucket Low - 1. */
  function Low(cfg: Config, s: State): int {
    |s.log| - cfg.Cap() + (if s.c.writer.pc.Idle? then 0 else 1)
  }

  /** What a bucket holds for its latest event n. */
  predicate CellOk(cfg: Config, gs: seq<Guard>, n: nat, seqn: nat, cell: Option<Event>, e: Event)
    requires cfg.Shape()
  {
    && seqn == (if Done(gs, n) then Dummy(cfg.w) else n % Pow2(cfg.w - 1))
    && (Intact(gs, n) ==> cell == Some(e))
    && (!Intact(gs, n) && cfg.kind.Object? ==> cell == None)
  }

  predicate EventOk(cfg: Config, s: State, n: nat)
    requires cfg.Shape() && Shaped(cfg, s.c) && n < |s.log|
  {
    var b := n % cfg.Cap();
    if n < Low(cfg, s) then Done(s.c.guards, n)
    else CellOk(cfg, s.c.guards, n, s.c.ring.seqn[b], s.c.ring.store[b], s.log[n])
  }

  /** A bucket the writer has not reached yet. */
  predicate FreshOk(cfg: Config, s: State, n: nat)
    requires Shaped(cfg, s.c) && n < cfg.Cap()
  {
    && s.c.ring.seqn[n] == Dummy(cfg.w)
    && (n > |s.log| || s.c.writer.pc.Idle? ==> s.c.ring.store[n] == None)
  }

  predicate WriterOk(cfg: Config, s: State)
    requires Shaped(cfg, s.c)
  {
    var wr := s.c.writer;
    && wr.num == |s.log| % Pow2(cfg.w)
    && wr.bucket == |s.log| % cfg.Cap()
    && (!wr.pc.Idle? ==> s.c.ring.seqn[wr.bucket] == Dummy(cfg.w))
    && (wr.pc.Checked? && cfg.kind.Object? ==> s.c.ring.store[wr.bucket] == None)
    && (wr.pc.Built? ==> s.c.ring.store[wr.bucket] == Some(wr.pc.e))
  }

  predicate ReaderOk(cfg: Config, s: State) {
    var t := |s.c.guards|;
    && t <= |s.log|
    && s.c.reader == Reader(t % Pow2(cfg.w), t % cfg.Cap())
    && (forall k | 0 <= k < t :: s.c.guards[k].bucket == k % cfg.Cap())
    && (cfg.kind.Pod? ==> forall k | 0 <= k < t - 1 :: Done(s.c.guards, k))
  }

  predicate Inv(cfg: Config, s: State)
    requires cfg.Shape()
  {
    && Shaped(cfg, s.c)
    && WriterOk(cfg, s)
    && ReaderOk(cfg, s)
    && (forall n: nat | n < |s.log| :: EventOk(cfg, s, n))
    && (forall n: nat | |s.log| <= n < cfg.Cap() :: FreshOk(cfg, s, n))
  }

  lemma InitInv(cfg: Config)
    requires cfg.Sound()
    ensures Inv(cfg, Init(cfg))
  {
    SmallMod(0, Pow2(cfg.w));
    SmallMod(0, cfg.Cap());
  }

  lemma Apart(cfg: Config, m: nat, n: nat)
    requires m != n && m < n + cfg.Cap() && n < m + cfg.Cap()
    ensures m % cfg.Cap() != n % cfg.Cap()
  {
    if m < n { SameSlot(m, n, cfg.Cap()); } else { SameSlot(n, m, cfg.Cap()); }
  }

  /** The writer sees the dummy number exactly when the event a lap ago has been released. */
  lemma SeesEmpty(cfg: Config, s: State)
    requires cfg.Sound() && Inv(cfg, s) && s.c.writer.pc.Idle?
    ensures s.c.ring.seqn[s.c.writer.bucket] == Dummy(cfg.w) <==>
            (|s.log| < cfg.Cap() || Done(s.c.guards, |s.log| - cfg.Cap()))
    ensures s.c.ring.seqn[s.c.writer.bucket] == Dummy(cfg.w) && cfg.kind.Object? ==>
              s.c.ring.store[s.c.writer.bucket] == None
  {
    var W, cap := |s.log|, cfg.Cap();
    if W < cap {
      SmallMod(W, cap);
      assert FreshOk(cfg, s, W);
    } else {
      AddMultiple(W - cap, cap, 1);
      assert EventOk(cfg, s, W - cap);
      NeverDummy(cfg.w, W - cap);
    }
  }

  /** A writer step inside a call, or its first: only the bucket being written may change. */
  lemma WriterInv(cfg: Config, s: State, a: Action)
    requires cfg.Sound() && Inv(cfg, s) && (a.Check? || a.Build?)
    ensures Inv(cfg, Next(cfg, s, a))
  {
    var t := Next(cfg, s, a);
    if t.c != s.c {
      if a.Check? { SeesEmpty(cfg, s); }
      forall n: nat | n < |t.log| ensures EventOk(cfg, t, n) {
        assert EventOk(cfg, s, n);
        if n >= Low(cfg, t) { Apart(cfg, n, |s.log|); }
      }
      forall n: nat | |t.log| <= n < cfg.Cap() ensures FreshOk(cfg, t, n) {
        assert FreshOk(cfg, s, n);
        SmallMod(|s.log|, cfg.Cap());
      }
    }
  }

  lemma PublishInv(cfg: Config, s: State)
    requires cfg.Sound() && Inv(cfg, s)
    ensures Inv(cfg, Next(cfg, s, Publish))
  {
    StepShaped(cfg, s.c, Publish);
    if s.c.writer.pc.Built? {
      PublishedOf(cfg.w, |s.log|);
      IncMod(cfg.w, |s.log|);
      IndexOf(cfg.w, cfg.bits, |s.log| + 1);
      PublishedInv(cfg, s, Next(cfg, s, Publish));
    }
  }

  lemma PublishedInv(cfg: Config, s: State, t: State)
    requires cfg.Sound() && Inv(cfg, s) && Shaped(cfg, t.c)
    requires s.c.writer.pc.Built? && t.log == s.log + [s.c.writer.pc.e]
    requires t.c == s.c.(ring := t.c.ring, writer := t.c.writer)
    requires t.c.writer == Writer((|s.log| + 1) % Pow2(cfg.w), (|s.log| + 1) % cfg.Cap(), Idle)
    requires t.c.ring == s.c.ring.(seqn := s.c.ring.seqn[s.c.writer.bucket := |s.log| % Pow2(cfg.w - 1)])
    ensures Inv(cfg, t)
  {
    forall n: nat | n < |t.log| ensures EventOk(cfg, t, n) { PublishEvent(cfg, s, t, n); }
    forall n: nat | |t.log| <= n < cfg.Cap() ensures FreshOk(cfg, t, n) {
      assert FreshOk(cfg, s, n);
      SmallMod(|s.log|, cfg.Cap());
    }
  }

  lemma PublishEvent(cfg: Config, s: State, t: State, n: nat)
    requires cfg.Sound() && Inv(cfg, s) && Shaped(cfg, t.c) && n < |t.log|
    requires s.c.writer.pc.Built? && t.log == s.log + [s.c.writer.pc.e]
    requires t.c == s.c.(ring := t.c.ring, writer := t.c.writer) && t.c.writer.pc.Idle?
    requires t.c.ring == s.c.ring.(seqn := s.c.ring.seqn[s.c.writer.bucket := |s.log| % Pow2(cfg.w - 1)])
    ensures EventOk(cfg, t, n)
  {
    if n < |s.log| {
      assert EventOk(cfg, s, n);
      if n >= Low(cfg, s) { Apart(cfg, n, |s.log|); }
    }
  }

  /** try_read succeeds exactly when the reader has not yet taken everything written. */
  lemma LoadMatches(cfg: Config, s: State)
    requires cfg.Sound() && Inv(cfg, s) && MayLoad(cfg, s.c)
    ensures s.c.ring.seqn[s.c.reader.bucket] == Published(cfg.w, s.c.reader.num) <==> |s.c.guards| < |s.log|
  {
    var T, W := |s.c.guards|, |s.log|;
    PublishedOf(cfg.w, T);
    if T < W {
      assert EventOk(cfg, s, T);
    } else if !s.c.writer.pc.Idle? {
    } else if W < cfg.Cap() {
      SmallMod(W, cfg.Cap());
      assert FreshOk(cfg, s, W);
    } else {
      StaleNumber(cfg, s);
    }
  }

  /** With everything taken and the ring wrapped, the reader's bucket does not carry the number it waits for. */
  lemma StaleNumber(cfg: Config, s: State)
    requires cfg.Sound() && Inv(cfg, s) && MayLoad(cfg, s.c) && s.c.writer.pc.Idle?
    requires |s.log| >= cfg.Cap() && |s.c.guards| == |s.log|
    ensures s.c.ring.seqn[s.c.reader.bucket] != |s.log| % Pow2(cfg.w - 1)
  {
    var W := |s.log|;
    var n := W - cfg.Cap();
    PublishedOf(cfg.w, W);
    AddMultiple(n, cfg.Cap(), 1);
    assert EventOk(cfg, s, n);
    if cfg.kind.Pod? {
      assert n < W - 1 ==> Done(s.c.guards, n);
    } else {
      Pow2Monotone(cfg.bits, cfg.w - 1);
      SameSlot(n, W, Pow2(cfg.w - 1));
    }
  }

  /** t is s after the reader took its next event. */
  predicate Taken(cfg: Config, s: State, t: State)
    requires cfg.Shape()
  {
    var T := |s.c.guards|;
    && t.log == s.log && t.c.writer == s.c.writer && t.c.ring == s.c.ring && T < |s.log|
    && t.c.reader == Reader((T + 1) % Pow2(cfg.w), (T + 1) % cfg.Cap())
    && t.c.guards == s.c.guards + [Guard(T % cfg.Cap(), Held)]
  }

  lemma TakenEvent(cfg: Config, s: State, t: State, n: nat)
    requires cfg.Sound() && Inv(cfg, s) && Shaped(cfg, t.c) && Taken(cfg, s, t) && n < |s.log|
    ensures EventOk(cfg, t, n)
  {
    assert EventOk(cfg, s, n);
    assert n < |s.c.guards| ==> t.c.guards[n] == s.c.guards[n];
  }

  lemma TakenInv(cfg: Config, s: State, t: State)
    requires cfg.Sound() && Inv(cfg, s) && Shaped(cfg, t.c) && Taken(cfg, s, t) && MayLoad(cfg, s.c)
    ensures Inv(cfg, t)
  {
    if cfg.kind.Pod? {
      forall k | 0 <= k < |s.c.guards| ensures Done(t.c.guards, k) {
        assert k < |s.c.guards| - 1 ==> Done(s.c.guards, k);
      }
    }
    forall n: nat | n < |t.log| ensures EventOk(cfg, t, n) { TakenEvent(cfg, s, t, n); }
    forall n: nat | |t.log| <= n < cfg.Cap() ensures FreshOk(cfg, t, n) { assert FreshOk(cfg, s, n); }
  }

  lemma LoadInv(cfg: Config, s: State)
    requires cfg.Sound() && Inv(cfg, s)
    ensures Inv(cfg, Next(cfg, s, Load))
  {
    StepShaped(cfg, s.c, Load);
    if MayLoad(cfg, s.c) {
      LoadMatches(cfg, s);
      var T := |s.c.guards|;
      if T < |s.log| {
        IncMod(cfg.w, T);
        IndexOf(cfg.w, cfg.bits, T + 1);
        TakenInv(cfg, s, Next(cfg, s, Load));
      }
    }
  }

  /** A live guard's event is one the writer has not passed. */
  lemma GuardInWindow(cfg: Config, s: State, k: nat)
    requires cfg.Sound() && Inv(cfg, s) && k < |s.c.guards| && !Done(s.c.guards, k)
    ensures Low(cfg, s) <= k < |s.log| && s.c.guards[k].bucket == k % cfg.Cap()
    ensures CellOk(cfg, s.c.guards, k, s.c.ring.seqn[k % cfg.Cap()], s.c.ring.store[k % cfg.Cap()], s.log[k])
  {
    assert EventOk(cfg, s, k);
  }

  /** t is s after the guard on event k moved to phase p: only that event's bucket may differ. */
  predicate Moved(cfg: Config, s: State, t: State, k: nat, p: Phase)
    requires cfg.Shape() && Shaped(cfg, s.c) && Shaped(cfg, t.c) && k < |s.c.guards|
  {
    && t.log == s.log && t.c.writer == s.c.writer && t.c.reader == s.c.reader
    && t.c.guards == s.c.guards[k := Guard(k % cfg.Cap(), p)]
    && (forall b | 0 <= b < cfg.Cap() && b != k % cfg.Cap() ::
          t.c.ring.seqn[b] == s.c.ring.seqn[b] && t.c.ring.store[b] == s.c.ring.store[b])
  }

  lemma MovedEvent(cfg: Config, s: State, t: State, k: nat, p: Phase, n: nat)
    requires cfg.Sound() && Inv(cfg, s) && Shaped(cfg, t.c) && k < |s.c.guards| && Moved(cfg, s, t, k, p)
    requires Low(cfg, s) <= k < |s.log| && n < |s.log| && n != k
    ensures EventOk(cfg, t, n)
  {
    assert EventOk(cfg, s, n);
    assert n < |s.c.guards| ==> t.c.guards[n] == s.c.guards[n];
    if n >= Low(cfg, s) { Apart(cfg, n, k); }
  }

  lemma MovedInv(cfg: Config, s: State, t: State, k: nat, p: Phase)
    requires cfg.Sound() && Inv(cfg, s) && Shaped(cfg, t.c) && k < |s.c.guards| && Moved(cfg, s, t, k, p)
    requires !s.c.guards[k].phase.Released? && !p.Held?
    requires k < |s.log| ==>
               CellOk(cfg, t.c.guards, k, t.c.ring.seqn[k % cfg.Cap()], t.c.ring.store[k % cfg.Cap()], s.log[k])
    ensures Inv(cfg, t)
  {
    GuardInWindow(cfg, s, k);
    if !s.c.writer.pc.Idle? { Apart(cfg, k, |s.log|); }
    if cfg.kind.Pod? {
      forall j | 0 <= j < |t.c.guards| - 1 ensures Done(t.c.guards, j) { assert Done(s.c.guards, j); }
    }
    forall n: nat | n < |t.log| ensures EventOk(cfg, t, n) {
      if n != k { MovedEvent(cfg, s, t, k, p, n); }
    }
    forall n: nat | |t.log| <= n < cfg.Cap() ensures FreshOk(cfg, t, n) {
      assert FreshOk(cfg, s, n);
      SmallMod(k, cfg.Cap());
    }
  }

  lemma SpendInv(cfg: Config, s: State, k: nat)
    requires cfg.Sound() && Inv(cfg, s)
    ensures Inv(cfg, Next(cfg, s, Spend(k)))
  {
    if IsHeld(s.c.guards, k) {
      GuardInWindow(cfg, s, k);
      MovedInv(cfg, s, Next(cfg, s, Spend(k)), k, Spent);
    }
  }

  lemma FreeInv(cfg: Config, s: State, k: nat)
    requires cfg.Sound() && Inv(cfg, s)
    ensures Inv(cfg, Next(cfg, s, Free(k)))
  {
    if k < |s.c.guards| && s.c.guards[k].phase.Spent? {
      GuardInWindow(cfg, s, k);
      MovedInv(cfg, s, Next(cfg, s, Free(k)), k, Released);
    }
  }

  /** Every atomic step of every thread keeps the invariant. */
  lemma StepInv(cfg: Config, s: State, a: Action)
    requires cfg.Sound() && Inv(cfg, s)
    ensures Inv(cfg, Next(cfg, s, a))
  {
    match a
    case Check(_) => WriterInv(cfg, s, a);
    case Build => WriterInv(cfg, s, a);
    case Publish => PublishInv(cfg, s);
    case Load => LoadInv(cfg, s);
    case Spend(k) => SpendInv(cfg, s, k);
    case Free(k) => FreeInv(cfg, s, k);
  }

  /** The invariant holds after every sequence of atomic steps. */
  lemma {:induction false} RunInv(cfg: Config, actions: seq<Action>)
    requires cfg.Sound()
    ensures Inv(cfg, Run(cfg, actions))
  {
    if actions == [] {
      InitInv(cfg);
    } else {
      var before := actions[..|actions| - 1];
      RunInv(cfg, before);
      StepInv(cfg, Run(cfg, before), actions[|actions| - 1]);
    }
  }
}
