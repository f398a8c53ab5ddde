/** The inductive invariant of the one-to-each protocol, and its preservation by every atomic step. */
module One2EachSafety {
  import opened Word
  import opened Common
  import opened One2Each

  /** The reader with these guards has not yet given event n back. */
  predicate Waits(gs: seq<Guard>, n: nat) {
    n < |gs| ==> gs[n].phase.Held? || gs[n].phase.Copied?
  }

  /** The reader's guard on event n took the last release and is destroying the event. */
  predicate Ends(gs: seq<Guard>, n: nat) {
    n < |gs| && (gs[n].phase.Last? || gs[n].phase.Destroyed?)
  }

  predicate Done(gs: seq<Guard>, n: nat) {
    n < |gs| && gs[n].phase.Released?
  }

  /** How many readers still owe a release of event n. */
  function Waiting(guards: seq<seq<Guard>>, n: nat): (u: nat) {
    if guards == [] then 0
    else Waiting(guards[..|guards| - 1], n) + (if Waits(guards[|guards| - 1], n) then 1 else 0)
  }

  lemma {:induction false} WaitingBounds(guards: seq<seq<Guard>>, n: nat)
    ensures Waiting(guards, n) <= |guards|
    ensures Waiting(guards, n) == 0 <==> forall r | 0 <= r < |guards| :: !Waits(guards[r], n)
    ensures (forall r | 0 <= r < |guards| :: Waits(guards[r], n)) ==> Waiting(guards, n) == |guards|
  {
    if guards != [] {
      WaitingBounds(guards[..|guards| - 1], n);
      assert forall r | 0 <= r < |guards| - 1 :: guards[..|guards| - 1][r] == guards[r];
    }
  }

  lemma {:induction false} WaitingUpdate(guards: seq<seq<Guard>>, r: nat, gs: seq<Guard>, n: nat)
    requires r < |guards|
    ensures Waiting(guards[r := gs], n) + (if Waits(guards[r], n) then 1 else 0)
         == Waiting(guards, n) + (if Waits(gs, n) then 1 else 0)
  {
    var last := |guards| - 1;
    if r == last {
      assert guards[r := gs][..last] == guards[..last];
    } else {
      WaitingUpdate(guards[..last], r, gs, n);
      assert guards[r := gs][..last] == guards[..last][r := gs];
    }
  }

  /** Every event below this index is reclaimed; the writer works on bucket Low - 1 while it is inside a call. */
  function Low(cfg: Config, s: State): int {
    |s.log| - cfg.Cap() + (if s.c.writer.pc.Idle? then 0 else 1)
  }

  predicate GuardOk(cfg: Config, g: Guard, k: nat) {
    && g.bucket == k % cfg.Cap()
    && (g.phase.Copied? ==> cfg.kind.Pod?)
    && (g.phase.Last? || g.phase.Destroyed? ==> cfg.kind.Object?)
  }

  predicate ReaderOk(cfg: Config, s: State, r: nat)
    requires Shaped(cfg, s.c) && r < cfg.readers
  {
    var t := |s.c.guards[r]|;
    && t <= |s.log|
    && s.c.readers[r] == Reader(t % Pow2(cfg.w), t % cfg.Cap())
    && (forall k | 0 <= k < t :: GuardOk(cfg, s.c.guards[r][k], k))
    && (cfg.kind.Pod? ==> forall k | 0 <= k < t - 1 :: Done(s.c.guards[r], k))
  }

  predicate NoneEnds(guards: seq<seq<Guard>>, n: nat) {
    forall r | 0 <= r < |guards| :: !Ends(guards[r], n)
  }

  predicate AllDone(guards: seq<seq<Guard>>, n: nat) {
    forall r | 0 <= r < |guards| :: Done(guards[r], n)
  }

  /** Reader r alone is ending event n; the event is alive until its Destroy step. */
  predicate EndsAlone(guards: seq<seq<Guard>>, r: nat, n: nat, cell: Option<Event>, e: Event)
    requires r < |guards| && Ends(guards[r], n)
  {
    && cell == (if guards[r][n].phase.Last? then Some(e) else None)
    && (forall q | 0 <= q < |guards| && Ends(guards[q], n) :: q == r)
  }

  /** What the counter and the storage say about a written event n that is not yet reclaimed. */
  predicate CellOk(cfg: Config, guards: seq<seq<Guard>>, n: nat, counter: nat, cell: Option<Event>, e: Event) {
    var u := Waiting(guards, n);
    if u > 0 then counter == u + cfg.Mark() && cell == Some(e) && NoneEnds(guards, n)
    else if NoneEnds(guards, n) then counter == 0 && (cfg.kind.Object? ==> cell == None)
    else counter == 1 && forall r | 0 <= r < |guards| && Ends(guards[r], n) :: EndsAlone(guards, r, n, cell, e)
  }

  predicate EventOk(cfg: Config, s: State, n: nat)
    requires cfg.Shape() && Shaped(cfg, s.c) && n < |s.log|
  {
    var b := n % cfg.Cap();
    && (n >= |s.log| - cfg.Cap() ==> s.c.ring.seqn[b] == n % Pow2(cfg.w - 1))
    && if n < Low(cfg, s) then AllDone(s.c.guards, n)
       else CellOk(cfg, s.c.guards, n, s.c.ring.counter[b], s.c.ring.store[b], s.log[n])
  }

  /** A bucket the writer has not reached yet. */
  predicate FreshOk(cfg: Config, s: State, n: nat)
    requires Shaped(cfg, s.c) && n < cfg.Cap()
  {
    && s.c.ring.seqn[n] == Dummy(cfg.w)
    && (n > |s.log| || s.c.writer.pc.Idle? ==> s.c.ring.counter[n] == 0 && s.c.ring.store[n] == None)
  }

  predicate WriterOk(cfg: Config, s: State)
    requires Shaped(cfg, s.c)
  {
    var wr := s.c.writer;
    && wr.num == |s.log| % Pow2(cfg.w)
    && wr.bucket == |s.log| % cfg.Cap()
    && match wr.pc
       case Idle => true
       case Checked(_) => s.c.ring.counter[wr.bucket] == 0 && (cfg.kind.Object? ==> s.c.ring.store[wr.bucket] == None)
       case Built(e) => s.c.ring.counter[wr.bucket] == 0 && s.c.ring.store[wr.bucket] == Some(e)
       case Counted(e) =>
         s.c.ring.counter[wr.bucket] == cfg.readers + cfg.Mark() && s.c.ring.store[wr.bucket] == Some(e)
  }

  predicate Inv(cfg: Config, s: State)
    requires cfg.Shape()
  {
    && Shaped(cfg, s.c)
    && WriterOk(cfg, s)
    && (forall r: nat | r < cfg.readers :: ReaderOk(cfg, s, r))
    && (forall n: nat | n < |s.log| :: EventOk(cfg, s, n))
    && (forall n: nat | |s.log| <= n < cfg.Cap() :: FreshOk(cfg, s, n))
  }

  lemma InitInv(cfg: Config)
    requires cfg.Sound()
    ensures Inv(cfg, Init(cfg))
  {
    SmallMod(0, Pow2(cfg.w));
    SmallMod(0, cfg.Cap());
  }

  /** Two written events of the same lap, or an event and the bucket being written, do not share a bucket. */
  lemma Apart(cfg: Config, m: nat, n: nat)
    requires m != n && m < n + cfg.Cap() && n < m + cfg.Cap()
    ensures m % cfg.Cap() != n % cfg.Cap()
  {
    if m < n { SameSlot(m, n, cfg.Cap()); } else { SameSlot(n, m, cfg.Cap()); }
  }

  lemma FreshApart(cfg: Config, m: nat, n: nat)
    requires m < n < cfg.Cap()
    ensures m % cfg.Cap() == m && n % cfg.Cap() == n
  {
    SmallMod(m, cfg.Cap());
    SmallMod(n, cfg.Cap());
  }

  /** The writer sees an empty counter exactly when the event a lap ago is fully gone. */
  lemma SeesEmpty(cfg: Config, s: State)
    requires cfg.Sound() && Inv(cfg, s) && s.c.writer.pc.Idle?
    ensures s.c.ring.counter[s.c.writer.bucket] == 0 <==>
            (|s.log| < cfg.Cap() || AllDone(s.c.guards, |s.log| - cfg.Cap()))
    ensures s.c.ring.counter[s.c.writer.bucket] == 0 && cfg.kind.Object? ==> s.c.ring.store[s.c.writer.bucket] == None
  {
    var W, cap := |s.log|, cfg.Cap();
    if W < cap {
      SmallMod(W, cap);
      assert FreshOk(cfg, s, W);
    } else {
      var n := W - cap;
      AddMultiple(n, cap, 1);
      assert EventOk(cfg, s, n);
      WaitingBounds(s.c.guards, n);
      if s.c.ring.counter[s.c.writer.bucket] == 0 {
        forall r | 0 <= r < cfg.readers ensures Done(s.c.guards[r], n) {
          assert !Waits(s.c.guards[r], n) && !Ends(s.c.guards[r], n);
        }
      }
    }
  }

  lemma CheckInv(cfg: Config, s: State, e: Event)
    requires cfg.Sound() && Inv(cfg, s)
    ensures Inv(cfg, Next(cfg, s, Check(e)))
  {
    var t := Next(cfg, s, Check(e));
    if s.c.writer.pc.Idle? && s.c.ring.counter[s.c.writer.bucket] == 0 {
      SeesEmpty(cfg, s);
      forall r: nat | r < cfg.readers ensures ReaderOk(cfg, t, r) { assert ReaderOk(cfg, s, r); }
      forall n: nat | n < |t.log| ensures EventOk(cfg, t, n) { assert EventOk(cfg, s, n); }
      forall n: nat | |t.log| <= n < cfg.Cap() ensures FreshOk(cfg, t, n) { assert FreshOk(cfg, s, n); }
    }
  }

  /** A step that touches only the bucket being written, with the call still in progress. */
  lemma InsideCall(cfg: Config, s: State, t: State)
    requires cfg.Sound() && Inv(cfg, s) && Shaped(cfg, t.c) && WriterOk(cfg, t)
    requires !s.c.writer.pc.Idle? && !t.c.writer.pc.Idle?
    requires t.log == s.log && t.c.readers == s.c.readers && t.c.guards == s.c.guards
    requires t.c.ring.seqn == s.c.ring.seqn
    requires forall b | 0 <= b < cfg.Cap() && b != s.c.writer.bucket ::
               t.c.ring.counter[b] == s.c.ring.counter[b] && t.c.ring.store[b] == s.c.ring.store[b]
    ensures Inv(cfg, t)
  {
    forall r: nat | r < cfg.readers ensures ReaderOk(cfg, t, r) { assert ReaderOk(cfg, s, r); }
    forall n: nat | n < |t.log| ensures EventOk(cfg, t, n) {
      assert EventOk(cfg, s, n);
      if n >= Low(cfg, s) { Apart(cfg, n, |s.log|); }
    }
    forall n: nat | |t.log| <= n < cfg.Cap() ensures FreshOk(cfg, t, n) {
      assert FreshOk(cfg, s, n);
      SmallMod(|s.log|, cfg.Cap());
    }
  }

  lemma BuildInv(cfg: Config, s: State)
    requires cfg.Sound() && Inv(cfg, s)
    ensures Inv(cfg, Next(cfg, s, Build))
  {
    if s.c.writer.pc.Checked? { InsideCall(cfg, s, Next(cfg, s, Build)); }
  }

  lemma SetCounterInv(cfg: Config, s: State)
    requires cfg.Sound() && Inv(cfg, s)
    ensures Inv(cfg, Next(cfg, s, SetCounter))
  {
    SmallMod(cfg.readers + cfg.Mark(), Pow2(cfg.w));
    if s.c.writer.pc.Built? { InsideCall(cfg, s, Next(cfg, s, SetCounter)); }
  }

  lemma PublishInv(cfg: Config, s: State)
    requires cfg.Sound() && Inv(cfg, s)
    ensures Inv(cfg, Next(cfg, s, Publish))
  {
    var t := Next(cfg, s, Publish);
    StepShaped(cfg, s.c, Publish);
    if s.c.writer.pc.Counted? {
      var W := |s.log|;
      PublishedOf(cfg.w, W);
      IncMod(cfg.w, W);
      IndexOf(cfg.w, cfg.bits, W + 1);
      assert WriterOk(cfg, t);
      forall r: nat | r < cfg.readers ensures ReaderOk(cfg, t, r) { assert ReaderOk(cfg, s, r); }
      forall n: nat | n < |t.log| ensures EventOk(cfg, t, n) { PublishEvent(cfg, s, t, n); }
      forall n: nat | |t.log| <= n < cfg.Cap() ensures FreshOk(cfg, t, n) {
        assert FreshOk(cfg, s, n);
        SmallMod(W, cfg.Cap());
      }
    }
  }

  lemma PublishEvent(cfg: Config, s: State, t: State, n: nat)
    requires cfg.Sound() && Inv(cfg, s) && Shaped(cfg, t.c) && n < |t.log|
    requires s.c.writer.pc.Counted? && t.log == s.log + [s.c.writer.pc.e]
    requires t.c == s.c.(ring := t.c.ring, writer := t.c.writer) && t.c.writer.pc.Idle?
    requires t.c.ring == s.c.ring.(seqn := s.c.ring.seqn[s.c.writer.bucket := |s.log| % Pow2(cfg.w - 1)])
    ensures EventOk(cfg, t, n)
  {
    if n == |s.log| {
      forall r | 0 <= r < |s.c.guards| ensures Waits(s.c.guards[r], n) && !Ends(s.c.guards[r], n) {
        assert ReaderOk(cfg, s, r);
      }
      WaitingBounds(s.c.guards, n);
    } else {
      assert EventOk(cfg, s, n);
      if n >= Low(cfg, s) { Apart(cfg, n, |s.log|); }
    }
  }

  /** An event none of whose holders changed keeps its cell condition. */
  lemma {:induction false} CellFrame(cfg: Config, guards: seq<seq<Guard>>, r: nat, gs: seq<Guard>, n: nat,
                  counter: nat, cell: Option<Event>, e: Event)
    requires r < |guards| && CellOk(cfg, guards, n, counter, cell, e)
    requires Waits(gs, n) == Waits(guards[r], n) && Ends(gs, n) == Ends(guards[r], n)
    requires Ends(gs, n) ==> gs[n] == guards[r][n]
    ensures CellOk(cfg, guards[r := gs], n, counter, cell, e)
  {
    WaitingUpdate(guards, r, gs, n);
    var next := guards[r := gs];
    if NoneEnds(guards, n) {
      assert NoneEnds(next, n);
    } else {
      var q :| 0 <= q < |guards| && Ends(guards[q], n);
      assert Ends(next[q], n);
      forall q | 0 <= q < |next| && Ends(next[q], n) ensures EndsAlone(next, q, n, cell, e) {
        assert EndsAlone(guards, q, n, cell, e);
      }
    }
  }

  /** t is s after reader r's guard on event k moved to phase p: only that event's bucket may differ. */
  predicate Moved(cfg: Config, s: State, t: State, r: nat, k: nat, p: Phase)
    requires cfg.Shape() && Shaped(cfg, s.c) && Shaped(cfg, t.c) && Names(s.c, r, k)
  {
    && t.log == s.log && t.c.writer == s.c.writer && t.c.readers == s.c.readers
    && t.c.guards == s.c.guards[r := s.c.guards[r][k := Guard(k % cfg.Cap(), p)]]
    && t.c.ring.seqn == s.c.ring.seqn
    && (forall b | 0 <= b < cfg.Cap() && b != k % cfg.Cap() ::
          t.c.ring.counter[b] == s.c.ring.counter[b] && t.c.ring.store[b] == s.c.ring.store[b])
  }

  lemma MovedEvent(cfg: Config, s: State, t: State, r: nat, k: nat, p: Phase, n: nat)
    requires cfg.Sound() && Inv(cfg, s) && Shaped(cfg, t.c) && Names(s.c, r, k)
    requires Moved(cfg, s, t, r, k, p) && Low(cfg, s) <= k < |s.log| && n < |s.log| && n != k
    ensures EventOk(cfg, t, n)
  {
    assert EventOk(cfg, s, n);
    if n >= Low(cfg, s) {
      Apart(cfg, n, k);
      var b := n % cfg.Cap();
      CellFrame(cfg, s.c.guards, r, t.c.guards[r], n, s.c.ring.counter[b], s.c.ring.store[b], s.log[n]);
    } else {
      forall q | 0 <= q < |t.c.guards| ensures Done(t.c.guards[q], n) {
        assert Done(s.c.guards[q], n);
      }
    }
  }

  lemma AfterGuard(cfg: Config, s: State, t: State, r: nat, k: nat, p: Phase)
    requires cfg.Sound() && Inv(cfg, s) && Shaped(cfg, t.c) && Names(s.c, r, k)
    requires !s.c.guards[r][k].phase.Released? && Moved(cfg, s, t, r, k, p)
    requires GuardOk(cfg, Guard(k % cfg.Cap(), p), k)
    requires k < |s.log| ==>
               CellOk(cfg, t.c.guards, k, t.c.ring.counter[k % cfg.Cap()], t.c.ring.store[k % cfg.Cap()], s.log[k])
    ensures Inv(cfg, t)
  {
    GuardInWindow(cfg, s, r, k);
    assert EventOk(cfg, s, k);
    if !s.c.writer.pc.Idle? { Apart(cfg, k, |s.log|); }
    assert WriterOk(cfg, t);
    forall q: nat | q < cfg.readers ensures ReaderOk(cfg, t, q) { MovedReader(cfg, s, t, r, k, p, q); }
    forall n: nat | n < |t.log| ensures EventOk(cfg, t, n) {
      if n != k { MovedEvent(cfg, s, t, r, k, p, n); }
    }
    forall n: nat | |t.log| <= n < cfg.Cap() ensures FreshOk(cfg, t, n) {
      assert FreshOk(cfg, s, n);
      FreshApart(cfg, k, n);
    }
  }

  lemma MovedReader(cfg: Config, s: State, t: State, r: nat, k: nat, p: Phase, q: nat)
    requires cfg.Sound() && Inv(cfg, s) && Shaped(cfg, t.c) && Names(s.c, r, k) && q < cfg.readers
    requires !s.c.guards[r][k].phase.Released? && Moved(cfg, s, t, r, k, p)
    requires GuardOk(cfg, Guard(k % cfg.Cap(), p), k)
    ensures ReaderOk(cfg, t, q)
  {
    assert ReaderOk(cfg, s, q);
    if q == r {
      forall j | 0 <= j < |t.c.guards[r]| ensures GuardOk(cfg, t.c.guards[r][j], j) {
        assert GuardOk(cfg, s.c.guards[r][j], j);
      }
      if cfg.kind.Pod? {
        forall j | 0 <= j < |t.c.guards[r]| - 1 ensures Done(t.c.guards[r], j) {
          assert Done(s.c.guards[r], j);
        }
      }
    }
  }

  /** A live guard's event is one the writer has not passed, and its bucket is the event's. */
  lemma GuardInWindow(cfg: Config, s: State, r: nat, k: nat)
    requires cfg.Sound() && Inv(cfg, s) && Names(s.c, r, k) && !s.c.guards[r][k].phase.Released?
    ensures Low(cfg, s) <= k < |s.log|
    ensures s.c.guards[r][k].bucket == k % cfg.Cap() && GuardOk(cfg, s.c.guards[r][k], k)
    ensures CellOk(cfg, s.c.guards, k, s.c.ring.counter[k % cfg.Cap()], s.c.ring.store[k % cfg.Cap()], s.log[k])
  {
    assert ReaderOk(cfg, s, r) && EventOk(cfg, s, k);
    assert k < Low(cfg, s) ==> Done(s.c.guards[r], k);
  }

  lemma CopyInv(cfg: Config, s: State, r: nat, k: nat)
    requires cfg.Sound() && Inv(cfg, s)
    ensures Inv(cfg, Next(cfg, s, Copy(r, k)))
  {
    var t := Next(cfg, s, Copy(r, k));
    if Names(s.c, r, k) {
      if cfg.kind.Pod? && s.c.guards[r][k].phase.Held? {
        GuardInWindow(cfg, s, r, k);
        CellFrame(cfg, s.c.guards, r, t.c.guards[r], k,
                  s.c.ring.counter[k % cfg.Cap()], s.c.ring.store[k % cfg.Cap()], s.log[k]);
        AfterGuard(cfg, s, t, r, k, Copied);
      }
    }
  }

  /** The waiting count of an event with a live holder is positive and fits the counter. */
  lemma HolderCounts(cfg: Config, s: State, r: nat, k: nat)
    requires cfg.Sound() && Inv(cfg, s) && Names(s.c, r, k) && Waits(s.c.guards[r], k)
    ensures 0 < Waiting(s.c.guards, k) <= cfg.readers
    ensures !s.c.guards[r][k].phase.Released? && k < |s.log|
    ensures s.c.ring.counter[k % cfg.Cap()] == Waiting(s.c.guards, k) + cfg.Mark()
    ensures s.c.ring.store[k % cfg.Cap()] == Some(s.log[k]) && NoneEnds(s.c.guards, k)
    ensures Dec(cfg.w, s.c.ring.counter[k % cfg.Cap()]) == Waiting(s.c.guards, k) + cfg.Mark() - 1
  {
    GuardInWindow(cfg, s, r, k);
    WaitingBounds(s.c.guards, k);
    DecPositive(cfg.w, s.c.ring.counter[k % cfg.Cap()]);
  }

  /** The cell of event n after reader r gave its share back: another reader waits, or r ends the event. */
  lemma {:induction false} ReleasedCell(cfg: Config, guards: seq<seq<Guard>>, r: nat, gs: seq<Guard>, n: nat, e: Event)
    requires r < |guards| && NoneEnds(guards, n) && Waits(guards[r], n) && n < |gs| && !Waits(gs, n)
    requires var last := cfg.kind.Object? && Waiting(guards, n) == 1;
             if last then gs[n].phase.Last? else gs[n].phase.Released?
    ensures cfg.kind.Pod? && Waiting(guards, n) == 1 ==> CellOk(cfg, guards[r := gs], n, 0, Some(e), e)
    ensures cfg.kind.Object? || Waiting(guards, n) > 1 ==>
              CellOk(cfg, guards[r := gs], n, Waiting(guards, n) + cfg.Mark() - 1, Some(e), e)
  {
    WaitingUpdate(guards, r, gs, n);
    var next := guards[r := gs];
    if gs[n].phase.Last? {
      assert Ends(next[r], n) && !NoneEnds(next, n);
      assert EndsAlone(next, r, n, Some(e), e);
    } else {
      assert NoneEnds(next, n);
    }
  }

  lemma ReleaseInv(cfg: Config, s: State, r: nat, k: nat)
    requires cfg.Sound() && Inv(cfg, s)
    ensures Inv(cfg, Next(cfg, s, Release(r, k)))
  {
    var t := Next(cfg, s, Release(r, k));
    if Names(s.c, r, k) {
      var g := s.c.guards[r][k];
      if (if cfg.kind.Pod? then g.phase.Copied? else g.phase.Held?) {
        GuardInWindow(cfg, s, r, k);
        HolderCounts(cfg, s, r, k);
        var gs := t.c.guards[r];
        assert gs == s.c.guards[r][k := Guard(k % cfg.Cap(), gs[k].phase)];
        ReleasedCell(cfg, s.c.guards, r, gs, k, s.log[k]);
        AfterGuard(cfg, s, t, r, k, gs[k].phase);
      }
    }
  }

  lemma DestroyInv(cfg: Config, s: State, r: nat, k: nat)
    requires cfg.Sound() && Inv(cfg, s)
    ensures Inv(cfg, Next(cfg, s, Destroy(r, k)))
  {
    var t := Next(cfg, s, Destroy(r, k));
    if Names(s.c, r, k) {
      if s.c.guards[r][k].phase.Last? {
        GuardInWindow(cfg, s, r, k);
        WaitingUpdate(s.c.guards, r, t.c.guards[r], k);
        assert Ends(s.c.guards[r], k) && Ends(t.c.guards[r], k);
        assert EndsAlone(s.c.guards, r, k, s.c.ring.store[k % cfg.Cap()], s.log[k]);
        assert EndsAlone(t.c.guards, r, k, None, s.log[k]);
        assert !NoneEnds(t.c.guards, k);
        AfterGuard(cfg, s, t, r, k, Destroyed);
      }
    }
  }

  lemma ClearInv(cfg: Config, s: State, r: nat, k: nat)
    requires cfg.Sound() && Inv(cfg, s)
    ensures Inv(cfg, Next(cfg, s, Clear(r, k)))
  {
    var t := Next(cfg, s, Clear(r, k));
    if Names(s.c, r, k) {
      if s.c.guards[r][k].phase.Destroyed? {
        GuardInWindow(cfg, s, r, k);
        WaitingUpdate(s.c.guards, r, t.c.guards[r], k);
        assert Ends(s.c.guards[r], k);
        assert EndsAlone(s.c.guards, r, k, s.c.ring.store[k % cfg.Cap()], s.log[k]);
        assert NoneEnds(t.c.guards, k);
        AfterGuard(cfg, s, t, r, k, Released);
      }
    }
  }

  /** try_read succeeds exactly when the reader has not yet taken everything written. */
  lemma LoadMatches(cfg: Config, s: State, r: nat)
    requires cfg.Sound() && Inv(cfg, s) && r < cfg.readers
    ensures s.c.ring.seqn[s.c.readers[r].bucket] == Published(cfg.w, s.c.readers[r].num) <==> |s.c.guards[r]| < |s.log|
  {
    assert ReaderOk(cfg, s, r);
    var T, W, M := |s.c.guards[r]|, |s.log|, Pow2(cfg.w - 1);
    PublishedOf(cfg.w, T);
    Pow2Monotone(cfg.bits, cfg.w - 1);
    if T < W {
      assert EventOk(cfg, s, T);
    } else if W < cfg.Cap() {
      SmallMod(W, cfg.Cap());
      assert FreshOk(cfg, s, W);
    } else {
      StaleNumber(cfg, s);
    }
  }

  /** Once the ring has wrapped, the bucket the writer is at carries the number of a lap ago. */
  lemma StaleNumber(cfg: Config, s: State)
    requires cfg.Sound() && Inv(cfg, s) && |s.log| >= cfg.Cap()
    ensures s.c.ring.seqn[s.c.writer.bucket] == (|s.log| - cfg.Cap()) % Pow2(cfg.w - 1) != |s.log| % Pow2(cfg.w - 1)
  {
    var n := |s.log| - cfg.Cap();
    AddMultiple(n, cfg.Cap(), 1);
    Pow2Monotone(cfg.bits, cfg.w - 1);
    SameSlot(n, |s.log|, Pow2(cfg.w - 1));
    assert EventOk(cfg, s, n);
  }

  lemma LoadInv(cfg: Config, s: State, r: nat)
    requires cfg.Sound() && Inv(cfg, s)
    ensures Inv(cfg, Next(cfg, s, Load(r)))
  {
    var t := Next(cfg, s, Load(r));
    StepShaped(cfg, s.c, Load(r));
    if MayLoad(cfg, s.c, r) {
      LoadMatches(cfg, s, r);
      assert ReaderOk(cfg, s, r);
      var T := |s.c.guards[r]|;
      if T < |s.log| {
        IncMod(cfg.w, T);
        IndexOf(cfg.w, cfg.bits, T + 1);
        assert t.c.guards[r] == s.c.guards[r] + [Guard(T % cfg.Cap(), Held)];
        forall q: nat | q < cfg.readers ensures ReaderOk(cfg, t, q) { LoadReader(cfg, s, t, r, q); }
        forall n: nat | n < |t.log| ensures EventOk(cfg, t, n) { LoadEvent(cfg, s, t, r, n); }
        forall n: nat | |t.log| <= n < cfg.Cap() ensures FreshOk(cfg, t, n) { assert FreshOk(cfg, s, n); }
      }
    }
  }

  predicate Taken(cfg: Config, s: State, t: State, r: nat)
    requires cfg.Shape() && Shaped(cfg, s.c) && Shaped(cfg, t.c) && r < cfg.readers
  {
    var T := |s.c.guards[r]|;
    && t.log == s.log && t.c.writer == s.c.writer && t.c.ring == s.c.ring && T < |s.log|
    && t.c.readers == s.c.readers[r := Reader((T + 1) % Pow2(cfg.w), (T + 1) % cfg.Cap())]
    && t.c.guards == s.c.guards[r := s.c.guards[r] + [Guard(T % cfg.Cap(), Held)]]
  }

  lemma LoadReader(cfg: Config, s: State, t: State, r: nat, q: nat)
    requires cfg.Sound() && Inv(cfg, s) && Shaped(cfg, t.c) && r < cfg.readers && q < cfg.readers
    requires Taken(cfg, s, t, r) && MayLoad(cfg, s.c, r)
    ensures ReaderOk(cfg, t, q)
  {
    assert ReaderOk(cfg, s, q);
    if q == r {
      forall j | 0 <= j < |t.c.guards[r]| ensures GuardOk(cfg, t.c.guards[r][j], j) {
        assert j < |s.c.guards[r]| ==> GuardOk(cfg, s.c.guards[r][j], j);
      }
      if cfg.kind.Pod? {
        forall j | 0 <= j < |t.c.guards[r]| - 1 ensures Done(t.c.guards[r], j) {
          assert j < |s.c.guards[r]| - 1 ==> Done(s.c.guards[r], j);
        }
      }
    }
  }

  lemma LoadEvent(cfg: Config, s: State, t: State, r: nat, n: nat)
    requires cfg.Sound() && Inv(cfg, s) && Shaped(cfg, t.c) && r < cfg.readers && n < |s.log|
    requires Taken(cfg, s, t, r)
    ensures EventOk(cfg, t, n)
  {
    assert EventOk(cfg, s, n);
    if n >= Low(cfg, s) {
      var b := n % cfg.Cap();
      CellFrame(cfg, s.c.guards, r, t.c.guards[r], n, s.c.ring.counter[b], s.c.ring.store[b], s.log[n]);
    } else {
      forall q | 0 <= q < |t.c.guards| ensures Done(t.c.guards[q], n) {
        assert Done(s.c.guards[q], n);
      }
    }
  }

  /** Every atomic step of every thread keeps the invariant. */
  lemma StepInv(cfg: Config, s: State, a: Action)
    requires cfg.Sound() && Inv(cfg, s)
    ensures Inv(cfg, Next(cfg, s, a))
  {
    match a
    case Check(e) => CheckInv(cfg, s, e);
    case Build => BuildInv(cfg, s);
    case SetCounter => SetCounterInv(cfg, s);
    case Publish => PublishInv(cfg, s);
    case Load(r) => LoadInv(cfg, s, r);
    case Copy(r, k) => CopyInv(cfg, s, r, k);
    case Release(r, k) => ReleaseInv(cfg, s, r, k);
    case Destroy(r, k) => DestroyInv(cfg, s, r, k);
    case Clear(r, k) => ClearInv(cfg, s, r, k);
  }

  /** The invariant holds after every sequence of atomic steps. */
  lemma {:induction false} RunInv(cfg: Config, actions: seq<Action>)
    requires cfg.Sound()
    ensures Inv(cfg, Run(cfg, actions))
  {
    if actions == [] {
      InitInv(cfg);
    } else {
      var before := actions[..|actions| - 1];
      RunInv(cfg, before);
      StepInv(cfg, Run(cfg, before), actions[|actions| - 1]);
    }
  }
}
