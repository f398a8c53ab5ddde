/**
 Why the two bounds in Config.Sound are there: past either of them a concrete
 run breaks the protocol, so each bound is exact.
 */
module One2EachLimits {
  import opened Word
  import opened Common
  import opened One2Each
  import opened One2EachSafety
  import opened One2EachTheorems
  import Broadcast

  /** An uninterrupted try_write on a bucket that reads as empty. */
  function WriteCall(e: Event): seq<Action> {
    [Check(e), Build, SetCounter, Publish]
  }

  /** An uninterrupted try_read by reader r; an object reader keeps its guard. */
  function ReadCall(cfg: Config, r: nat, k: nat): seq<Action> {
    if cfg.kind.Object? then [Load(r)] else [Load(r), Copy(r, k), Release(r, k)]
  }

  lemma {:induction false} RunStep(cfg: Config, actions: seq<Action>, a: Action)
    requires cfg.Shape()
    ensures Run(cfg, actions + [a]) == Next(cfg, Run(cfg, actions), a)
  {
    assert (actions + [a])[..|actions + [a]| - 1] == actions;
  }

  /** What the four steps of a successful try_write leave behind. */
  function Wrote(cfg: Config, s: State, e: Event): State
    requires cfg.Shape() && Shaped(cfg, s.c)
  {
    var b := s.c.writer.bucket;
    var num := Inc(cfg.w, s.c.writer.num);
    State(s.c.(ring := Ring(s.c.ring.seqn[b := Published(cfg.w, s.c.writer.num)],
                            s.c.ring.counter[b := (cfg.readers + cfg.Mark()) % Pow2(cfg.w)],
                            s.c.ring.store[b := Some(e)]),
               writer := Writer(num, Index(cfg.Cap(), num), Idle)),
          s.log + [e])
  }

  /** The writer is between calls, at a bucket that reads as empty. */
  predicate HasRoom(c: Conc) {
    c.writer.bucket < |c.ring.counter| && c.writer.pc.Idle? && c.ring.counter[c.writer.bucket] == 0
  }

  /** What the first two steps leave: the event is in the bucket, unpublished. */
  function Boxed(s: State, e: Event): State
    requires s.c.writer.bucket < |s.c.ring.store|
  {
    s.(c := s.c.(ring := s.c.ring.(store := s.c.ring.store[s.c.writer.bucket := Some(e)]),
                 writer := s.c.writer.(pc := Built(e))))
  }

  lemma BuildSteps(cfg: Config, s: State, e: Event)
    requires cfg.Shape() && Shaped(cfg, s.c) && HasRoom(s.c)
    ensures Shaped(cfg, Next(cfg, s, Check(e)).c) && Next(cfg, Next(cfg, s, Check(e)), Build) == Boxed(s, e)
  {
  }

  lemma PublishSteps(cfg: Config, s: State, e: Event)
    requires cfg.Shape() && Shaped(cfg, s.c) && Shaped(cfg, Boxed(s, e).c)
    ensures Shaped(cfg, Next(cfg, Boxed(s, e), SetCounter).c)
    ensures Next(cfg, Next(cfg, Boxed(s, e), SetCounter), Publish) == Wrote(cfg, s, e)
  {
  }

  lemma {:induction false} BuildRuns(cfg: Config, actions: seq<Action>, e: Event)
    requires cfg.Shape() && HasRoom(Run(cfg, actions).c)
    ensures Run(cfg, actions + [Check(e), Build]) == Boxed(Run(cfg, actions), e)
  {
    RunStep(cfg, actions, Check(e));
    RunStep(cfg, actions + [Check(e)], Build);
    assert actions + [Check(e), Build] == actions + [Check(e)] + [Build];
    BuildSteps(cfg, Run(cfg, actions), e);
  }

  lemma {:induction false} WriteRuns(cfg: Config, actions: seq<Action>, e: Event)
    requires cfg.Shape() && HasRoom(Run(cfg, actions).c)
    ensures Run(cfg, actions + WriteCall(e)) == Wrote(cfg, Run(cfg, actions), e)
  {
    var a2 := actions + [Check(e), Build];
    BuildRuns(cfg, actions, e);
    RunStep(cfg, a2, SetCounter);
    RunStep(cfg, a2 + [SetCounter], Publish);
    assert actions + WriteCall(e) == a2 + [SetCounter] + [Publish];
    PublishSteps(cfg, Run(cfg, actions), e);
  }

  /** The events 0, 1, ... were written j times from the initial state, with nobody reading. */
  predicate AfterWrites(cfg: Config, s: State, j: nat)
    requires cfg.Shape() && Shaped(cfg, s.c)
  {
    && |s.log| == j
    && s.c.writer == Writer(j, Slot(j, cfg.Cap()), Idle)
    && s.c.readers == Init(cfg).c.readers && s.c.guards == Init(cfg).c.guards
    && (forall b | 0 <= b < cfg.Cap() && b < j :: s.c.ring.seqn[b] == b)
    && (forall b | 0 <= b < cfg.Cap() && b < j :: s.c.ring.store[b] == Some(b) && s.log[b] == b)
    && (forall b | 0 <= b < cfg.Cap() ::
          s.c.ring.counter[b] == if b < j then (cfg.readers + cfg.Mark()) % Pow2(cfg.w) else 0)
  }

  lemma WriteNext(cfg: Config, s: State, j: nat)
    requires cfg.Shape() && Shaped(cfg, s.c) && j < cfg.Cap() && AfterWrites(cfg, s, j)
    requires Shaped(cfg, Wrote(cfg, s, j).c)
    ensures AfterWrites(cfg, Wrote(cfg, s, j), j + 1)
  {
    SmallNumber(cfg.w, cfg.bits, j);
  }

  lemma NothingWritten(cfg: Config) returns (actions: seq<Action>)
    requires cfg.Shape()
    ensures AfterWrites(cfg, Run(cfg, actions), 0)
  {
    actions := [];
  }

  lemma StillRoom(cfg: Config, s: State, j: nat)
    requires cfg.Shape() && Shaped(cfg, s.c) && j < cfg.Cap() && AfterWrites(cfg, s, j)
    ensures HasRoom(s.c)
  {
  }

  lemma {:induction false} OneMoreWrite(cfg: Config, before: seq<Action>, j: nat) returns (actions: seq<Action>)
    requires cfg.Shape() && j < cfg.Cap() && AfterWrites(cfg, Run(cfg, before), j)
    ensures AfterWrites(cfg, Run(cfg, actions), j + 1)
  {
    StillRoom(cfg, Run(cfg, before), j);
    WriteRuns(cfg, before, j);
    WriteNext(cfg, Run(cfg, before), j);
    actions := before + WriteCall(j);
  }

  lemma {:induction false} FillRing(cfg: Config, j: nat) returns (actions: seq<Action>)
    requires cfg.Shape() && j <= cfg.Cap()
    ensures AfterWrites(cfg, Run(cfg, actions), j)
  {
    if j == 0 {
      actions := NothingWritten(cfg);
    } else {
      var before := FillRing(cfg, j - 1);
      actions := OneMoreWrite(cfg, before, j - 1);
    }
  }

  /** A full ring of which reader 0 has taken i events, and nobody else any. */
  predicate AfterReads(cfg: Config, s: State, i: nat)
    requires cfg.Shape() && Shaped(cfg, s.c)
  {
    && |s.log| == cfg.Cap()
    && s.c.readers[0] == Reader(i, Slot(i, cfg.Cap()))
    && |s.c.guards[0]| == i
    && MayLoad(cfg, s.c, 0)
    && (forall b | 0 <= b < cfg.Cap() ::
          s.c.ring.seqn[b] == b && s.c.ring.store[b] == Some(b) && s.log[b] == b)
    && (forall k | 0 <= k < i :: s.c.guards[0][k].bucket == k)
  }

  lemma ReadLoads(cfg: Config, s: State, i: nat)
    requires cfg.Shape() && Shaped(cfg, s.c) && i < cfg.Cap() && AfterReads(cfg, s, i)
    ensures var t := Next(cfg, s, Load(0));
            && t.log == s.log && t.c.ring == s.c.ring
            && t.c.readers[0] == Reader(i + 1, Slot(i + 1, cfg.Cap()))
            && t.c.guards[0] == s.c.guards[0] + [Guard(i, Held)]
  {
    SmallNumber(cfg.w, cfg.bits, i);
  }

  lemma PodReturns(cfg: Config, s: State, i: nat)
    requires cfg.Shape() && Shaped(cfg, s.c) && cfg.kind.Pod?
    requires |s.c.guards[0]| == i + 1 && s.c.guards[0][i].phase.Held?
    ensures Shaped(cfg, Step(cfg, s.c, Copy(0, i)))
    ensures var t := Next(cfg, Next(cfg, s, Copy(0, i)), Release(0, i));
            && t.log == s.log && t.c.readers == s.c.readers
            && t.c.ring.seqn == s.c.ring.seqn && t.c.ring.store == s.c.ring.store
            && t.c.guards[0] == s.c.guards[0][i := Guard(s.c.guards[0][i].bucket, Released)]
  {
    StepShaped(cfg, s.c, Copy(0, i));
  }

  /** Reader 0 took its next event, in a pod channel without having given it back. */
  predicate MidRead(cfg: Config, s: State, i: nat)
    requires cfg.Shape() && Shaped(cfg, s.c)
  {
    && |s.log| == cfg.Cap()
    && s.c.readers[0] == Reader(i, Slot(i, cfg.Cap()))
    && |s.c.guards[0]| == i
    && (forall b | 0 <= b < cfg.Cap() ::
          s.c.ring.seqn[b] == b && s.c.ring.store[b] == Some(b) && s.log[b] == b)
    && (forall k | 0 <= k < i :: s.c.guards[0][k].bucket == k)
  }

  lemma LoadsMid(cfg: Config, s: State, i: nat)
    requires cfg.Shape() && Shaped(cfg, s.c) && i < cfg.Cap() && AfterReads(cfg, s, i)
    ensures Shaped(cfg, Next(cfg, s, Load(0)).c) && MidRead(cfg, Next(cfg, s, Load(0)), i + 1)
    ensures Next(cfg, s, Load(0)).c.guards[0][i].phase.Held?
  {
    StepShaped(cfg, s.c, Load(0));
    ReadLoads(cfg, s, i);
  }

  lemma ReturnsAfter(cfg: Config, s: State, i: nat)
    requires cfg.Shape() && Shaped(cfg, s.c) && cfg.kind.Pod? && MidRead(cfg, s, i + 1) && s.c.guards[0][i].phase.Held?
    ensures Shaped(cfg, Next(cfg, s, Copy(0, i)).c)
    ensures Shaped(cfg, Next(cfg, Next(cfg, s, Copy(0, i)), Release(0, i)).c)
    ensures AfterReads(cfg, Next(cfg, Next(cfg, s, Copy(0, i)), Release(0, i)), i + 1)
  {
    StepShaped(cfg, s.c, Copy(0, i));
    StepShaped(cfg, Next(cfg, s, Copy(0, i)).c, Release(0, i));
    PodReturns(cfg, s, i);
  }

  lemma {:induction false} LoadRuns(cfg: Config, actions: seq<Action>, i: nat)
    requires cfg.Shape() && i < cfg.Cap() && AfterReads(cfg, Run(cfg, actions), i)
    ensures MidRead(cfg, Run(cfg, actions + [Load(0)]), i + 1)
    ensures Run(cfg, actions + [Load(0)]).c.guards[0][i].phase.Held?
  {
    RunStep(cfg, actions, Load(0));
    LoadsMid(cfg, Run(cfg, actions), i);
  }

  lemma {:induction false} ReturnRuns(cfg: Config, actions: seq<Action>, i: nat)
    requires cfg.Shape() && cfg.kind.Pod? && MidRead(cfg, Run(cfg, actions), i + 1)
    requires Run(cfg, actions).c.guards[0][i].phase.Held?
    ensures AfterReads(cfg, Run(cfg, actions + [Copy(0, i)] + [Release(0, i)]), i + 1)
  {
    RunStep(cfg, actions, Copy(0, i));
    RunStep(cfg, actions + [Copy(0, i)], Release(0, i));
    ReturnsAfter(cfg, Run(cfg, actions), i);
  }

  lemma {:induction false} ReadRuns(cfg: Config, actions: seq<Action>, i: nat)
    requires cfg.Shape() && i < cfg.Cap() && AfterReads(cfg, Run(cfg, actions), i)
    ensures AfterReads(cfg, Run(cfg, actions + ReadCall(cfg, 0, i)), i + 1)
  {
    LoadRuns(cfg, actions, i);
    if cfg.kind.Pod? {
      ReturnRuns(cfg, actions + [Load(0)], i);
      assert actions + ReadCall(cfg, 0, i) == actions + [Load(0)] + [Copy(0, i)] + [Release(0, i)];
    }
  }

  lemma NothingRead(cfg: Config, s: State)
    requires cfg.Shape() && Shaped(cfg, s.c) && AfterWrites(cfg, s, cfg.Cap())
    ensures AfterReads(cfg, s, 0)
  {
  }

  lemma {:induction false} FilledRing(cfg: Config) returns (actions: seq<Action>)
    requires cfg.Shape()
    ensures AfterReads(cfg, Run(cfg, actions), 0)
  {
    actions := FillRing(cfg, cfg.Cap());
    NothingRead(cfg, Run(cfg, actions));
  }

  lemma {:induction false} DrainRing(cfg: Config, i: nat) returns (actions: seq<Action>)
    requires cfg.Shape() && i <= cfg.Cap()
    ensures AfterReads(cfg, Run(cfg, actions), i)
  {
    if i == 0 {
      actions := FilledRing(cfg);
    } else {
      var before := DrainRing(cfg, i - 1);
      ReadRuns(cfg, before, i - 1);
      actions := before + ReadCall(cfg, 0, i - 1);
    }
  }

  /** One load more than was written hands out bucket 0 again. */
  lemma LoadsAgain(cfg: Config, s: State)
    requires cfg.Shape() && Shaped(cfg, s.c) && cfg.bits == cfg.w - 1 && AfterReads(cfg, s, cfg.Cap())
    ensures var t := Next(cfg, s, Load(0));
            && t.log == s.log && t.c.ring == s.c.ring
            && t.c.guards[0] == s.c.guards[0] + [Guard(0, Held)]
  {
    PublishedRepeats(cfg.w);
  }

  /** With 2^(w-1) buckets, a reader that has taken the whole first lap is handed event 0 again, from bucket 0. */
  lemma StaleReread(cfg: Config) returns (actions: seq<Action>)
    requires cfg.Shape() && cfg.bits == cfg.w - 1
    ensures var s := Run(cfg, actions);
            && |s.log| == cfg.Cap() && (forall n | 0 <= n < |s.log| :: s.log[n] == n)
            && |s.c.guards[0]| == cfg.Cap() + 1
            && s.c.guards[0][0].bucket == s.c.guards[0][cfg.Cap()].bucket == 0
            && s.c.ring.store[0] == Some(0)
  {
    var before := DrainRing(cfg, cfg.Cap());
    actions := before + [Load(0)];
    RunStep(cfg, before, Load(0));
    LoadsAgain(cfg, Run(cfg, before));
  }

  /** No reader ever takes more than was written iff the capacity is at most 2^(w-2). */
  lemma CapacityBoundIsExact(cfg: Config)
    requires cfg.Shape() && cfg.readers + cfg.Mark() < Pow2(cfg.w)
    ensures (forall actions: seq<Action>, r: nat | r < cfg.readers ::
               |Run(cfg, actions).c.guards[r]| <= |Run(cfg, actions).log|)
            <==> cfg.bits <= cfg.w - 2
  {
    if cfg.bits <= cfg.w - 2 {
      forall actions: seq<Action>, r: nat | r < cfg.readers
        ensures |Run(cfg, actions).c.guards[r]| <= |Run(cfg, actions).log|
      {
        RunInv(cfg, actions);
        assert ReaderOk(cfg, Run(cfg, actions), r);
      }
    } else {
      var actions := StaleReread(cfg);
      assert |Run(cfg, actions).c.guards[0]| > |Run(cfg, actions).log|;
    }
  }

  lemma WrappedRoom(cfg: Config, s: State)
    requires cfg.Shape() && Shaped(cfg, s.c) && AfterWrites(cfg, s, cfg.Cap())
    requires cfg.readers + cfg.Mark() == Pow2(cfg.w)
    ensures HasRoom(s.c)
  {
    AddMultiple(0, Pow2(cfg.w), 1);
    SmallMod(0, Pow2(cfg.w));
  }

  /** With readers + mark == 2^w the stored counter wraps to EMPTY and the writer laps readers that took nothing. */
  lemma CounterWraps(cfg: Config) returns (actions: seq<Action>)
    requires cfg.Shape() && cfg.readers + cfg.Mark() == Pow2(cfg.w)
    ensures |Run(cfg, actions).log| == cfg.Cap() + 1 && Run(cfg, actions).c.guards[0] == []
  {
    var before := FillRing(cfg, cfg.Cap());
    WrappedRoom(cfg, Run(cfg, before));
    WriteRuns(cfg, before, 0);
    actions := before + WriteCall(0);
  }

  /** No reader is ever lapped iff the initial counter fits its w bits. */
  lemma ReadersBoundIsExact(cfg: Config)
    requires cfg.Shape() && cfg.bits <= cfg.w - 2 && cfg.readers + cfg.Mark() <= Pow2(cfg.w)
    ensures (forall actions: seq<Action>, r: nat | r < cfg.readers ::
               |Run(cfg, actions).log| <= |Run(cfg, actions).c.guards[r]| + cfg.Cap())
            <==> cfg.readers + cfg.Mark() < Pow2(cfg.w)
  {
    if cfg.readers + cfg.Mark() < Pow2(cfg.w) {
      forall actions: seq<Action>, r: nat | r < cfg.readers
        ensures |Run(cfg, actions).log| <= |Run(cfg, actions).c.guards[r]| + cfg.Cap()
      {
        RunRefines(cfg, actions);
        Broadcast.LegalWindow(cfg.Cap(), cfg.readers, Ops(cfg, actions));
        assert |Abs(Run(cfg, actions)).returned[r]| == |Run(cfg, actions).c.guards[r]|;
      }
    } else {
      var actions := CounterWraps(cfg);
      assert |Run(cfg, actions).log| > |Run(cfg, actions).c.guards[0]| + cfg.Cap();
    }
  }

  /** Of the counter types and reader counts the factory accepts, only 8 bits with 255 object readers wraps. */
  lemma OnlyByteCountersWrap(cfg: Config)
    requires cfg.w >= 8 && 1 <= cfg.readers <= 255
    ensures cfg.readers + cfg.Mark() <= Pow2(cfg.w)
    ensures cfg.readers + cfg.Mark() == Pow2(cfg.w) <==> cfg.w == 8 && cfg.readers == 255 && cfg.kind.Object?
  {
    ByteHolds255(cfg.w);
    if cfg.w > 8 { Pow2Monotone(8, cfg.w); }
  }
}
