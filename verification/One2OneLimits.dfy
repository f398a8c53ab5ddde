/** Why the capacity stops at 2^(w-2): one doubling further, a run with held guards reads an event twice. */
module One2OneLimits {
  import opened Word
  import opened Common
  import opened One2One
  import opened One2OneSafety

  /** An uninterrupted try_write on a bucket that reads as empty. */
  function WriteCall(e: Event): seq<Action> {
    [Check(e), Build, Publish]
  }

  lemma {:induction false} RunStep(cfg: Config, actions: seq<Action>, a: Action)
    requires cfg.Shape()
    ensures Run(cfg, actions + [a]) == Next(cfg, Run(cfg, actions), a)
  {
    assert (actions + [a])[..|actions + [a]| - 1] == actions;
  }

  /** What the three steps of a successful try_write leave behind. */
  function Wrote(cfg: Config, s: State, e: Event): State
    requires cfg.Shape() && Shaped(cfg, s.c)
  {
    var b := s.c.writer.bucket;
    var num := Inc(cfg.w, s.c.writer.num);
    State(s.c.(ring := Ring(s.c.ring.seqn[b := Published(cfg.w, s.c.writer.num)], s.c.ring.store[b := Some(e)]),
               writer := Writer(num, Index(cfg.Cap(), num), Idle)),
          s.log + [e])
  }

  lemma {:induction false} WriteRuns(cfg: Config, actions: seq<Action>, e: Event)
    requires cfg.Shape()
    requires var c := Run(cfg, actions).c; c.writer.pc.Idle? && c.ring.seqn[c.writer.bucket] == Dummy(cfg.w)
    ensures Run(cfg, actions + WriteCall(e)) == Wrote(cfg, Run(cfg, actions), e)
  {
    var a1 := actions + [Check(e)];
    var a2 := a1 + [Build];
    RunStep(cfg, actions, Check(e));
    RunStep(cfg, a1, Build);
    RunStep(cfg, a2, Publish);
    assert actions + WriteCall(e) == a2 + [Publish];
  }

  /** The events 0, 1, ... were written j times from the initial state; the reader took i and released none. */
  predicate Filled(cfg: Config, s: State, j: nat, i: nat)
    requires cfg.Shape() && Shaped(cfg, s.c)
  {
    && |s.log| == j && |s.c.guards| == i
    && s.c.writer == Writer(j, Slot(j, cfg.Cap()), Idle)
    && s.c.reader == Reader(i, Slot(i, cfg.Cap()))
    && (forall b | 0 <= b < cfg.Cap() :: s.c.ring.seqn[b] == if b < j then b else Dummy(cfg.w))
    && (forall b | 0 <= b < cfg.Cap() && b < j :: s.c.ring.store[b] == Some(b) && s.log[b] == b)
    && (forall k | 0 <= k < i :: s.c.guards[k] == Guard(k, Held))
  }

  lemma WriteNext(cfg: Config, s: State, j: nat)
    requires cfg.Shape() && Shaped(cfg, s.c) && j < cfg.Cap() && Filled(cfg, s, j, 0)
    requires Shaped(cfg, Wrote(cfg, s, j).c)
    ensures Filled(cfg, Wrote(cfg, s, j), j + 1, 0)
  {
    SmallNumber(cfg.w, cfg.bits, j);
  }

  lemma NothingWritten(cfg: Config) returns (actions: seq<Action>)
    requires cfg.Shape()
    ensures Filled(cfg, Run(cfg, actions), 0, 0)
  {
    actions := [];
  }

  lemma StillRoom(cfg: Config, s: State, j: nat)
    requires cfg.Shape() && Shaped(cfg, s.c) && j < cfg.Cap() && Filled(cfg, s, j, 0)
    ensures s.c.writer.pc.Idle? && s.c.ring.seqn[s.c.writer.bucket] == Dummy(cfg.w)
  {
  }

  lemma {:induction false} OneMoreWrite(cfg: Config, before: seq<Action>, j: nat) returns (actions: seq<Action>)
    requires cfg.Shape() && j < cfg.Cap() && Filled(cfg, Run(cfg, before), j, 0)
    ensures Filled(cfg, Run(cfg, actions), j + 1, 0)
  {
    StillRoom(cfg, Run(cfg, before), j);
    WriteRuns(cfg, before, j);
    WriteNext(cfg, Run(cfg, before), j);
    actions := before + WriteCall(j);
  }

  lemma {:induction false} FillRing(cfg: Config, j: nat) returns (actions: seq<Action>)
    requires cfg.Shape() && j <= cfg.Cap()
    ensures Filled(cfg, Run(cfg, actions), j, 0)
  {
    if j == 0 {
      actions := NothingWritten(cfg);
    } else {
      var before := FillRing(cfg, j - 1);
      actions := OneMoreWrite(cfg, before, j - 1);
    }
  }

  lemma TakesNext(cfg: Config, s: State, i: nat)
    requires cfg.Shape() && Shaped(cfg, s.c) && cfg.kind.Object? && i < cfg.Cap() && Filled(cfg, s, cfg.Cap(), i)
    ensures Shaped(cfg, Next(cfg, s, Load).c) && Filled(cfg, Next(cfg, s, Load), cfg.Cap(), i + 1)
  {
    StepShaped(cfg, s.c, Load);
    SmallNumber(cfg.w, cfg.bits, i);
  }

  lemma {:induction false} TakeAll(cfg: Config, i: nat) returns (actions: seq<Action>)
    requires cfg.Shape() && cfg.kind.Object? && i <= cfg.Cap()
    ensures Filled(cfg, Run(cfg, actions), cfg.Cap(), i)
  {
    if i == 0 {
      actions := FillRing(cfg, cfg.Cap());
    } else {
      var before := TakeAll(cfg, i - 1);
      actions := before + [Load];
      RunStep(cfg, before, Load);
      TakesNext(cfg, Run(cfg, before), i - 1);
    }
  }

  /** One load more than was written hands out bucket 0 again. */
  lemma TakesAgain(cfg: Config, s: State)
    requires cfg.Shape() && Shaped(cfg, s.c) && cfg.kind.Object? && cfg.bits == cfg.w - 1
    requires Filled(cfg, s, cfg.Cap(), cfg.Cap())
    ensures var t := Next(cfg, s, Load);
            t.log == s.log && t.c.ring == s.c.ring && t.c.guards == s.c.guards + [Guard(0, Held)]
  {
    PublishedRepeats(cfg.w);
  }

  /** With 2^(w-1) buckets and every guard held, the reader is handed event 0 a second time, from bucket 0. */
  lemma StaleReread(cfg: Config) returns (actions: seq<Action>)
    requires cfg.Shape() && cfg.kind.Object? && cfg.bits == cfg.w - 1
    ensures var s := Run(cfg, actions);
            && |s.log| == cfg.Cap() && (forall n | 0 <= n < |s.log| :: s.log[n] == n)
            && |s.c.guards| == cfg.Cap() + 1
            && s.c.guards[0] == s.c.guards[cfg.Cap()] == Guard(0, Held)
            && s.c.ring.store[0] == Some(0)
  {
    var before := TakeAll(cfg, cfg.Cap());
    actions := before + [Load];
    RunStep(cfg, before, Load);
    TakesAgain(cfg, Run(cfg, before));
  }

  /** The reader never takes more than was written iff it copies, or the capacity is at most 2^(w-2). */
  lemma CapacityBoundIsExact(cfg: Config)
    requires cfg.Shape()
    ensures (forall actions: seq<Action> :: |Run(cfg, actions).c.guards| <= |Run(cfg, actions).log|)
            <==> (cfg.kind.Pod? || cfg.bits <= cfg.w - 2)
  {
    if cfg.Sound() {
      forall actions: seq<Action> ensures |Run(cfg, actions).c.guards| <= |Run(cfg, actions).log| {
        RunInv(cfg, actions);
      }
    } else {
      var actions := StaleReread(cfg);
      assert |Run(cfg, actions).c.guards| > |Run(cfg, actions).log|;
    }
  }
}
