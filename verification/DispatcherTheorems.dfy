/** Delivery, accounting, starvation and emptiness over every interleaving of the dispatcher and the clients. */
module DispatcherTheorems {
  import opened Common
  import opened Dispatcher
  import opened RoundRobin
  import A = Adapter
  import Q = One2One
  import SQ = SlabQueue

  // ---------------------------------------------------------------- one client

  /** How far the dispatcher is with a client's queue. Read: it holds an event the listener does not know yet. */
  datatype Stage = Closed | Read | Shown | Spent

  function LastGuard(stage: Stage): Option<Q.Phase> {
    match stage
    case Closed => None
    case Read => Some(Q.Held)
    case Shown => Some(Q.Held)
    case Spent => Some(Q.Spent)
  }

  /** The queue is sound, and the listener was told exactly the events taken from it, but for the one just read. */
  predicate Served(cfg: SQ.Config, q: SQ.State, stage: Stage, told: seq<Event>) {
    && QueueOk(cfg, q, LastGuard(stage))
    && told <= q.accepted && |told| == |q.q.c.guards| - (if stage.Read? then 1 else 0)
  }

  lemma {:induction false} ServedProduces(cfg: SQ.Config, q: SQ.State, stage: Stage, told: seq<Event>, a: SQ.Action)
    requires cfg.Sound() && Served(cfg, q, stage, told) && Produces(a)
    ensures Served(cfg, SQ.Next(cfg, q, a), stage, told)
    ensures q.accepted <= SQ.Next(cfg, q, a).accepted
  {
    StepOk(cfg, q, a);
    ProducerKeepsGuards(cfg, q, a);
  }

  lemma {:induction false} ServedProbe(cfg: SQ.Config, q: SQ.State, told: seq<Event>)
    requires cfg.Sound() && Served(cfg, q, Closed, told)
    ensures var t := SQ.Next(cfg, q, SQ.Load);
            && t.accepted == q.accepted
            && (told == q.accepted ==> t == q)
            && (told != q.accepted ==> |t.q.c.guards| == |q.q.c.guards| + 1 && Served(cfg, t, Read, told))
  {
    LoadOk(cfg, q);
    if |told| == |q.accepted| { assert told == q.accepted; }
  }

  lemma {:induction false} ServedNotify(cfg: SQ.Config, q: SQ.State, told: seq<Event>)
    requires cfg.Sound() && Served(cfg, q, Read, told)
    ensures |told| < |q.accepted| && Payload(q) == [q.accepted[|told|]]
    ensures Served(cfg, q, Shown, told + Payload(q))
  {
    PayloadIs(cfg, q);
  }

  lemma {:induction false} ServedDrop(cfg: SQ.Config, q: SQ.State, told: seq<Event>)
    requires cfg.Sound() && Served(cfg, q, Shown, told)
    ensures q.q.c.guards != [] && SQ.Next(cfg, q, SQ.Finish(|q.q.c.guards| - 1)).accepted == q.accepted
    ensures Served(cfg, SQ.Next(cfg, q, SQ.Finish(|q.q.c.guards| - 1)), Spent, told)
  {
    FinishOk(cfg, q);
  }

  lemma {:induction false} ServedFree(cfg: SQ.Config, q: SQ.State, told: seq<Event>)
    requires cfg.Sound() && Served(cfg, q, Spent, told)
    ensures q.q.c.guards != [] && SQ.Next(cfg, q, SQ.Free(|q.q.c.guards| - 1)).accepted == q.accepted
    ensures Served(cfg, SQ.Next(cfg, q, SQ.Free(|q.q.c.guards| - 1)), Closed, told)
  {
    FreeOk(cfg, q);
  }

  // ---------------------------------------------------------------- invariant

  function StageOf(cfg: Config, s: State, c: nat): Stage
    requires cfg.Shape()
  {
    match s.phase
    case Notifying(i) => if Client(cfg, s, i) == c then Read else Closed
    case Dropping(i) => if Client(cfg, s, i) == c then Shown else Closed
    case Freeing(i) => if Client(cfg, s, i) == c then Spent else Closed
    case _ => Closed
  }

  predicate ClientOk(cfg: Config, s: State, c: nat)
    requires Shaped(cfg, s) && c < cfg.clients
  {
    Served(cfg.slab, s.qs[c], StageOf(cfg, s, c), A.From(s.out, c))
  }

  predicate Inv(cfg: Config, s: State) {
    && Shaped(cfg, s) && s.cindex < cfg.clients && PhaseOk(cfg.clients, s.phase)
    && forall c: nat | c < cfg.clients :: ClientOk(cfg, s, c)
  }

  lemma InitInv(cfg: Config)
    requires cfg.Sound()
    ensures Inv(cfg, Init(cfg))
  {
    SQ.InitInv(cfg.slab);
  }

  /** Accepted events of client c the listener was not notified of. */
  function Waiting(s: State, c: nat): int
    requires c < |s.qs|
  {
    |s.qs[c].accepted| - |A.From(s.out, c)|
  }

  /** What the round-robin is about; the queues' buckets and slabs are left out. */
  function LedgerOf(s: State): Ledger {
    Ledger(s.cindex, s.phase, s.ended, s.out, seq(|s.qs|, c requires 0 <= c < |s.qs| => s.qs[c].accepted))
  }

  /** Only client c's queue changed, and only its stage. */
  predicate Touches(cfg: Config, s: State, t: State, c: nat)
    requires Shaped(cfg, s) && Shaped(cfg, t) && c < cfg.clients
  {
    && t.qs == s.qs[c := t.qs[c]] && t.cindex == s.cindex
    && forall b: nat | b < cfg.clients && b != c ::
         StageOf(cfg, t, b) == StageOf(cfg, s, b) && A.From(t.out, b) == A.From(s.out, b)
  }

  lemma TouchesInv(cfg: Config, s: State, t: State, c: nat)
    requires Inv(cfg, s) && Shaped(cfg, t) && c < cfg.clients && Touches(cfg, s, t, c)
    requires PhaseOk(cfg.clients, t.phase) && ClientOk(cfg, t, c)
    ensures Inv(cfg, t)
    ensures t.qs[c].accepted == s.qs[c].accepted ==> LedgerOf(t).accepted == LedgerOf(s).accepted
  {
    forall b: nat | b < cfg.clients ensures ClientOk(cfg, t, b) {
      if b != c { assert ClientOk(cfg, s, b) && t.qs[b] == s.qs[b]; }
    }
  }

  /** The ledger of a sound state. */
  lemma LedgerOk(cfg: Config, s: State)
    requires cfg.Sound() && Inv(cfg, s)
    ensures Ok(cfg.clients, LedgerOf(s))
  {
    forall c: nat | c < cfg.clients ensures Told(LedgerOf(s), c) <= |s.qs[c].accepted| {
      assert ClientOk(cfg, s, c);
    }
    if s.phase.Notifying? { NotifyHas(cfg, s); }
  }

  lemma NotifyHas(cfg: Config, s: State)
    requires cfg.Sound() && Inv(cfg, s) && s.phase.Notifying?
    ensures Waiting(s, Client(cfg, s, s.phase.i)) > 0
    ensures Payload(s.qs[Client(cfg, s, s.phase.i)])
         == [s.qs[Client(cfg, s, s.phase.i)].accepted[|A.From(s.out, Client(cfg, s, s.phase.i))|]]
  {
    var c := Client(cfg, s, s.phase.i);
    assert ClientOk(cfg, s, c);
    ServedNotify(cfg.slab, s.qs[c], A.From(s.out, c));
  }

  /** t is sound, and the dispatcher made the step from s that the round-robin says. */
  predicate Turned(cfg: Config, s: State, t: State)
    requires cfg.Sound() && Inv(cfg, s) && Shaped(cfg, t)
  {
    LedgerOk(cfg, s);
    Inv(cfg, t) && LedgerOf(t) == Turn(cfg.clients, LedgerOf(s))
  }

  /** A client's own steps only add to what was accepted. */
  lemma LogMoves(cfg: Config, s: State, c: nat, step: SQ.Action)
    requires cfg.Sound() && Inv(cfg, s) && c < cfg.clients && Produces(step)
    ensures var t := Next(cfg, s, Log(c, step));
            Inv(cfg, t) && Ok(cfg.clients, LedgerOf(s)) && Accepts(cfg.clients, LedgerOf(s), LedgerOf(t))
  {
    assert ClientOk(cfg, s, c);
    ServedProduces(cfg.slab, s.qs[c], StageOf(cfg, s, c), A.From(s.out, c), step);
    LogAccepts(cfg, s, Next(cfg, s, Log(c, step)), c);
  }

  lemma LogAccepts(cfg: Config, s: State, t: State, c: nat)
    requires cfg.Sound() && Inv(cfg, s) && Shaped(cfg, t) && c < cfg.clients
    requires t == s.(qs := s.qs[c := t.qs[c]]) && ClientOk(cfg, t, c) && s.qs[c].accepted <= t.qs[c].accepted
    ensures Inv(cfg, t) && Ok(cfg.clients, LedgerOf(s)) && Accepts(cfg.clients, LedgerOf(s), LedgerOf(t))
  {
    LedgerOk(cfg, s);
    TouchesInv(cfg, s, t, c);
  }

  /** A probe goes on iff the client's queue is empty at this moment. */
  lemma ProbeMoves(cfg: Config, s: State)
    requires cfg.Sound() && Inv(cfg, s) && s.phase.Scanning?
    ensures Turned(cfg, s, ProbeStep(cfg, s))
  {
    var t := ProbeStep(cfg, s);
    LedgerOk(cfg, s);
    if s.phase.i >= cfg.clients {
      PhaseInv(cfg, s, t);
    } else {
      var c := Client(cfg, s, s.phase.i);
      assert ClientOk(cfg, s, c);
      ServedProbe(cfg.slab, s.qs[c], A.From(s.out, c));
      TouchesInv(cfg, s, t, c);
    }
  }

  /** The listener is told the client's oldest event it does not know. */
  lemma NotifyMoves(cfg: Config, s: State)
    requires cfg.Sound() && Inv(cfg, s) && s.phase.Notifying?
    ensures Turned(cfg, s, NotifyStep(cfg, s))
  {
    var t, c := NotifyStep(cfg, s), Client(cfg, s, s.phase.i);
    LedgerOk(cfg, s);
    assert ClientOk(cfg, s, c);
    ServedNotify(cfg.slab, s.qs[c], A.From(s.out, c));
    forall b ensures A.From(t.out, b) == A.From(s.out, b) + (if b == c then Payload(s.qs[c]) else []) {
      FromOne(s.out, c, Payload(s.qs[c])[0], b);
    }
    TouchesInv(cfg, s, t, c);
  }

  /** Dropping the guard's event: what the step changes. */
  lemma DropEffect(cfg: Config, s: State)
    requires Shaped(cfg, s) && s.phase.Dropping? && Guards(s, Client(cfg, s, s.phase.i)) != []
    ensures var t, c := Next(cfg, s, Drop), Client(cfg, s, s.phase.i);
            && t == s.(qs := t.qs, phase := Freeing(s.phase.i))
            && Touches(cfg, s, t, c) && StageOf(cfg, t, c) == Spent
            && t.qs[c] == SQ.Next(cfg.slab, s.qs[c], SQ.Finish(|Guards(s, c)| - 1))
  {
  }

  lemma DropMoves(cfg: Config, s: State)
    requires cfg.Sound() && Inv(cfg, s) && s.phase.Dropping?
    ensures Turned(cfg, s, Next(cfg, s, Drop))
  {
    var c := Client(cfg, s, s.phase.i);
    assert ClientOk(cfg, s, c);
    ServedDrop(cfg.slab, s.qs[c], A.From(s.out, c));
    DropEffect(cfg, s);
    PhaseTurned(cfg, s, Next(cfg, s, Drop), c);
  }

  lemma FreeEffect(cfg: Config, s: State)
    requires Shaped(cfg, s) && s.phase.Freeing? && Guards(s, Client(cfg, s, s.phase.i)) != []
    ensures var t, c := Next(cfg, s, Free), Client(cfg, s, s.phase.i);
            && t == s.(qs := t.qs, phase := Advancing(s.phase.i))
            && Touches(cfg, s, t, c) && StageOf(cfg, t, c) == Closed
            && t.qs[c] == SQ.Next(cfg.slab, s.qs[c], SQ.Free(|Guards(s, c)| - 1))
  {
  }

  lemma FreeMoves(cfg: Config, s: State)
    requires cfg.Sound() && Inv(cfg, s) && s.phase.Freeing?
    ensures Turned(cfg, s, Next(cfg, s, Free))
  {
    var c := Client(cfg, s, s.phase.i);
    assert ClientOk(cfg, s, c);
    ServedFree(cfg.slab, s.qs[c], A.From(s.out, c));
    FreeEffect(cfg, s);
    PhaseTurned(cfg, s, Next(cfg, s, Free), c);
  }

  /** A step of a guard's destructor on client c's queue. */
  lemma PhaseTurned(cfg: Config, s: State, t: State, c: nat)
    requires cfg.Sound() && Inv(cfg, s) && Shaped(cfg, t) && c < cfg.clients && Touches(cfg, s, t, c)
    requires ClientOk(cfg, t, c) && t.qs[c].accepted == s.qs[c].accepted
    requires s.phase.Dropping? || s.phase.Freeing?
    requires t == s.(qs := t.qs, phase := if s.phase.Dropping? then Freeing(s.phase.i) else Advancing(s.phase.i))
    ensures Turned(cfg, s, t)
  {
    LedgerOk(cfg, s);
    TouchesInv(cfg, s, t, c);
  }

  /** A step that touches no queue. */
  lemma PhaseInv(cfg: Config, s: State, t: State)
    requires Inv(cfg, s) && t.qs == s.qs && t.out == s.out && t.cindex < cfg.clients
    requires PhaseOk(cfg.clients, t.phase)
    requires forall b: nat | b < cfg.clients :: StageOf(cfg, t, b) == StageOf(cfg, s, b)
    ensures Inv(cfg, t)
  {
    forall b: nat | b < cfg.clients ensures ClientOk(cfg, t, b) { assert ClientOk(cfg, s, b); }
  }

  lemma PhaseMoves(cfg: Config, s: State, a: Action)
    requires cfg.Sound() && Inv(cfg, s)
    requires (a.Begin? && (s.phase.Idle? || s.phase.Returned?)) || (a.Advance? && s.phase.Advancing?)
    ensures Turned(cfg, s, Next(cfg, s, a))
  {
    LedgerOk(cfg, s);
    PhaseInv(cfg, s, Next(cfg, s, a));
  }

  /** Is a the step the dispatcher is at? */
  predicate Due(phase: Phase, a: Action) {
    match a
    case Log(_, _) => false
    case Begin => phase.Idle? || phase.Returned?
    case Probe => phase.Scanning?
    case Notify => phase.Notifying?
    case Drop => phase.Dropping?
    case Free => phase.Freeing?
    case Advance => phase.Advancing?
  }

  lemma DueTurns(cfg: Config, s: State, a: Action)
    requires cfg.Sound() && Inv(cfg, s) && Due(s.phase, a)
    ensures Turned(cfg, s, Next(cfg, s, a))
  {
    match a
    case Begin => PhaseMoves(cfg, s, a);
    case Probe => ProbeMoves(cfg, s);
    case Notify => NotifyMoves(cfg, s);
    case Drop => DropMoves(cfg, s);
    case Free => FreeMoves(cfg, s);
    case Advance => PhaseMoves(cfg, s, a);
  }

  /** Every atomic step of every thread keeps the invariant, and is a step of the round-robin or adds to a queue. */
  lemma StepMoves(cfg: Config, s: State, a: Action)
    requires cfg.Sound() && Inv(cfg, s)
    ensures var t := Next(cfg, s, a);
            Inv(cfg, t) && Ok(cfg.clients, LedgerOf(s)) && Moves(cfg.clients, LedgerOf(s), LedgerOf(t))
  {
    LedgerOk(cfg, s);
    if a.Log? && a.c < cfg.clients && Produces(a.step) {
      LogMoves(cfg, s, a.c, a.step);
    } else if Due(s.phase, a) {
      DueTurns(cfg, s, a);
    } else {
      assert Next(cfg, s, a) == s;
    }
  }

  lemma {:induction false} RunInv(cfg: Config, actions: seq<Action>)
    requires cfg.Sound()
    ensures Inv(cfg, Run(cfg, actions))
  {
    if actions == [] {
      InitInv(cfg);
    } else {
      RunInv(cfg, actions[..|actions| - 1]);
      StepMoves(cfg, Run(cfg, actions[..|actions| - 1]), actions[|actions| - 1]);
    }
  }

  /** The ledgers of the states from `before` on. */
  function Ledgers(cfg: Config, before: seq<Action>, actions: seq<Action>): (ls: seq<Ledger>)
    requires cfg.Shape()
    ensures |ls| == |actions| + 1
    ensures forall x: nat | x < |ls| :: ls[x] == LedgerOf(Run(cfg, before + actions[..x]))
  {
    seq(|actions| + 1, x requires 0 <= x <= |actions| => LedgerOf(Run(cfg, before + actions[..x])))
  }

  /** Every run is a path of ledgers. */
  lemma {:induction false} RunPath(cfg: Config, before: seq<Action>, actions: seq<Action>)
    requires cfg.Sound()
    ensures Path(cfg.clients, Ledgers(cfg, before, actions))
  {
    var ls := Ledgers(cfg, before, actions);
    forall x: nat | x < |ls| ensures Ok(cfg.clients, ls[x]) {
      RunInv(cfg, before + actions[..x]);
      LedgerOk(cfg, Run(cfg, before + actions[..x]));
    }
    forall x, y | 0 <= x && y == x + 1 < |ls| ensures Moves(cfg.clients, ls[x], ls[y]) {
      StepOfRun(cfg, before, actions, x);
    }
  }

  lemma {:induction false} RunStep(cfg: Config, actions: seq<Action>, a: Action)
    requires cfg.Shape()
    ensures Run(cfg, actions + [a]) == Next(cfg, Run(cfg, actions), a)
  {
    assert (actions + [a])[..|actions + [a]| - 1] == actions;
  }

  lemma {:induction false} RunMoves(cfg: Config, actions: seq<Action>, a: Action)
    requires cfg.Sound()
    ensures var l, n := LedgerOf(Run(cfg, actions)), LedgerOf(Next(cfg, Run(cfg, actions), a));
            Ok(cfg.clients, l) && Moves(cfg.clients, l, n)
  {
    RunInv(cfg, actions);
    StepMoves(cfg, Run(cfg, actions), a);
  }

  lemma {:induction false} StepOfRun(cfg: Config, before: seq<Action>, actions: seq<Action>, x: nat)
    requires cfg.Sound() && x < |actions|
    ensures var l, n := LedgerOf(Run(cfg, before + actions[..x])), LedgerOf(Run(cfg, before + actions[..x + 1]));
            Ok(cfg.clients, l) && Moves(cfg.clients, l, n)
  {
    var b := before + actions[..x];
    assert before + actions[..x + 1] == b + [actions[x]];
    RunStep(cfg, b, actions[x]);
    RunMoves(cfg, b, actions[x]);
  }

  // ---------------------------------------------------------------- results

  /**
   At every moment of every run, the listener was notified of a prefix of each client's accepted
   events, and each attempt was delivered, is pending, was lost, or is still being made.
   */
  lemma {:induction false} Accounting(cfg: Config, actions: seq<Action>, c: nat)
    requires cfg.Sound() && c < cfg.clients
    ensures var s := Run(cfg, actions);
            && A.From(s.out, c) <= s.qs[c].accepted
            && s.qs[c].attempts == |A.From(s.out, c)| + Waiting(s, c) + s.qs[c].lost
                                   + (if SQ.Filling(s.qs[c]) then 1 else 0)
  {
    RunInv(cfg, actions);
    assert ClientOk(cfg, Run(cfg, actions), c);
  }

  lemma {:induction false} Ends(cfg: Config, before: seq<Action>, actions: seq<Action>)
    requires cfg.Shape()
    ensures Ledgers(cfg, before, actions)[0] == LedgerOf(Run(cfg, before))
    ensures Ledgers(cfg, before, actions)[|actions|] == LedgerOf(Run(cfg, before + actions))
  {
    assert before + actions[..0] == before && actions[..|actions|] == actions;
  }

  /** Client j's distance from the cursor plus one, so at most M, between calls; at most M + 1 inside one. */
  function CallsNeeded(cfg: Config, before: seq<Action>, j: nat): (n: nat)
    requires cfg.Sound() && j < cfg.clients
    ensures var s := Run(cfg, before);
            1 <= n <= cfg.clients + (if s.phase.Idle? || s.phase.Returned? then 0 else 1)
  {
    RunInv(cfg, before);
    LedgerOk(cfg, Run(cfg, before));
    Need(cfg.clients, LedgerOf(Run(cfg, before)), j)
  }

  /**
   Starvation bound for M clients, in every interleaving: k events that are pending for client j
   are told to the listener by the time CallsNeeded + (k - 1) * M more calls of dispatch returned.
   */
  lemma {:induction false} ServedInTime(cfg: Config, before: seq<Action>, actions: seq<Action>, j: nat, k: nat)
    requires cfg.Sound() && j < cfg.clients && 1 <= k <= Waiting(Run(cfg, before), j)
    requires Run(cfg, before + actions).ended
          >= Run(cfg, before).ended + CallsNeeded(cfg, before, j) + (k - 1) * cfg.clients
    ensures |A.From(Run(cfg, before + actions).out, j)| >= |A.From(Run(cfg, before).out, j)| + k
  {
    RunPath(cfg, before, actions);
    Ends(cfg, before, actions);
    PathServes(cfg.clients, Ledgers(cfg, before, actions), j, k);
  }

  /** A client with something pending is served by M calls that begin and return after that. */
  lemma {:induction false} ServedWithinOneRound(cfg: Config, before: seq<Action>, actions: seq<Action>, j: nat)
    requires cfg.Sound() && j < cfg.clients && Waiting(Run(cfg, before), j) > 0
    requires Run(cfg, before).phase.Idle? || Run(cfg, before).phase.Returned?
    requires Run(cfg, before + actions).ended >= Run(cfg, before).ended + cfg.clients
    ensures |A.From(Run(cfg, before + actions).out, j)| > |A.From(Run(cfg, before).out, j)|
  {
    ServedInTime(cfg, before, actions, j, 1);
  }

  /** When dispatch returns false, each client's queue was empty at a moment of this very call. */
  lemma {:induction false} FalseSawEachEmpty(cfg: Config, actions: seq<Action>, c: nat) returns (n: nat)
    requires cfg.Sound() && Run(cfg, actions).phase == Returned(false) && c < cfg.clients
    ensures n <= |actions|
    ensures var s := Run(cfg, actions[..n]);
            s.phase.Scanning? && s.ended == Run(cfg, actions).ended - 1 && Waiting(s, c) == 0
  {
    RunPath(cfg, [], actions);
    Ends(cfg, [], actions);
    assert [] + actions == actions;
    n := FalseFoundEach(cfg.clients, Ledgers(cfg, [], actions), c);
    assert [] + actions[..n] == actions[..n];
  }
}
