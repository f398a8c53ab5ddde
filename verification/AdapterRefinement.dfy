/**
 When calls do not overlap, the adapter of module Adapter is what the queues, slab pools, boxes and
 the dispatcher are: its list-valued clients are an abstraction of the slab queues, and its operations
 are uninterrupted runs of their atomic steps.
 */
module AdapterRefinement {
  import opened Common
  import opened Dispatcher
  import opened DispatcherTheorems
  import RR = RoundRobin
  import A = Adapter
  import S = One2OneSafety
  import SQ = SlabQueue
  import SQT = SlabQueueTheorems

  /** A client as the adapter sees it: what its queue accepted and how much of that was taken. */
  function ClientOf(q: SQ.State, synch: bool): A.Client {
    A.Client(q.accepted, |q.q.c.guards|, q.lost, q.attempts, synch)
  }

  function HubOf(s: State, synch: bool): A.Hub {
    A.Hub(seq(|s.qs|, c requires 0 <= c < |s.qs| => ClientOf(s.qs[c], synch)), s.cindex, synch, s.out)
  }

  /** No call is in progress, of any client or of the dispatcher. */
  predicate Between(s: State) {
    (s.phase.Idle? || s.phase.Returned?) && forall c | 0 <= c < |s.qs| :: s.qs[c].call.Out?
  }

  /** What was taken from each queue is what the listener was told. */
  predicate Settled(cfg: Config, s: State) {
    && RR.Ok(cfg.clients, LedgerOf(s))
    && forall c | 0 <= c < |s.qs| :: |s.qs[c].q.c.guards| == |A.From(s.out, c)|
  }

  lemma {:induction false} RunSettled(cfg: Config, actions: seq<Action>)
    requires cfg.Sound() && Between(Run(cfg, actions))
    ensures Settled(cfg, Run(cfg, actions))
  {
    var s := Run(cfg, actions);
    RunInv(cfg, actions);
    LedgerOk(cfg, s);
    forall c: nat | c < cfg.clients ensures |s.qs[c].q.c.guards| == |A.From(s.out, c)| { assert ClientOk(cfg, s, c); }
  }

  // ---------------------------------------------------------------- one log call on one queue

  function Exec(cfg: SQ.Config, q: SQ.State, steps: seq<SQ.Action>): (t: SQ.State)
    requires SQ.Shaped(cfg, q)
    ensures SQ.Shaped(cfg, t)
  {
    if steps == [] then q
    else
      var m := Exec(cfg, q, steps[..|steps| - 1]);
      SQ.NextShaped(cfg, m, steps[|steps| - 1]);
      SQ.Next(cfg, m, steps[|steps| - 1])
  }

  lemma {:induction false} ExecStep(cfg: SQ.Config, q: SQ.State, steps: seq<SQ.Action>, a: SQ.Action)
    requires SQ.Shaped(cfg, q)
    ensures Exec(cfg, q, steps + [a]) == SQ.Next(cfg, Exec(cfg, q, steps), a)
  {
    assert (steps + [a])[..|steps + [a]| - 1] == steps;
  }

  /** A queue without guards and calls under way has room iff fewer events than its capacity are pending. */
  lemma RoomIs(cfg: SQ.Config, q: SQ.State)
    requires cfg.Sound() && QueueOk(cfg, q, None) && q.call.Out?
    ensures SQT.HasRoom(cfg, q) <==> |q.accepted| - |q.q.c.guards| < cfg.Queue().Cap()
    ensures q.q.c.writer.pc.Idle?
  {
    S.SeesEmpty(cfg.Queue(), q.q);
  }

  lemma {:induction false} BoxedExec(cfg: SQ.Config, q: SQ.State, p: Event)
    requires SQ.Shaped(cfg, q) && SQT.HasRoom(cfg, q)
    ensures Exec(cfg, q, [SQ.Place(p), SQ.Offer, SQ.Move]) == SQT.Boxed(cfg, q, p)
  {
    ExecStep(cfg, q, [], SQ.Place(p));
    ExecStep(cfg, q, [SQ.Place(p)], SQ.Offer);
    ExecStep(cfg, q, [SQ.Place(p), SQ.Offer], SQ.Move);
    assert [] + [SQ.Place(p)] == [SQ.Place(p)];
    assert [SQ.Place(p)] + [SQ.Offer] == [SQ.Place(p), SQ.Offer];
    assert [SQ.Place(p), SQ.Offer] + [SQ.Move] == [SQ.Place(p), SQ.Offer, SQ.Move];
    SQT.BoxingSteps(cfg, q, p);
  }

  lemma {:induction false} AcceptedExec(cfg: SQ.Config, q: SQ.State, p: Event)
    requires SQ.Shaped(cfg, q) && SQT.HasRoom(cfg, q)
    ensures Exec(cfg, q, SQT.LogCall(p)) == SQT.Logged(cfg, q, p)
  {
    var a3 := [SQ.Place(p), SQ.Offer, SQ.Move];
    BoxedExec(cfg, q, p);
    ExecStep(cfg, q, a3, SQ.Publish);
    ExecStep(cfg, q, a3 + [SQ.Publish], SQ.Seek);
    assert SQT.LogCall(p) == a3 + [SQ.Publish] + [SQ.Seek];
    SQT.PublishingSteps(cfg, q, p);
  }

  function RefusedCall(p: Event): seq<SQ.Action> {
    [SQ.Place(p), SQ.Offer, SQ.Discard]
  }

  lemma {:induction false} RefusedExec(cfg: SQ.Config, q: SQ.State, p: Event)
    requires SQ.Shaped(cfg, q) && q.call.Out? && q.q.c.writer.pc.Idle? && !SQT.HasRoom(cfg, q)
    ensures Exec(cfg, q, RefusedCall(p))
         == q.(pool := q.pool[q.next := None], attempts := q.attempts + 1, lost := q.lost + 1)
  {
    ExecStep(cfg, q, [], SQ.Place(p));
    ExecStep(cfg, q, [SQ.Place(p)], SQ.Offer);
    ExecStep(cfg, q, [SQ.Place(p), SQ.Offer], SQ.Discard);
    assert [] + [SQ.Place(p)] == [SQ.Place(p)];
    assert [SQ.Place(p)] + [SQ.Offer] == [SQ.Place(p), SQ.Offer];
    assert [SQ.Place(p), SQ.Offer] + [SQ.Discard] == RefusedCall(p);
    assert q.pool[q.next := Some(p)][q.next := None] == q.pool[q.next := None];
  }

  /** The steps of a log call, as far as the queue has room. */
  function CallSteps(cfg: SQ.Config, q: SQ.State, p: Event): (steps: seq<SQ.Action>)
    requires SQ.Shaped(cfg, q)
    ensures forall x | 0 <= x < |steps| :: Produces(steps[x])
  {
    if SQT.HasRoom(cfg, q) then SQT.LogCall(p) else RefusedCall(p)
  }

  /** The client after its queue was offered p. */
  function Offered(cap: nat, c: A.Client, p: Event): A.Client {
    var d := c.(attempts := c.attempts + 1);
    if c.Pending() < cap then d.(sent := c.sent + [p]) else d.(lost := c.lost + 1)
  }

  lemma {:induction false} LogOnQueue(cfg: SQ.Config, q: SQ.State, p: Event, synch: bool)
    requires cfg.Sound() && QueueOk(cfg, q, None) && q.call.Out?
    ensures var t := Exec(cfg, q, CallSteps(cfg, q, p));
            t.call.Out? && ClientOf(t, synch) == Offered(cfg.Queue().Cap(), ClientOf(q, synch), p)
  {
    RoomIs(cfg, q);
    if SQT.HasRoom(cfg, q) { AcceptedExec(cfg, q, p); } else { RefusedExec(cfg, q, p); }
  }

  // ---------------------------------------------------------------- log calls

  /** These steps by client i's thread. */
  function By(i: nat, steps: seq<SQ.Action>): seq<Action> {
    seq(|steps|, x requires 0 <= x < |steps| => Log(i, steps[x]))
  }

  /** s after client i's thread did these steps. */
  function Stepped(cfg: Config, s: State, i: nat, steps: seq<SQ.Action>): (t: State)
    requires Shaped(cfg, s) && i < cfg.clients
    ensures Shaped(cfg, t)
  {
    s.(qs := s.qs[i := Exec(cfg.slab, s.qs[i], steps)])
  }

  lemma {:induction false} SteppedOne(cfg: Config, s: State, i: nat, steps: seq<SQ.Action>, a: SQ.Action)
    requires Shaped(cfg, s) && i < cfg.clients && Produces(a)
    ensures Next(cfg, Stepped(cfg, s, i, steps), Log(i, a)) == Stepped(cfg, s, i, steps + [a])
  {
    ExecStep(cfg.slab, s.qs[i], steps, a);
    var x, y := Exec(cfg.slab, s.qs[i], steps), Exec(cfg.slab, s.qs[i], steps + [a]);
    assert s.qs[i := x][i := y] == s.qs[i := y];
  }

  /** The run of client i's thread through these steps is what Stepped says. */
  predicate RunsBy(cfg: Config, before: seq<Action>, i: nat, steps: seq<SQ.Action>)
    requires cfg.Shape() && i < cfg.clients
  {
    Run(cfg, before + By(i, steps)) == Stepped(cfg, Run(cfg, before), i, steps)
  }

  lemma {:induction false} RunsByMore(cfg: Config, before: seq<Action>, i: nat, steps: seq<SQ.Action>, a: SQ.Action)
    requires cfg.Shape() && i < cfg.clients && RunsBy(cfg, before, i, steps) && Produces(a)
    ensures RunsBy(cfg, before, i, steps + [a])
  {
    assert before + By(i, steps + [a]) == before + By(i, steps) + [Log(i, a)];
    RunStep(cfg, before + By(i, steps), Log(i, a));
    SteppedOne(cfg, Run(cfg, before), i, steps, a);
  }

  lemma {:induction false} RunsByNone(cfg: Config, before: seq<Action>, i: nat)
    requires cfg.Shape() && i < cfg.clients
    ensures RunsBy(cfg, before, i, [])
  {
    var s := Run(cfg, before);
    assert before + By(i, []) == before;
    assert s.qs[i := s.qs[i]] == s.qs;
  }

  lemma {:induction false} RunBy(cfg: Config, before: seq<Action>, i: nat, steps: seq<SQ.Action>)
    requires cfg.Shape() && i < cfg.clients && forall x | 0 <= x < |steps| :: Produces(steps[x])
    ensures RunsBy(cfg, before, i, steps)
  {
    if steps == [] {
      RunsByNone(cfg, before, i);
    } else {
      var front, a := steps[..|steps| - 1], steps[|steps| - 1];
      RunBy(cfg, before, i, front);
      RunsByMore(cfg, before, i, front, a);
      assert front + [a] == steps;
    }
  }

  lemma {:induction false} SetClient(s: State, t: State, i: nat, synch: bool)
    requires i < |s.qs| && t == s.(qs := t.qs) && |t.qs| == |s.qs| && t.qs == s.qs[i := t.qs[i]]
    ensures HubOf(t, synch) == HubOf(s, synch).(clients := HubOf(s, synch).clients[i := ClientOf(t.qs[i], synch)])
  {
  }

  lemma {:induction false} OfferIs(cfg: Config, before: seq<Action>, i: nat, p: Event, synch: bool)
    requires cfg.Sound() && i < cfg.clients && Between(Run(cfg, before))
    ensures var q := Run(cfg, before).qs[i]; var t := Exec(cfg.slab, q, CallSteps(cfg.slab, q, p));
            t.call.Out? && ClientOf(t, synch) == Offered(cfg.slab.Queue().Cap(), ClientOf(q, synch), p)
  {
    RunInv(cfg, before);
    assert ClientOk(cfg, Run(cfg, before), i);
    LogOnQueue(cfg.slab, Run(cfg, before).qs[i], p, synch);
  }

  /** t is s after the queue of client i was offered p. */
  predicate OffersTo(cap: nat, s: State, t: State, i: nat, p: Event, synch: bool)
    requires i < |s.qs|
  {
    Between(t) && HubOf(t, synch) == HubOf(s, synch).(clients := HubOf(s, synch).clients[i :=
                                       Offered(cap, HubOf(s, synch).clients[i], p)])
  }

  /** The queue write of a log call by client i, uninterrupted. */
  lemma {:induction false} OfferRuns(cfg: Config, before: seq<Action>, i: nat, p: Event, synch: bool)
    returns (actions: seq<Action>)
    requires cfg.Sound() && i < cfg.clients && Between(Run(cfg, before))
    ensures forall x | 0 <= x < |actions| :: actions[x].Log? && actions[x].c == i
    ensures OffersTo(cfg.slab.Queue().Cap(), Run(cfg, before), Run(cfg, before + actions), i, p, synch)
  {
    var s := Run(cfg, before);
    var steps := CallSteps(cfg.slab, s.qs[i], p);
    actions := By(i, steps);
    OfferIs(cfg, before, i, p, synch);
    RunBy(cfg, before, i, steps);
    SetClient(s, Stepped(cfg, s, i, steps), i, synch);
  }

  // ---------------------------------------------------------------- calls of dispatch

  /** The dispatcher's steps touch neither the clients' calls nor their counts of attempts and losses. */
  predicate SameCalls(s: State, t: State) {
    && |t.qs| == |s.qs|
    && forall c | 0 <= c < |s.qs| ::
         && t.qs[c].call == s.qs[c].call && t.qs[c].lost == s.qs[c].lost
         && t.qs[c].attempts == s.qs[c].attempts && t.qs[c].accepted == s.qs[c].accepted
  }

  lemma QueueKeepsCalls(cfg: SQ.Config, q: SQ.State, a: SQ.Action)
    requires SQ.Shaped(cfg, q) && !Produces(a)
    ensures var t := SQ.Next(cfg, q, a);
            t.call == q.call && t.lost == q.lost && t.attempts == q.attempts && t.accepted == q.accepted
  {
  }

  lemma DueKeepsCalls(cfg: Config, s: State, a: Action)
    requires Shaped(cfg, s) && !a.Log?
    ensures SameCalls(s, Next(cfg, s, a))
  {
    if (a.Probe? && s.phase.Scanning? && s.phase.i < cfg.clients) || (a.Drop? && s.phase.Dropping?)
       || (a.Free? && s.phase.Freeing?) {
      var c := Client(cfg, s, s.phase.i);
      QueueKeepsCalls(cfg.slab, s.qs[c], SQ.Load);
      if Guards(s, c) != [] {
        QueueKeepsCalls(cfg.slab, s.qs[c], SQ.Finish(|Guards(s, c)| - 1));
        QueueKeepsCalls(cfg.slab, s.qs[c], SQ.Free(|Guards(s, c)| - 1));
      }
    }
  }

  function DueOf(phase: RR.Phase): (a: Action)
    ensures Due(phase, a) && !a.Log?
  {
    match phase
    case Idle => Begin
    case Returned(_) => Begin
    case Scanning(_) => Probe
    case Notifying(_) => Notify
    case Dropping(_) => Drop
    case Freeing(_) => Free
    case Advancing(_) => Advance
  }

  predicate TurnsTo(cfg: Config, s: State, t: State) {
    RR.Ok(cfg.clients, LedgerOf(s)) && LedgerOf(t) == RR.Turn(cfg.clients, LedgerOf(s)) && SameCalls(s, t)
  }

  predicate CallsTo(cfg: Config, s: State, t: State) {
    && RR.Ok(cfg.clients, LedgerOf(s)) && RR.InCall(s.phase)
    && LedgerOf(t) == RR.Call(cfg.clients, LedgerOf(s)) && SameCalls(s, t)
  }

  lemma TurnStep(cfg: Config, s: State)
    requires cfg.Sound() && Inv(cfg, s)
    ensures TurnsTo(cfg, s, Next(cfg, s, DueOf(s.phase)))
  {
    LedgerOk(cfg, s);
    DueTurns(cfg, s, DueOf(s.phase));
    DueKeepsCalls(cfg, s, DueOf(s.phase));
  }

  /** One step of the dispatcher is one turn of the round-robin. */
  lemma {:induction false} TurnRuns(cfg: Config, before: seq<Action>)
    requires cfg.Sound()
    ensures TurnsTo(cfg, Run(cfg, before), Run(cfg, before + [DueOf(Run(cfg, before).phase)]))
  {
    RunInv(cfg, before);
    TurnStep(cfg, Run(cfg, before));
    RunStep(cfg, before, DueOf(Run(cfg, before).phase));
  }

  lemma {:induction false} LastTurn(cfg: Config, s: State, t: State)
    requires TurnsTo(cfg, s, t) && RR.InCall(s.phase) && t.phase.Returned?
    ensures CallsTo(cfg, s, t)
  {
  }

  lemma {:induction false} MoreTurns(cfg: Config, s: State, t: State, u: State)
    requires TurnsTo(cfg, s, t) && RR.InCall(s.phase) && CallsTo(cfg, t, u)
    ensures CallsTo(cfg, s, u)
  {
  }

  /** Each turn inside a call brings it closer to its return, or returns. */
  lemma {:induction false} TurnCloser(cfg: Config, s: State, t: State)
    requires TurnsTo(cfg, s, t) && RR.InCall(s.phase)
    ensures t.phase.Returned? || (RR.InCall(t.phase)
              && RR.StepsLeft(cfg.clients, t.phase) < RR.StepsLeft(cfg.clients, s.phase))
  {
  }

  /** A call of dispatch that nobody interrupts. */
  lemma {:induction false} CallRuns(cfg: Config, before: seq<Action>) returns (actions: seq<Action>)
    requires cfg.Sound() && RR.InCall(Run(cfg, before).phase)
    ensures forall x | 0 <= x < |actions| :: !actions[x].Log?
    ensures CallsTo(cfg, Run(cfg, before), Run(cfg, before + actions))
    decreases RR.StepsLeft(cfg.clients, Run(cfg, before).phase)
  {
    var a := DueOf(Run(cfg, before).phase);
    TurnRuns(cfg, before);
    TurnCloser(cfg, Run(cfg, before), Run(cfg, before + [a]));
    if Run(cfg, before + [a]).phase.Returned? {
      actions := [a];
      LastTurn(cfg, Run(cfg, before), Run(cfg, before + actions));
    } else {
      var rest := CallRuns(cfg, before + [a]);
      MoreTurns(cfg, Run(cfg, before), Run(cfg, before + [a]), Run(cfg, before + [a] + rest));
      Joined(cfg, before, [a], rest);
      actions := [a] + rest;
    }
  }

  // ---------------------------------------------------------------- the adapter's dispatch

  lemma {:induction false} HubIs(cfg: Config, s: State, synch: bool, c: nat)
    requires Settled(cfg, s) && c < cfg.clients
    ensures HubOf(s, synch).clients[c]
         == A.Client(s.qs[c].accepted, RR.Told(LedgerOf(s), c), s.qs[c].lost, s.qs[c].attempts, synch)
    ensures HubOf(s, synch).clients[c].Pending() == RR.Pending(LedgerOf(s), c)
  {
  }

  lemma {:induction false} SameBusy(cfg: Config, s: State, synch: bool)
    requires Settled(cfg, s)
    ensures A.FirstBusy(HubOf(s, synch), 0) == RR.FirstPending(cfg.clients, LedgerOf(s), 0)
  {
    var h := HubOf(s, synch);
    forall o: nat | o < cfg.clients
      ensures A.At(h, o) == RR.At(cfg.clients, s.cindex, o)
      ensures A.Busy(h, o) <==> RR.Pending(LedgerOf(s), RR.At(cfg.clients, s.cindex, o)) > 0
    {
      HubIs(cfg, s, synch, RR.At(cfg.clients, s.cindex, o));
    }
  }

  /** The client that was served gave up one event, and its successor comes next. */
  lemma {:induction false} ServedHub(cfg: Config, s: State, t: State, o: nat, synch: bool)
    requires cfg.Shape() && Settled(cfg, s) && Settled(cfg, t) && SameCalls(s, t) && o < cfg.clients
    requires RR.Pending(LedgerOf(s), Client(cfg, s, o)) > 0
    requires LedgerOf(t) == RR.Served(cfg.clients, LedgerOf(s), o)
    ensures var c := Client(cfg, s, o);
            && HubOf(s, synch).clients[c].taken < |HubOf(s, synch).clients[c].sent|
            && HubOf(t, synch) == A.Deliver(HubOf(s, synch), c).(cindex := Client(cfg, s, o + 1))
  {
    var c := Client(cfg, s, o);
    HubIs(cfg, s, synch, c);
    var want := A.Deliver(HubOf(s, synch), c).clients;
    forall b: nat | b < cfg.clients ensures HubOf(t, synch).clients[b] == want[b] {
      HubIs(cfg, s, synch, b);
      HubIs(cfg, t, synch, b);
      RR.FromOne(s.out, c, s.qs[c].accepted[RR.Told(LedgerOf(s), c)], b);
    }
    assert HubOf(t, synch).clients == want;
  }

  lemma {:induction false} UnservedHub(cfg: Config, s: State, t: State, synch: bool)
    requires Settled(cfg, s) && Settled(cfg, t) && SameCalls(s, t)
    requires LedgerOf(t) == RR.Unserved(LedgerOf(s))
    ensures HubOf(t, synch) == HubOf(s, synch)
  {
    forall b: nat | b < cfg.clients ensures HubOf(t, synch).clients[b] == HubOf(s, synch).clients[b] {
      HubIs(cfg, s, synch, b);
      HubIs(cfg, t, synch, b);
    }
    assert HubOf(t, synch).clients == HubOf(s, synch).clients;
  }

  /** From s, the call of dispatch that ended in t did what the adapter's dispatch does, and returned the same. */
  predicate DispatchedTo(s: State, t: State, synch: bool) {
    && Between(t) && HubOf(t, synch) == A.Dispatched(HubOf(s, synch))
    && t.phase == RR.Returned(s.qs != [] && A.FirstBusy(HubOf(s, synch), 0) < |s.qs|)
  }

  lemma {:induction false} HubServed(cfg: Config, s: State, o: nat, synch: bool)
    requires cfg.Shape() && Settled(cfg, s) && o < cfg.clients && o == A.FirstBusy(HubOf(s, synch), 0)
    ensures var c := Client(cfg, s, o);
            && HubOf(s, synch).clients[c].taken < |HubOf(s, synch).clients[c].sent|
            && A.Dispatched(HubOf(s, synch)) == A.Deliver(HubOf(s, synch), c).(cindex := Client(cfg, s, o + 1))
  {
  }

  lemma {:induction false} ServedIsDispatched(cfg: Config, s: State, t: State, o: nat, synch: bool)
    requires cfg.Shape() && Settled(cfg, s) && Settled(cfg, t) && SameCalls(s, t) && Between(s)
    requires o < cfg.clients && o == A.FirstBusy(HubOf(s, synch), 0)
    requires RR.Pending(LedgerOf(s), Client(cfg, s, o)) > 0
    requires LedgerOf(t) == RR.Served(cfg.clients, LedgerOf(s), o)
    ensures DispatchedTo(s, t, synch)
  {
    ServedHub(cfg, s, t, o, synch);
    HubServed(cfg, s, o, synch);
    assert t.phase == LedgerOf(t).phase == RR.Returned(true);
  }

  lemma {:induction false} UnservedIsDispatched(cfg: Config, s: State, t: State, synch: bool)
    requires cfg.Shape() && Settled(cfg, s) && Settled(cfg, t) && SameCalls(s, t) && Between(s)
    requires A.FirstBusy(HubOf(s, synch), 0) == cfg.clients && LedgerOf(t) == RR.Unserved(LedgerOf(s))
    ensures DispatchedTo(s, t, synch)
  {
    UnservedHub(cfg, s, t, synch);
    assert t.phase == LedgerOf(t).phase == RR.Returned(false);
  }

  /** u is where an uninterrupted call of dispatch that begins in s ends. */
  predicate WholeCall(cfg: Config, s: State, u: State) {
    && RR.Ok(cfg.clients, LedgerOf(s)) && SameCalls(s, u)
    && LedgerOf(u) == RR.Call(cfg.clients, RR.ScanAt(cfg.clients, LedgerOf(s), 0))
  }

  lemma {:induction false} BeginScans(cfg: Config, s: State, t: State, u: State)
    requires Between(s) && TurnsTo(cfg, s, t) && CallsTo(cfg, t, u)
    ensures WholeCall(cfg, s, u)
  {
  }

  lemma {:induction false} BeginRuns(cfg: Config, before: seq<Action>)
    requires cfg.Sound() && Between(Run(cfg, before))
    ensures TurnsTo(cfg, Run(cfg, before), Run(cfg, before + [Begin]))
    ensures RR.InCall(Run(cfg, before + [Begin]).phase)
  {
    TurnRuns(cfg, before);
    assert LedgerOf(Run(cfg, before + [Begin])).phase == RR.Scanning(0);
  }

  lemma {:induction false} WholeCallRuns(cfg: Config, before: seq<Action>) returns (actions: seq<Action>)
    requires cfg.Sound() && Between(Run(cfg, before))
    ensures forall x | 0 <= x < |actions| :: !actions[x].Log?
    ensures WholeCall(cfg, Run(cfg, before), Run(cfg, before + actions))
  {
    BeginRuns(cfg, before);
    var rest := CallRuns(cfg, before + [Begin]);
    BeginScans(cfg, Run(cfg, before), Run(cfg, before + [Begin]), Run(cfg, before + [Begin] + rest));
    Joined(cfg, before, [Begin], rest);
    actions := [Begin] + rest;
  }

  lemma {:induction false} CallReturns(m: nat, l: RR.Ledger)
    requires RR.Ok(m, l)
    ensures RR.Call(m, RR.ScanAt(m, l, 0)).phase.Returned?
  {
    RR.CallServes(m, l, 0);
  }

  lemma {:induction false} WholeCallReturns(cfg: Config, s: State, u: State)
    requires Between(s) && WholeCall(cfg, s, u)
    ensures Between(u)
  {
    CallReturns(cfg.clients, LedgerOf(s));
    assert u.phase == LedgerOf(u).phase;
  }

  lemma {:induction false} CallIsDispatch(cfg: Config, s: State, u: State, synch: bool)
    requires cfg.Shape() && Settled(cfg, s) && Settled(cfg, u) && Between(s) && WholeCall(cfg, s, u)
    ensures DispatchedTo(s, u, synch)
  {
    RR.CallServes(cfg.clients, LedgerOf(s), 0);
    SameBusy(cfg, s, synch);
    var o := RR.FirstPending(cfg.clients, LedgerOf(s), 0);
    if o < cfg.clients { ServedIsDispatched(cfg, s, u, o, synch); } else { UnservedIsDispatched(cfg, s, u, synch); }
  }

  /** A call of dispatch that nobody interrupts does what the adapter's dispatch does. */
  lemma {:induction false} DispatchRuns(cfg: Config, before: seq<Action>, synch: bool) returns (actions: seq<Action>)
    requires cfg.Sound() && Between(Run(cfg, before))
    ensures forall x | 0 <= x < |actions| :: !actions[x].Log?
    ensures DispatchedTo(Run(cfg, before), Run(cfg, before + actions), synch)
  {
    actions := WholeCallRuns(cfg, before);
    WholeCallReturns(cfg, Run(cfg, before), Run(cfg, before + actions));
    RunSettled(cfg, before);
    RunSettled(cfg, before + actions);
    CallIsDispatch(cfg, Run(cfg, before), Run(cfg, before + actions), synch);
  }

  // ---------------------------------------------------------------- whole runs

  /** A log call is its queue write and, in synch mode, the dispatch behind an accepted one. */
  lemma {:induction false} LoggedIs(cap: nat, h: A.Hub, i: nat, p: Event)
    requires A.Valid(h) && i < |h.clients|
    ensures var m := h.(clients := h.clients[i := Offered(cap, h.clients[i], p)]);
            A.Logged(cap, h, i, p) == if h.synch && h.clients[i].Pending() < cap then A.Dispatched(m) else m
  {
  }

  lemma {:induction false} HubValid(cfg: Config, s: State, synch: bool)
    requires Settled(cfg, s)
    ensures A.Valid(HubOf(s, synch))
  {
    forall c: nat | c < cfg.clients
      ensures HubOf(s, synch).clients[c].taken <= |HubOf(s, synch).clients[c].sent|
    {
      HubIs(cfg, s, synch, c);
    }
  }

  /** t is between calls, and as the adapter sees it, it is s after op. */
  predicate OpTo(cfg: Config, s: State, t: State, synch: bool, op: A.Op) {
    Between(t) && HubOf(t, ModeAfter(synch, op)) == A.Apply(cfg.slab.Queue().Cap(), HubOf(s, synch), op)
  }

  lemma {:induction false} OfferIsLog(cfg: Config, s: State, t: State, i: nat, p: Event, synch: bool)
    requires Settled(cfg, s) && i < |s.qs| && OffersTo(cfg.slab.Queue().Cap(), s, t, i, p, synch)
    requires !synch || HubOf(s, synch).clients[i].Pending() >= cfg.slab.Queue().Cap()
    ensures OpTo(cfg, s, t, synch, A.Log(i, p))
  {
    HubValid(cfg, s, synch);
    LoggedIs(cfg.slab.Queue().Cap(), HubOf(s, synch), i, p);
  }

  lemma {:induction false} OfferThenDispatch(cfg: Config, s: State, t: State, u: State, i: nat, p: Event)
    requires Settled(cfg, s) && i < |s.qs| && OffersTo(cfg.slab.Queue().Cap(), s, t, i, p, true)
    requires HubOf(s, true).clients[i].Pending() < cfg.slab.Queue().Cap() && DispatchedTo(t, u, true)
    ensures OpTo(cfg, s, u, true, A.Log(i, p))
  {
    HubValid(cfg, s, true);
    LoggedIs(cfg.slab.Queue().Cap(), HubOf(s, true), i, p);
  }

  lemma {:induction false} Joined(cfg: Config, before: seq<Action>, first: seq<Action>, rest: seq<Action>)
    requires cfg.Shape()
    ensures Run(cfg, before + (first + rest)) == Run(cfg, before + first + rest)
  {
    assert before + (first + rest) == before + first + rest;
  }

  /** The dispatch behind an accepted log call in synch mode. */
  lemma {:induction false} SynchRuns(cfg: Config, before: seq<Action>, first: seq<Action>, i: nat, p: Event)
    returns (actions: seq<Action>)
    requires cfg.Sound() && Settled(cfg, Run(cfg, before)) && i < cfg.clients
    requires OffersTo(cfg.slab.Queue().Cap(), Run(cfg, before), Run(cfg, before + first), i, p, true)
    requires HubOf(Run(cfg, before), true).clients[i].Pending() < cfg.slab.Queue().Cap()
    ensures OpTo(cfg, Run(cfg, before), Run(cfg, before + actions), true, A.Log(i, p))
  {
    var rest := DispatchRuns(cfg, before + first, true);
    OfferThenDispatch(cfg, Run(cfg, before), Run(cfg, before + first), Run(cfg, before + first + rest), i, p);
    Joined(cfg, before, first, rest);
    actions := first + rest;
  }

  lemma {:induction false} LogRuns(cfg: Config, before: seq<Action>, i: nat, p: Event, synch: bool)
    returns (actions: seq<Action>)
    requires cfg.Sound() && Between(Run(cfg, before)) && i < cfg.clients
    ensures OpTo(cfg, Run(cfg, before), Run(cfg, before + actions), synch, A.Log(i, p))
  {
    RunSettled(cfg, before);
    actions := OfferRuns(cfg, before, i, p, synch);
    if synch && HubOf(Run(cfg, before), synch).clients[i].Pending() < cfg.slab.Queue().Cap() {
      actions := SynchRuns(cfg, before, actions, i, p);
    } else {
      OfferIsLog(cfg, Run(cfg, before), Run(cfg, before + actions), i, p, synch);
    }
  }

  function ModeAfter(synch: bool, op: A.Op): bool {
    if op.Mode? then op.synch else synch
  }

  lemma {:induction false} ModeIs(s: State, synch: bool, mode: bool)
    ensures HubOf(s, mode) == A.ModeSet(HubOf(s, synch), mode)
  {
    assert HubOf(s, mode).clients == A.ModeSet(HubOf(s, synch), mode).clients;
  }

  lemma {:induction false} OpRuns(cfg: Config, before: seq<Action>, synch: bool, op: A.Op)
    returns (actions: seq<Action>)
    requires cfg.Sound() && Between(Run(cfg, before)) && !op.Register?
    ensures OpTo(cfg, Run(cfg, before), Run(cfg, before + actions), synch, op)
  {
    if op.Log? && op.i < cfg.clients {
      actions := LogRuns(cfg, before, op.i, op.p, synch);
    } else if op.Dispatch? {
      actions := DispatchRuns(cfg, before, synch);
    } else {
      actions := [];
      assert before + actions == before;
      if op.Mode? { ModeIs(Run(cfg, before), synch, op.synch); }
    }
  }

  /** The mode after these operations. */
  function ModeAfterAll(synch: bool, ops: seq<A.Op>): bool
    decreases |ops|
  {
    if ops == [] then synch else ModeAfterAll(ModeAfter(synch, ops[0]), ops[1..])
  }

  /** t is between calls, and as the adapter sees it, it is s after all of ops. */
  predicate OpsTo(cfg: Config, s: State, t: State, synch: bool, ops: seq<A.Op>) {
    Between(t) && HubOf(t, ModeAfterAll(synch, ops)) == A.Run(cfg.slab.Queue().Cap(), HubOf(s, synch), ops)
  }

  lemma {:induction false} OpThenOps(cfg: Config, s: State, t: State, u: State, synch: bool, ops: seq<A.Op>)
    requires ops != [] && OpTo(cfg, s, t, synch, ops[0])
    requires OpsTo(cfg, t, u, ModeAfter(synch, ops[0]), ops[1..])
    ensures OpsTo(cfg, s, u, synch, ops)
  {
  }

  /**
   Every sequence of the adapter's operations that do not overlap is a run of the atomic machine,
   and the adapter's state is the abstraction of where that run ends. So what holds of Adapter.Run
   holds of the queues, slabs and boxes.
   */
  lemma {:induction false} OpsAreRuns(cfg: Config, before: seq<Action>, synch: bool, ops: seq<A.Op>)
    returns (actions: seq<Action>)
    requires cfg.Sound() && Between(Run(cfg, before))
    requires forall x | 0 <= x < |ops| :: !ops[x].Register?
    ensures OpsTo(cfg, Run(cfg, before), Run(cfg, before + actions), synch, ops)
    decreases |ops|
  {
    if ops == [] {
      actions := [];
      assert before + actions == before;
    } else {
      var first := OpRuns(cfg, before, synch, ops[0]);
      var rest := OpsAreRuns(cfg, before + first, ModeAfter(synch, ops[0]), ops[1..]);
      OpThenOps(cfg, Run(cfg, before), Run(cfg, before + first), Run(cfg, before + first + rest), synch, ops);
      Joined(cfg, before, first, rest);
      actions := first + rest;
    }
  }

  /** The machine starts as a drained adapter in synch mode, with no losses. */
  lemma InitIsDrained(cfg: Config)
    requires cfg.Shape()
    ensures var h := HubOf(Run(cfg, []), true);
            && Between(Run(cfg, [])) && A.Drained(h) && h.synch && |h.clients| == cfg.clients && h.out == []
            && forall c | 0 <= c < |h.clients| :: h.clients[c].lost == 0
  {
  }

  lemma {:induction false} StaysTrue(ops: seq<A.Op>)
    requires A.StaysSynch(ops)
    ensures ModeAfterAll(true, ops)
    decreases |ops|
  {
    if ops != [] {
      assert ops[0] != A.Mode(false);
      StaysTrue(ops[1..]);
    }
  }

  /** Synch mode from the start, down to the atomic steps: every event logged reaches the listener, in call order. */
  lemma {:induction false} SynchQueuesDeliverAll(cfg: Config, ops: seq<A.Op>) returns (actions: seq<Action>)
    requires cfg.Sound() && A.StaysSynch(ops) && forall x | 0 <= x < |ops| :: !ops[x].Register?
    ensures var s := Run(cfg, actions);
            && s.out == A.Events(ops, cfg.clients)
            && forall c | 0 <= c < |s.qs| :: s.qs[c].lost == 0 && |s.qs[c].q.c.guards| == |s.qs[c].accepted|
  {
    InitIsDrained(cfg);
    actions := OpsAreRuns(cfg, [], true, ops);
    assert [] + actions == actions;
    A.SynchRunDeliversAll(cfg.slab.Queue().Cap(), HubOf(Run(cfg, []), true), ops);
    StaysTrue(ops);
    HubTells(cfg, Run(cfg, actions));
  }

  /** Reading losses and pending counts off the adapter's view. */
  lemma {:induction false} HubTells(cfg: Config, s: State)
    requires A.Drained(HubOf(s, true)) && forall c | 0 <= c < |s.qs| :: HubOf(s, true).clients[c].lost == 0
    ensures forall c | 0 <= c < |s.qs| :: s.qs[c].lost == 0 && |s.qs[c].q.c.guards| == |s.qs[c].accepted|
  {
    forall c | 0 <= c < |s.qs| ensures s.qs[c].lost == 0 && |s.qs[c].q.c.guards| == |s.qs[c].accepted| {
      assert HubOf(s, true).clients[c] == ClientOf(s.qs[c], true);
    }
  }
}
