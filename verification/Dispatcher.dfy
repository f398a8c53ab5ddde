/**
 The logger in asynch mode, with nothing taken as one step: every client thread fills its own
 slab queue by atomic steps, and one dispatcher thread probes the queues round-robin. Log calls
 may fall anywhere inside a scan. Module Adapter is what this is when calls do not overlap.
 */
module Dispatcher {
  import opened Common
  import opened RoundRobin
  import Q = One2One
  import S = One2OneSafety
  import SQ = SlabQueue
  import SQT = SlabQueueTheorems

  /** The set of clients is fixed; the adapter registers one for itself before anything else. */
  datatype Config = Config(slab: SQ.Config, clients: nat) {
    predicate Shape() { slab.Shape() && clients >= 1 }
    predicate Sound() { Shape() && slab.Sound() }
  }

  /** out lists what the listener was notified of; ended counts the calls that returned. No step reads them. */
  datatype State = State(qs: seq<SQ.State>, cindex: nat, phase: Phase, out: seq<(nat, Event)>, ended: nat)

  /** Log: one step of client c's thread. The others are the dispatcher's. */
  datatype Action = Log(c: nat, step: SQ.Action) | Begin | Probe | Notify | Drop | Free | Advance

  // ---------------------------------------------------------------- steps

  predicate Shaped(cfg: Config, s: State) {
    cfg.Shape() && |s.qs| == cfg.clients && forall c | 0 <= c < |s.qs| :: SQ.Shaped(cfg.slab, s.qs[c])
  }

  /** The client at offset o of the scan. */
  function Client(cfg: Config, s: State, o: nat): (c: nat)
    requires cfg.Shape()
    ensures c < cfg.clients
  {
    At(cfg.clients, s.cindex, o)
  }

  /** A step of the thread that logs, as opposed to one of the queue's reader. */
  predicate Produces(a: SQ.Action) {
    !a.Load? && !a.Finish? && !a.Free?
  }

  function Guards(s: State, c: nat): seq<Q.Guard>
    requires c < |s.qs|
  {
    s.qs[c].q.c.guards
  }

  function OnQueue(cfg: Config, s: State, c: nat, a: SQ.Action): (t: State)
    requires Shaped(cfg, s) && c < cfg.clients
    ensures Shaped(cfg, t)
  {
    SQ.NextShaped(cfg.slab, s.qs[c], a);
    s.(qs := s.qs[c := SQ.Next(cfg.slab, s.qs[c], a)])
  }

  /** What get_event reads through the guard the last try_read returned: the event behind its box. */
  function Payload(q: SQ.State): seq<Event> {
    var gs := q.q.c.guards;
    if gs == [] || gs[|gs| - 1].bucket >= |q.q.c.ring.store| then []
    else
      var box := q.q.c.ring.store[gs[|gs| - 1].bucket];
      if box.Some? && 0 <= box.value < |q.pool| && q.pool[box.value].Some? then [q.pool[box.value].value] else []
  }

  function ProbeStep(cfg: Config, s: State): (t: State)
    requires Shaped(cfg, s) && s.phase.Scanning?
    ensures Shaped(cfg, t)
  {
    var i := s.phase.i;
    if i >= cfg.clients then s.(phase := Returned(false), ended := s.ended + 1)
    else
      var c := Client(cfg, s, i);
      var t := OnQueue(cfg, s, c, SQ.Load);
      t.(phase := if |Guards(t, c)| > |Guards(s, c)| then Notifying(i) else Scanning(i + 1))
  }

  function NotifyStep(cfg: Config, s: State): (t: State)
    requires Shaped(cfg, s) && s.phase.Notifying?
    ensures Shaped(cfg, t)
  {
    var c := Client(cfg, s, s.phase.i);
    var p := Payload(s.qs[c]);
    s.(phase := Dropping(s.phase.i), out := if p == [] then s.out else s.out + [(c, p[0])])
  }

  function Next(cfg: Config, s: State, a: Action): (t: State)
    requires Shaped(cfg, s)
    ensures Shaped(cfg, t)
  {
    match a
    case Log(c, step) => if c < cfg.clients && Produces(step) then OnQueue(cfg, s, c, step) else s
    case Begin => if s.phase.Idle? || s.phase.Returned? then s.(phase := Scanning(0)) else s
    case Probe => if s.phase.Scanning? then ProbeStep(cfg, s) else s
    case Notify => if s.phase.Notifying? then NotifyStep(cfg, s) else s
    case Drop =>
      if s.phase.Dropping? && Guards(s, Client(cfg, s, s.phase.i)) != [] then
        var c := Client(cfg, s, s.phase.i);
        OnQueue(cfg, s, c, SQ.Finish(|Guards(s, c)| - 1)).(phase := Freeing(s.phase.i))
      else s
    case Free =>
      if s.phase.Freeing? && Guards(s, Client(cfg, s, s.phase.i)) != [] then
        var c := Client(cfg, s, s.phase.i);
        OnQueue(cfg, s, c, SQ.Free(|Guards(s, c)| - 1)).(phase := Advancing(s.phase.i))
      else s
    case Advance =>
      if s.phase.Advancing? then
        s.(cindex := Client(cfg, s, s.phase.i + 1), phase := Returned(true), ended := s.ended + 1)
      else s
  }

  function Init(cfg: Config): (s: State)
    requires cfg.Shape()
    ensures Shaped(cfg, s)
  {
    assert SQ.Run(cfg.slab, []) == SQ.Init(cfg.slab);
    State(seq(cfg.clients, _ => SQ.Init(cfg.slab)), 0, Idle, [], 0)
  }

  function Run(cfg: Config, actions: seq<Action>): (s: State)
    requires cfg.Shape()
    ensures Shaped(cfg, s)
  {
    if actions == [] then Init(cfg)
    else Next(cfg, Run(cfg, actions[..|actions| - 1]), actions[|actions| - 1])
  }

  // ---------------------------------------------------------------- single queues

  /** All guards are released, but for the last one if it is given a phase. */
  predicate GuardsOk(gs: seq<Q.Guard>, last: Option<Q.Phase>) {
    if last.None? then forall k | 0 <= k < |gs| :: gs[k].phase.Released?
    else gs != [] && gs[|gs| - 1].phase == last.value && forall k | 0 <= k < |gs| - 1 :: gs[k].phase.Released?
  }

  /** The state of one client's queue between the steps of its two threads. */
  predicate QueueOk(cfg: SQ.Config, q: SQ.State, last: Option<Q.Phase>) {
    SQ.Inv(cfg, q) && GuardsOk(q.q.c.guards, last) && SQT.Unaccounted(q) == 0
  }

  /** t continues s: nothing accepted or taken is undone. */
  predicate Continues(s: SQ.State, t: SQ.State) {
    s.accepted <= t.accepted && |s.q.c.guards| <= |t.q.c.guards| <= |t.accepted|
  }

  lemma StepOk(cfg: SQ.Config, q: SQ.State, a: SQ.Action)
    requires cfg.Sound() && SQ.Inv(cfg, q) && SQT.Unaccounted(q) == 0
    ensures var t := SQ.Next(cfg, q, a);
            SQ.Inv(cfg, t) && SQT.Unaccounted(t) == 0 && Continues(q, t)
  {
    SQ.StepInv(cfg, q, a);
    SQT.AttemptStep(cfg, q, a);
    SQT.DeliversNext(cfg, q, a);
  }

  lemma ProducerKeepsGuards(cfg: SQ.Config, q: SQ.State, a: SQ.Action)
    requires SQ.Shaped(cfg, q) && Produces(a)
    ensures SQ.Next(cfg, q, a).q.c.guards == q.q.c.guards
  {
  }

  /** A probe takes the oldest pending event, and fails iff there is none at this moment. */
  lemma LoadOk(cfg: SQ.Config, q: SQ.State)
    requires cfg.Sound() && QueueOk(cfg, q, None)
    ensures var t := SQ.Next(cfg, q, SQ.Load);
            && t.accepted == q.accepted
            && (|q.q.c.guards| == |q.accepted| ==> t == q)
            && (|q.q.c.guards| < |q.accepted| ==>
                  |t.q.c.guards| == |q.q.c.guards| + 1 && QueueOk(cfg, t, Some(Q.Held)))
  {
    StepOk(cfg, q, SQ.Load);
    S.LoadMatches(cfg.Queue(), q.q);
  }

  lemma FinishOk(cfg: SQ.Config, q: SQ.State)
    requires cfg.Sound() && QueueOk(cfg, q, Some(Q.Held))
    ensures var t := SQ.Next(cfg, q, SQ.Finish(|q.q.c.guards| - 1));
            && QueueOk(cfg, t, Some(Q.Spent)) && t.accepted == q.accepted
            && |t.q.c.guards| == |q.q.c.guards|
  {
    StepOk(cfg, q, SQ.Finish(|q.q.c.guards| - 1));
  }

  lemma FreeOk(cfg: SQ.Config, q: SQ.State)
    requires cfg.Sound() && QueueOk(cfg, q, Some(Q.Spent))
    ensures var t := SQ.Next(cfg, q, SQ.Free(|q.q.c.guards| - 1));
            && QueueOk(cfg, t, None) && t.accepted == q.accepted
            && |t.q.c.guards| == |q.q.c.guards|
  {
    StepOk(cfg, q, SQ.Free(|q.q.c.guards| - 1));
  }

  lemma PayloadIs(cfg: SQ.Config, q: SQ.State)
    requires cfg.Sound() && QueueOk(cfg, q, Some(Q.Held))
    ensures |q.q.c.guards| <= |q.accepted| && Payload(q) == [q.accepted[|q.q.c.guards| - 1]]
  {
    SQ.GuardOwnsSlab(cfg, q, |q.q.c.guards| - 1);
  }
}
