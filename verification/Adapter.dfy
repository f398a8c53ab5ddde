/**
 The logger adapter: one queue per client, drained round-robin by a single dispatcher
 under the adapter's mutex. Calls do not overlap here, so a queue is its accepted
 payloads and how many of them were delivered: One2OneObjects.QuietWrite and QuietRead
 show that this is what the real queue is between calls.
 */
module Adapter {
  import opened Common

  datatype Client = Client(sent: seq<Event>, taken: nat, lost: nat, attempts: nat, synch: bool) {
    function Pending(): int { |sent| - taken }
  }

  /** out lists what the listener was notified of: the client's index and the payload. */
  datatype Hub = Hub(clients: seq<Client>, cindex: nat, synch: bool, out: seq<(nat, Event)>)

  /** The client at offset o of the next scan. */
  function At(h: Hub, o: nat): (c: nat)
    requires h.clients != []
    ensures c < |h.clients|
  {
    (h.cindex + o) % |h.clients|
  }

  predicate Busy(h: Hub, o: nat)
    requires h.clients != []
  {
    h.clients[At(h, o)].Pending() > 0
  }

  /** The offset, at or after i, of the first client of the scan with something to read; M if there is none. */
  function FirstBusy(h: Hub, i: nat): (o: nat)
    requires h.clients != [] && i <= |h.clients|
    ensures i <= o <= |h.clients|
    ensures o < |h.clients| ==> Busy(h, o)
    ensures forall j | i <= j < o :: !Busy(h, j)
    decreases |h.clients| - i
  {
    if i == |h.clients| || Busy(h, i) then i else FirstBusy(h, i + 1)
  }

  /** Client c hands its next payload to the listener. */
  function Deliver(h: Hub, c: nat): Hub
    requires c < |h.clients| && h.clients[c].taken < |h.clients[c].sent|
  {
    h.(clients := h.clients[c := h.clients[c].(taken := h.clients[c].taken + 1)],
       out := h.out + [(c, h.clients[c].sent[h.clients[c].taken])])
  }

  /** The new state after dispatch: the first busy client from cindex is served, and its successor comes next. */
  function Dispatched(h: Hub): Hub {
    if h.clients == [] || FirstBusy(h, 0) == |h.clients| then h
    else Deliver(h, At(h, FirstBusy(h, 0))).(cindex := At(h, FirstBusy(h, 0) + 1))
  }

  /** The new state after client i logs p: accepted if its queue has room, else counted as lost. */
  function Logged(cap: nat, h: Hub, i: nat, p: Event): Hub {
    if i >= |h.clients| then h
    else
      var c := h.clients[i].(attempts := h.clients[i].attempts + 1);
      if c.Pending() < cap then
        var h' := h.(clients := h.clients[i := c.(sent := c.sent + [p])]);
        if c.synch then Dispatched(h') else h'
      else h.(clients := h.clients[i := c.(lost := c.lost + 1)])
  }

  function ModeSet(h: Hub, synch: bool): Hub {
    if h.synch == synch then h
    else h.(synch := synch,
            clients := seq(|h.clients|, i requires 0 <= i < |h.clients| => h.clients[i].(synch := synch)))
  }

  function Registered(h: Hub): Hub {
    h.(clients := h.clients + [Client([], 0, 0, 0, h.synch)])
  }

  /** Deliveries never overtake, the cursor is a client, and every client follows the adapter's mode. */
  predicate Valid(h: Hub) {
    && (forall i | 0 <= i < |h.clients| :: h.clients[i].taken <= |h.clients[i].sent| && h.clients[i].synch == h.synch)
    && (h.clients != [] ==> h.cindex < |h.clients|)
    && (h.clients == [] ==> h.cindex == 0)
  }

  class LoggerAdapter {
    const cap: nat
    var clients: seq<Client>
    var cindex: nat
    var synch: bool
    var out: seq<(nat, Event)>

    function View(): Hub
      reads this
    {
      Hub(clients, cindex, synch, out)
    }

    constructor (cap: nat)
      ensures this.cap == cap && Valid(View())
      ensures View() == Initial()
      ensures |clients| == 1 && clients[0].Pending() == 0 && cindex == 0 && out == [] && synch
    {
      this.cap := cap;
      clients := [Client([], 0, 0, 0, true)];
      cindex := 0;
      synch := true;
      out := [];
    }

    method Register()
      requires Valid(View())
      modifies this
      ensures Valid(View()) && View() == Registered(old(View()))
      ensures cindex == old(cindex) && out == old(out) && synch == old(synch)
      ensures clients == old(clients) + [Client([], 0, 0, 0, old(synch))]
    {
      clients := clients + [Client([], 0, 0, 0, synch)];
    }

    /** Serves at most one event; false means every queue scanned was empty, and all were scanned. */
    method Dispatch() returns (flush: bool)
      requires Valid(View())
      modifies this`clients, this`cindex, this`out
      ensures Valid(View()) && View() == Dispatched(old(View()))
      ensures flush <==> exists i | 0 <= i < |old(clients)| :: old(clients)[i].Pending() > 0
      ensures flush <==> |out| == |old(out)| + 1
    {
      ghost var h := View();
      var i := 0;
      flush := false;
      while i < |clients|
        invariant 0 <= i <= |clients| && View() == h && !flush
        invariant h.clients != [] ==> FirstBusy(h, 0) == FirstBusy(h, i)
      {
        var c := (cindex + i) % |clients|;
        assert c == At(h, i);
        var source := clients[c];
        if source.taken < |source.sent| {
          clients := clients[c := source.(taken := source.taken + 1)];
          out := out + [(c, source.sent[source.taken])];
          flush := true;
          break;
        }
        i := i + 1;
      }
      if flush {
        cindex := cindex + i + 1;
        cindex := cindex % |clients|;
      } else {
        NobodyBusy(h);
      }
    }

    /** try_log_event: the queue write, then in synch mode a dispatch, or the lost counter. */
    method TryLog(i: nat, p: Event) returns (write: bool)
      requires Valid(View()) && i < |clients|
      modifies this
      ensures Valid(View()) && View() == Logged(cap, old(View()), i, p)
      ensures write <==> old(clients)[i].Pending() < cap
    {
      var c := clients[i].(attempts := clients[i].attempts + 1);
      write := c.Pending() < cap;
      if write {
        clients := clients[i := c.(sent := c.sent + [p])];
        if c.synch {
          var _ := Dispatch();
        }
      } else {
        clients := clients[i := c.(lost := c.lost + 1)];
      }
    }

    method ChangeMode(newMode: bool)
      requires Valid(View())
      modifies this`synch, this`clients
      ensures Valid(View()) && View() == ModeSet(old(View()), newMode)
    {
      if synch != newMode {
        synch := newMode;
        var i := 0;
        while i < |clients|
          invariant 0 <= i <= |clients| == |old(clients)| && synch == newMode
          invariant forall j | 0 <= j < |clients| ::
                      clients[j] == if j < i then old(clients)[j].(synch := newMode) else old(clients)[j]
        {
          clients := clients[i := clients[i].(synch := newMode)];
          i := i + 1;
        }
        assert clients == ModeSet(old(View()), newMode).clients;
      }
    }
  }

  /** Every client is scanned: from a valid cursor, each index is one of the offsets 0..M-1. */
  lemma {:induction false} NobodyBusy(h: Hub)
    requires Valid(h) && (h.clients != [] ==> FirstBusy(h, 0) == |h.clients|)
    ensures forall i | 0 <= i < |h.clients| :: h.clients[i].Pending() <= 0
  {
    forall i | 0 <= i < |h.clients| ensures h.clients[i].Pending() <= 0 {
      assert !Busy(h, Distance(h, i));
    }
  }

  /** How many clients come before j in the next scan. */
  function Distance(h: Hub, j: nat): (d: nat)
    requires Valid(h) && j < |h.clients|
    ensures d < |h.clients| && At(h, d) == j
  {
    Wrap(h.cindex, if j >= h.cindex then j - h.cindex else j + |h.clients| - h.cindex, |h.clients|);
    if j >= h.cindex then j - h.cindex else j + |h.clients| - h.cindex
  }

  lemma Wrap(a: nat, o: nat, m: nat)
    requires a < m && o <= m
    ensures (a + o) % m == if a + o < m then a + o else a + o - m
  {
  }

  // ---------------------------------------------------------------- runs

  datatype Op = Log(i: nat, p: Event) | Dispatch | Mode(synch: bool) | Register

  function Apply(cap: nat, h: Hub, op: Op): Hub {
    match op
    case Log(i, p) => Logged(cap, h, i, p)
    case Dispatch => Dispatched(h)
    case Mode(b) => ModeSet(h, b)
    case Register => Registered(h)
  }

  function Run(cap: nat, h: Hub, ops: seq<Op>): Hub
    decreases |ops|
  {
    if ops == [] then h else Run(cap, Apply(cap, h, ops[0]), ops[1..])
  }

  /** A dispatch changes nothing, or serves one busy client and moves the cursor behind it. */
  lemma {:induction false} DispatchedEffect(h: Hub) returns (c: nat)
    requires Valid(h)
    ensures Valid(Dispatched(h)) && |Dispatched(h).clients| == |h.clients|
    ensures Dispatched(h) != h ==> Serves(h, c)
    ensures Dispatched(h) == h ==> forall i | 0 <= i < |h.clients| :: h.clients[i].Pending() <= 0
  {
    c := 0;
    if h.clients != [] && FirstBusy(h, 0) < |h.clients| {
      var o := FirstBusy(h, 0);
      c := At(h, o);
      Wrap(h.cindex, o, |h.clients|);
      Wrap(h.cindex, o + 1, |h.clients|);
      Wrap(c, 1, |h.clients|);
      assert |Dispatched(h).out| > |h.out|;
    } else {
      NobodyBusy(h);
    }
  }

  /** Client j comes before client c when one goes round from the cursor. */
  predicate ComesBefore(cursor: nat, j: nat, c: nat) {
    if cursor <= c then cursor <= j < c else cursor <= j || j < c
  }

  /**
   Which client a dispatch serves: the first one with something pending, going round from the
   cursor; the cursor then stands behind it.
   */
  lemma {:induction false} DispatchOrder(h: Hub, i: nat) returns (c: nat)
    requires Valid(h) && i < |h.clients| && h.clients[i].Pending() > 0
    ensures c < |h.clients| && h.clients[c].Pending() > 0
    ensures forall j | 0 <= j < |h.clients| && ComesBefore(h.cindex, j, c) :: h.clients[j].Pending() == 0
    ensures Dispatched(h).out == h.out + [(c, h.clients[c].sent[h.clients[c].taken])]
    ensures Dispatched(h).clients == h.clients[c := h.clients[c].(taken := h.clients[c].taken + 1)]
    ensures Dispatched(h).cindex == if c + 1 == |h.clients| then 0 else c + 1
  {
    var o := FirstBusy(h, 0);
    assert Busy(h, Distance(h, i));
    c := At(h, o);
    Wrap(h.cindex, o, |h.clients|);
    Wrap(h.cindex, o + 1, |h.clients|);
    forall j: nat | j < |h.clients| && ComesBefore(h.cindex, j, c) ensures h.clients[j].Pending() == 0 {
      assert !Busy(h, Distance(h, j));
    }
  }

  /** A dispatch after a registration serves the same client, with the same event, as one without it. */
  lemma {:induction false} RegisterKeepsTurn(h: Hub, i: nat)
    requires Valid(h) && i < |h.clients| && h.clients[i].Pending() > 0
    ensures Valid(Registered(h))
    ensures Dispatched(Registered(h)).out == Dispatched(h).out
    ensures Dispatched(Registered(h)).clients == Dispatched(h).clients + [Client([], 0, 0, 0, h.synch)]
  {
    var c := DispatchOrder(h, i);
    var d := DispatchOrder(Registered(h), i);
    SameTurn(h, c, d);
  }

  /** The new client has nothing pending, so the first pending one of both rounds is the same. */
  lemma {:induction false} SameTurn(h: Hub, c: nat, d: nat)
    requires Valid(h) && c < |h.clients| && d <= |h.clients|
    requires h.clients[c].Pending() > 0 && Registered(h).clients[d].Pending() > 0
    requires forall j | 0 <= j < |h.clients| && ComesBefore(h.cindex, j, c) :: h.clients[j].Pending() == 0
    requires forall j | 0 <= j <= |h.clients| && ComesBefore(h.cindex, j, d) ::
               Registered(h).clients[j].Pending() == 0
    ensures c == d
  {
    assert Registered(h).clients[c] == h.clients[c];
    assert !ComesBefore(h.cindex, c, d);
    assert d < |h.clients| ==> Registered(h).clients[d] == h.clients[d];
    assert !ComesBefore(h.cindex, d, c);
  }

  predicate Serves(h: Hub, c: nat) {
    && c < |h.clients| && h.clients[c].taken < |h.clients[c].sent|
    && Dispatched(h) == Deliver(h, c).(cindex := (c + 1) % |h.clients|)
  }

  /** What the listener received from client j, in order. */
  function From(out: seq<(nat, Event)>, j: nat): seq<Event> {
    if out == [] then []
    else From(out[..|out| - 1], j) + (if out[|out| - 1].0 == j then [out[|out| - 1].1] else [])
  }

  /** A client's attempts are delivered, pending or lost, and the delivered ones are a prefix of the accepted. */
  predicate AddsUp(c: Client, delivered: seq<Event>) {
    && c.taken <= |c.sent|
    && c.attempts == c.taken + c.Pending() + c.lost
    && delivered == c.sent[..c.taken]
  }

  /** Every attempt is delivered, pending or lost, and the listener saw each client's payloads in order. */
  predicate Balanced(h: Hub) {
    && Valid(h)
    && (forall j: nat | j < |h.clients| :: AddsUp(h.clients[j], From(h.out, j)))
    && (forall k | 0 <= k < |h.out| :: h.out[k].0 < |h.clients|)
  }

  lemma {:induction false} DispatchBalanced(h: Hub)
    requires Balanced(h)
    ensures Balanced(Dispatched(h))
  {
    var c := DispatchedEffect(h);
    var t := Dispatched(h);
    if t != h {
      assert t.out[..|t.out| - 1] == h.out;
      forall j: nat | j < |t.clients| ensures AddsUp(t.clients[j], From(t.out, j)) {
        assert AddsUp(h.clients[j], From(h.out, j));
      }
    }
  }

  lemma {:induction false} NotFromNew(out: seq<(nat, Event)>, j: nat)
    requires forall k | 0 <= k < |out| :: out[k].0 < j
    ensures From(out, j) == []
  {
    if out != [] { NotFromNew(out[..|out| - 1], j); }
  }

  lemma {:induction false} AcceptedBalanced(h: Hub, i: nat, p: Event)
    requires Balanced(h) && i < |h.clients|
    ensures Balanced(Accepted(h, i, p))
  {
    var t := Accepted(h, i, p);
    forall j: nat | j < |t.clients| ensures AddsUp(t.clients[j], From(t.out, j)) {
      assert AddsUp(h.clients[j], From(h.out, j));
    }
  }

  lemma {:induction false} LogBalanced(cap: nat, h: Hub, i: nat, p: Event)
    requires Balanced(h) && i < |h.clients|
    ensures Balanced(Logged(cap, h, i, p))
  {
    LoggedCases(cap, h, i, p);
    if h.clients[i].Pending() < cap {
      AcceptedBalanced(h, i, p);
      DispatchBalanced(Accepted(h, i, p));
    } else {
      var t := Logged(cap, h, i, p);
      forall j: nat | j < |t.clients| ensures AddsUp(t.clients[j], From(t.out, j)) {
        assert AddsUp(h.clients[j], From(h.out, j));
      }
    }
  }

  lemma {:induction false} ModeBalanced(h: Hub, synch: bool)
    requires Balanced(h)
    ensures Balanced(ModeSet(h, synch))
  {
    var t := ModeSet(h, synch);
    forall j: nat | j < |t.clients| ensures AddsUp(t.clients[j], From(t.out, j)) {
      assert AddsUp(h.clients[j], From(h.out, j));
    }
  }

  lemma {:induction false} RegisterBalanced(h: Hub)
    requires Balanced(h)
    ensures Balanced(Registered(h))
  {
    NotFromNew(h.out, |h.clients|);
    var t := Registered(h);
    forall j: nat | j < |t.clients| ensures AddsUp(t.clients[j], From(t.out, j)) {
      if j < |h.clients| { assert AddsUp(h.clients[j], From(h.out, j)); }
    }
  }

  lemma {:induction false} ApplyBalanced(cap: nat, h: Hub, op: Op)
    requires Balanced(h)
    ensures Balanced(Apply(cap, h, op))
  {
    match op
    case Log(i, p) => if i < |h.clients| { LogBalanced(cap, h, i, p); }
    case Dispatch => DispatchBalanced(h);
    case Mode(b) => ModeBalanced(h, b);
    case Register => RegisterBalanced(h);
  }

  /** End-to-end accounting over every run: logging, dispatching, mode changes and registrations in any order. */
  lemma {:induction false} RunBalanced(cap: nat, h: Hub, ops: seq<Op>)
    requires Balanced(h)
    ensures Balanced(Run(cap, h, ops))
    decreases |ops|
  {
    if ops != [] {
      ApplyBalanced(cap, h, ops[0]);
      RunBalanced(cap, Apply(cap, h, ops[0]), ops[1..]);
    }
  }

  /** A newly constructed adapter: the constructor's postcondition. */
  function Initial(): Hub {
    Registered(Hub([], 0, true, []))
  }

  /** Where every run starts: one client, that of the constructing thread, nothing logged, nothing pending. */
  lemma InitialHub()
    ensures Balanced(Initial()) && Drained(Initial()) && Initial().synch
    ensures |Initial().clients| == 1 && Initial().cindex == 0 && Initial().out == []
    ensures Initial().clients[0] == Client([], 0, 0, 0, true)
  {
    RegisterBalanced(Hub([], 0, true, []));
  }

  // ---------------------------------------------------------------- no starvation

  function Dispatches(ops: seq<Op>): nat {
    if ops == [] then 0 else (if ops[0].Dispatch? then 1 else 0) + Dispatches(ops[1..])
  }

  /** A dispatch while j has something pending serves j, or brings the cursor strictly closer to it. */
  lemma {:induction false} DispatchApproaches(h: Hub, j: nat)
    requires Valid(h) && j < |h.clients| && h.clients[j].Pending() > 0
    ensures Valid(Dispatched(h)) && Approached(h, Dispatched(h), j, 1)
  {
    var c := DispatchedEffect(h);
    var M, d, o := |h.clients|, Distance(h, j), FirstBusy(h, 0);
    assert Busy(h, d);
    assert o <= d;
    Wrap(h.cindex, o, M);
    Wrap(h.cindex, o + 1, M);
    Wrap(h.cindex, d, M);
  }

  /** j was served, or the cursor is at least `gain` clients closer to it; j's queue only grew. */
  predicate Approached(h: Hub, t: Hub, j: nat, gain: nat)
    requires Valid(h) && Valid(t) && j < |h.clients|
  {
    && |t.clients| == |h.clients| && h.clients[j].sent <= t.clients[j].sent
    && (t.clients[j].taken == h.clients[j].taken + 1
        || (t.clients[j].taken == h.clients[j].taken && Distance(t, j) + gain <= Distance(h, j)))
  }

  /** The state between accepting client i's event and the synch-mode dispatch. */
  function Accepted(h: Hub, i: nat, p: Event): Hub
    requires i < |h.clients|
  {
    h.(clients := h.clients[i := h.clients[i].(attempts := h.clients[i].attempts + 1, sent := h.clients[i].sent + [p])])
  }

  lemma {:induction false} LoggedCases(cap: nat, h: Hub, i: nat, p: Event)
    requires Valid(h) && i < |h.clients|
    ensures Valid(Accepted(h, i, p))
    ensures h.clients[i].Pending() < cap ==>
              Logged(cap, h, i, p) == if h.synch then Dispatched(Accepted(h, i, p)) else Accepted(h, i, p)
    ensures h.clients[i].Pending() >= cap ==>
              Logged(cap, h, i, p) == h.(clients := h.clients[i := h.clients[i].(attempts := h.clients[i].attempts + 1,
                                                                               lost := h.clients[i].lost + 1)])
  {
  }

  lemma {:induction false} LogApproaches(cap: nat, h: Hub, op: Op, j: nat)
    requires Valid(h) && j < |h.clients| && h.clients[j].Pending() > 0 && (op.Log? || op.Mode?)
    ensures Valid(Apply(cap, h, op)) && Approached(h, Apply(cap, h, op), j, 0)
  {
    if op.Log? && op.i < |h.clients| {
      LoggedCases(cap, h, op.i, op.p);
      if h.clients[op.i].Pending() < cap && h.synch {
        DispatchApproaches(Accepted(h, op.i, op.p), j);
      }
    }
  }

  /**
   Starvation bound for M clients: k pending events of client j are delivered once
   (k - 1) * M + Distance + 1 dispatches have run, whatever is logged meanwhile.
   */
  lemma {:induction false} ServedInTime(cap: nat, h: Hub, ops: seq<Op>, j: nat, k: nat)
    requires Valid(h) && j < |h.clients| && k <= h.clients[j].Pending()
    requires forall x | 0 <= x < |ops| :: !ops[x].Register?
    requires Enough(h, ops, j, k)
    ensures |Run(cap, h, ops).clients| == |h.clients|
    ensures Run(cap, h, ops).clients[j].taken >= h.clients[j].taken + k
    decreases |ops|
  {
    if ops == [] {
      if k >= 1 { OneMoreScan(k - 1, |h.clients|); }
    } else {
      var t := Apply(cap, h, ops[0]);
      NothingUndone(cap, h, ops[0]);
      if k >= 1 {
        if ops[0].Dispatch? { DispatchApproaches(h, j); } else { LogApproaches(cap, h, ops[0], j); }
        EnoughLeft(h, t, ops, j, k);
        ServedInTime(cap, t, ops[1..], j, k - (t.clients[j].taken - h.clients[j].taken));
      } else {
        ServedInTime(cap, t, ops[1..], j, 0);
      }
    }
  }

  /** What the first operation leaves of a sufficient number of dispatches is sufficient for what is left to serve. */
  lemma {:induction false} EnoughLeft(h: Hub, t: Hub, ops: seq<Op>, j: nat, k: nat)
    requires Valid(h) && Valid(t) && j < |h.clients| && ops != [] && k >= 1 && Enough(h, ops, j, k)
    requires Approached(h, t, j, if ops[0].Dispatch? then 1 else 0)
    ensures t.clients[j].taken - h.clients[j].taken <= 1
    ensures Enough(t, ops[1..], j, k - (t.clients[j].taken - h.clients[j].taken))
  {
    OneMoreScan(k - 1, |h.clients|);
  }

  predicate Enough(h: Hub, ops: seq<Op>, j: nat, k: nat)
    requires Valid(h) && j < |h.clients|
  {
    k >= 1 ==> Dispatches(ops) >= (k - 1) * |h.clients| + Distance(h, j) + 1
  }

  /** One more full scan of m clients. */
  lemma OneMoreScan(k: nat, m: nat)
    ensures k * m >= 0 && (k >= 1 ==> k * m == (k - 1) * m + m)
  {
  }

  lemma {:induction false} NothingUndone(cap: nat, h: Hub, op: Op)
    requires Valid(h) && !op.Register?
    ensures Valid(Apply(cap, h, op)) && Extends(h, Apply(cap, h, op))
  {
    match op
    case Log(i, p) => if i < |h.clients| { LogUndoesNothing(cap, h, i, p); }
    case Dispatch => DispatchUndoesNothing(h);
    case Mode(_) =>
  }

  /** The clients of t continue those of h. */
  predicate Extends(h: Hub, t: Hub) {
    && |t.clients| == |h.clients|
    && forall j | 0 <= j < |h.clients| ::
         h.clients[j].taken <= t.clients[j].taken && h.clients[j].sent <= t.clients[j].sent
  }

  lemma {:induction false} DispatchUndoesNothing(h: Hub)
    requires Valid(h)
    ensures Valid(Dispatched(h)) && Extends(h, Dispatched(h))
  {
    var _ := DispatchedEffect(h);
  }

  lemma {:induction false} LogUndoesNothing(cap: nat, h: Hub, i: nat, p: Event)
    requires Valid(h) && i < |h.clients|
    ensures Valid(Logged(cap, h, i, p)) && Extends(h, Logged(cap, h, i, p))
  {
    LoggedCases(cap, h, i, p);
    DispatchUndoesNothing(Accepted(h, i, p));
    assert Extends(h, Accepted(h, i, p));
  }

  /** The first pending event of any client is out after one round of M dispatches. */
  lemma {:induction false} ServedWithinOneRound(cap: nat, h: Hub, ops: seq<Op>, j: nat)
    requires Valid(h) && j < |h.clients| && h.clients[j].Pending() > 0
    requires forall x | 0 <= x < |ops| :: !ops[x].Register?
    requires Dispatches(ops) >= |h.clients|
    ensures |Run(cap, h, ops).clients| == |h.clients|
    ensures Run(cap, h, ops).clients[j].taken > h.clients[j].taken
  {
    ServedInTime(cap, h, ops, j, 1);
  }

  // ---------------------------------------------------------------- synchronous mode

  predicate Drained(h: Hub) {
    Valid(h) && forall i | 0 <= i < |h.clients| :: h.clients[i].Pending() == 0
  }

  /** With every queue empty, a synch-mode log call hands exactly its own event to the listener. */
  lemma {:induction false} SynchLogDelivers(cap: nat, h: Hub, i: nat, p: Event)
    requires Drained(h) && h.synch && i < |h.clients| && cap >= 1
    ensures var t := Logged(cap, h, i, p);
            && Drained(t) && t.synch && |t.clients| == |h.clients|
            && t.out == h.out + [(i, p)]
            && (forall j | 0 <= j < |h.clients| :: t.clients[j].lost == h.clients[j].lost)
  {
    LoggedCases(cap, h, i, p);
    var m := Accepted(h, i, p);
    assert m.clients[i].Pending() == 1;
    var c := DispatchedEffect(m);
    assert m.clients[c].Pending() > 0 ==> c == i;
  }

  /** The adapter is not switched to asynch mode during these calls. */
  predicate StaysSynch(ops: seq<Op>) {
    forall x | 0 <= x < |ops| :: ops[x] != Mode(false)
  }

  /** The events of the log calls, in call order; m clients are registered before the first call. */
  function Events(ops: seq<Op>, m: nat): seq<(nat, Event)>
    decreases |ops|
  {
    if ops == [] then []
    else match ops[0]
         case Log(i, p) => (if i < m then [(i, p)] else []) + Events(ops[1..], m)
         case Register => Events(ops[1..], m + 1)
         case _ => Events(ops[1..], m)
  }

  /** t has the lost counts of h, and 0 for clients registered since. */
  predicate SameLosses(h: Hub, t: Hub) {
    && |h.clients| <= |t.clients|
    && forall j | 0 <= j < |t.clients| :: t.clients[j].lost == if j < |h.clients| then h.clients[j].lost else 0
  }

  lemma {:induction false} SynchStep(cap: nat, h: Hub, op: Op)
    requires Drained(h) && h.synch && cap >= 1 && op != Mode(false)
    ensures var t := Apply(cap, h, op);
            && Drained(t) && t.synch && SameLosses(h, t) && t.out == h.out + Events([op], |h.clients|)
            && |t.clients| == |h.clients| + (if op.Register? then 1 else 0)
  {
    assert [op][1..] == [];
    match op
    case Log(i, p) => if i < |h.clients| { SynchLogDelivers(cap, h, i, p); }
    case Dispatch =>
      var c := DispatchedEffect(h);
      assert Serves(h, c) ==> h.clients[c].Pending() > 0;
    case _ =>
  }

  /**
   A run that stays in synch mode, with log calls, dispatches and registrations in any order,
   loses nothing, leaves every queue empty, and delivers every event in call order.
   */
  lemma {:induction false} SynchRunDeliversAll(cap: nat, h: Hub, ops: seq<Op>)
    requires Drained(h) && h.synch && cap >= 1 && StaysSynch(ops)
    ensures var t := Run(cap, h, ops);
            Drained(t) && SameLosses(h, t) && t.out == h.out + Events(ops, |h.clients|)
    decreases |ops|
  {
    if ops != [] {
      var m := Apply(cap, h, ops[0]);
      SynchStep(cap, h, ops[0]);
      SynchRunDeliversAll(cap, m, ops[1..]);
      SynchChain(h, m, Run(cap, h, ops), ops);
    }
  }

  lemma {:induction false} SynchChain(h: Hub, m: Hub, t: Hub, ops: seq<Op>)
    requires ops != [] && SameLosses(h, m) && SameLosses(m, t)
    requires |m.clients| == |h.clients| + (if ops[0].Register? then 1 else 0)
    requires m.out == h.out + Events([ops[0]], |h.clients|) && t.out == m.out + Events(ops[1..], |m.clients|)
    ensures SameLosses(h, t) && t.out == h.out + Events(ops, |h.clients|)
  {
    EventsHead(h.out, ops, |h.clients|);
  }

  lemma {:induction false} EventsHead(out: seq<(nat, Event)>, ops: seq<Op>, m: nat)
    requires ops != []
    ensures out + Events(ops, m)
         == out + Events([ops[0]], m) + Events(ops[1..], m + (if ops[0].Register? then 1 else 0))
  {
    assert [ops[0]][1..] == [];
    assert Events([ops[0]], m) + Events(ops[1..], m + (if ops[0].Register? then 1 else 0)) == Events(ops, m);
  }

  function Backlog(clients: seq<Client>): int {
    if clients == [] then 0 else Backlog(clients[..|clients| - 1]) + clients[|clients| - 1].Pending()
  }

  lemma {:induction false} BacklogUpdate(clients: seq<Client>, i: nat, c: Client)
    requires i < |clients|
    ensures Backlog(clients[i := c]) == Backlog(clients) + c.Pending() - clients[i].Pending()
  {
    var last := |clients| - 1;
    if i == last {
      assert clients[i := c][..last] == clients[..last];
    } else {
      BacklogUpdate(clients[..last], i, c);
      assert clients[i := c][..last] == clients[..last][i := c];
    }
  }

  /** In a later synch phase the backlog left from asynch mode never grows: each accepted event drains one. */
  lemma {:induction false} SynchBacklogNeverGrows(cap: nat, h: Hub, i: nat, p: Event)
    requires Valid(h) && h.synch && i < |h.clients|
    ensures Valid(Logged(cap, h, i, p)) && Logged(cap, h, i, p).synch
    ensures Backlog(Logged(cap, h, i, p).clients) == Backlog(h.clients)
  {
    LoggedCases(cap, h, i, p);
    var t := Logged(cap, h, i, p);
    if h.clients[i].Pending() < cap {
      var m := Accepted(h, i, p);
      BacklogUpdate(h.clients, i, m.clients[i]);
      assert m.clients[i].Pending() > 0;
      var c := DispatchedEffect(m);
      BacklogUpdate(m.clients, c, t.clients[c]);
    } else {
      BacklogUpdate(h.clients, i, t.clients[i]);
    }
  }

  lemma {:induction false} SynchBacklogStep(cap: nat, h: Hub, op: Op)
    requires Valid(h) && h.synch && op != Mode(false)
    ensures Valid(Apply(cap, h, op)) && Apply(cap, h, op).synch
    ensures Backlog(Apply(cap, h, op).clients) <= Backlog(h.clients)
  {
    match op
    case Log(i, p) => if i < |h.clients| { SynchBacklogNeverGrows(cap, h, i, p); }
    case Dispatch =>
      var c := DispatchedEffect(h);
      if Serves(h, c) { BacklogUpdate(h.clients, c, Dispatched(h).clients[c]); }
    case Mode(_) =>
    case Register => assert Registered(h).clients[..|h.clients|] == h.clients;
  }

  /** Over a whole synch phase the backlog never exceeds what it was at the switch. */
  lemma {:induction false} SynchPhaseNeverGrows(cap: nat, h: Hub, ops: seq<Op>)
    requires Valid(h) && h.synch && StaysSynch(ops)
    ensures Backlog(Run(cap, h, ops).clients) <= Backlog(h.clients)
    decreases |ops|
  {
    if ops != [] {
      SynchBacklogStep(cap, h, ops[0]);
      SynchPhaseNeverGrows(cap, Apply(cap, h, ops[0]), ops[1..]);
    }
  }
}
