/**
 The dispatcher as a round-robin over ledgers: what each client's queue accepted so far, what the
 listener was told, and where the one dispatcher thread is inside dispatch(). Accepted events may
 appear between any two of its steps. DispatcherTheorems shows that every run of the queues, slab
 pools and dispatcher is such a path.
 */
module RoundRobin {
  import opened Common
  import A = Adapter

  /** i counts the clients from the cursor. */
  datatype Phase =
    | Idle
    | Scanning(i: nat)
    | Notifying(i: nat)
    | Dropping(i: nat)
    | Freeing(i: nat)
    | Advancing(i: nat)
    | Returned(flush: bool)

  /** ended counts the calls of dispatch that returned. */
  datatype Ledger = Ledger(cindex: nat, phase: Phase, ended: nat, out: seq<(nat, Event)>, accepted: seq<seq<Event>>)

  predicate PhaseOk(m: nat, phase: Phase) {
    match phase
    case Idle => true
    case Returned(_) => true
    case Scanning(i) => i <= m
    case Notifying(i) => i < m
    case Dropping(i) => i < m
    case Freeing(i) => i < m
    case Advancing(i) => i < m
  }

  /** The client at offset o of a scan that starts at the cursor. */
  function At(m: nat, cindex: nat, o: nat): (c: nat)
    requires m >= 1
    ensures c < m
  {
    (cindex + o) % m
  }

  function Told(l: Ledger, c: nat): nat {
    |A.From(l.out, c)|
  }

  function Pending(l: Ledger, c: nat): int
    requires c < |l.accepted|
  {
    |l.accepted[c]| - Told(l, c)
  }

  /** A client whose event the dispatcher took, and has not told the listener yet, has something pending. */
  predicate Ok(m: nat, l: Ledger) {
    && m == |l.accepted| && l.cindex < m && PhaseOk(m, l.phase)
    && (forall c: nat | c < m :: Told(l, c) <= |l.accepted[c]|)
    && (l.phase.Notifying? ==> Pending(l, At(m, l.cindex, l.phase.i)) > 0)
  }

  /** The dispatcher's next step. */
  function Turn(m: nat, l: Ledger): Ledger
    requires Ok(m, l)
  {
    match l.phase
    case Idle => l.(phase := Scanning(0))
    case Returned(_) => l.(phase := Scanning(0))
    case Scanning(i) =>
      if i >= m then l.(phase := Returned(false), ended := l.ended + 1)
      else if Pending(l, At(m, l.cindex, i)) > 0 then l.(phase := Notifying(i))
      else l.(phase := Scanning(i + 1))
    case Notifying(i) =>
      var c := At(m, l.cindex, i);
      l.(phase := Dropping(i), out := l.out + [(c, l.accepted[c][Told(l, c)])])
    case Dropping(i) => l.(phase := Freeing(i))
    case Freeing(i) => l.(phase := Advancing(i))
    case Advancing(i) => l.(phase := Returned(true), ended := l.ended + 1, cindex := At(m, l.cindex, i + 1))
  }

  /** Steps of the clients: more may be accepted. */
  predicate Accepts(m: nat, l: Ledger, n: Ledger)
    requires Ok(m, l)
  {
    && n == l.(accepted := n.accepted) && |n.accepted| == m
    && forall c: nat | c < m :: l.accepted[c] <= n.accepted[c]
  }

  predicate Moves(m: nat, l: Ledger, n: Ledger)
    requires Ok(m, l)
  {
    Accepts(m, l, n) || n == Turn(m, l)
  }

  /** Consecutive ledgers of a run. */
  predicate Path(m: nat, ls: seq<Ledger>) {
    && (forall x | 0 <= x < |ls| :: Ok(m, ls[x]))
    && (forall x, y | 0 <= x && y == x + 1 < |ls| :: Moves(m, ls[x], ls[y]))
  }

  lemma {:induction false} FromOne(out: seq<(nat, Event)>, c: nat, e: Event, j: nat)
    ensures A.From(out + [(c, e)], j) == A.From(out, j) + (if j == c then [e] else [])
  {
    assert (out + [(c, e)])[..|out|] == out;
  }

  /** A step tells the listener at most the next event of the client being notified. */
  lemma {:induction false} TurnTells(m: nat, l: Ledger, j: nat)
    requires Ok(m, l) && j < m
    ensures Told(Turn(m, l), j)
         == Told(l, j) + (if l.phase.Notifying? && At(m, l.cindex, l.phase.i) == j then 1 else 0)
  {
    if l.phase.Notifying? {
      var c := At(m, l.cindex, l.phase.i);
      FromOne(l.out, c, l.accepted[c][Told(l, c)], j);
    }
  }

  // ---------------------------------------------------------------- no starvation

  /** How many clients a scan probes before client j. */
  function Dist(m: nat, cindex: nat, j: nat): (d: nat)
    requires cindex < m && j < m
    ensures d < m && At(m, cindex, d) == j
  {
    A.Wrap(cindex, if j >= cindex then j - cindex else j + m - cindex, m);
    if j >= cindex then j - cindex else j + m - cindex
  }

  lemma OffsetOf(m: nat, cindex: nat, i: nat, j: nat)
    requires cindex < m && i < m && j < m
    ensures At(m, cindex, i) == j <==> i == Dist(m, cindex, j)
  {
    A.Wrap(cindex, i, m);
  }

  /** What the distance d becomes when the client at offset i was served. */
  function After(m: nat, d: nat, i: nat): (r: nat)
    requires d < m && i < m
    ensures r < m
  {
    if i < d then d - i - 1 else d + m - i - 1
  }

  lemma DistAfter(m: nat, cindex: nat, i: nat, j: nat)
    requires cindex < m && i < m && j < m
    ensures Dist(m, At(m, cindex, i + 1), j) == After(m, Dist(m, cindex, j), i)
  {
    A.Wrap(cindex, i + 1, m);
  }

  /** How many calls of dispatch must return, the current one included, until a pending client j is served. */
  function Need(m: nat, l: Ledger, j: nat): (n: nat)
    requires Ok(m, l) && j < m
    ensures 1 <= n <= m + 1
    ensures l.phase.Idle? || l.phase.Returned? ==> n == Dist(m, l.cindex, j) + 1 <= m
  {
    var d := Dist(m, l.cindex, j);
    match l.phase
    case Idle => d + 1
    case Returned(_) => d + 1
    case Scanning(i) => if i <= d then d + 1 else m + 1
    case Notifying(i) => if i == d then 1 else After(m, d, i) + 2
    case Dropping(i) => After(m, d, i) + 2
    case Freeing(i) => After(m, d, i) + 2
    case Advancing(i) => After(m, d, i) + 2
  }

  /** Calls that return are paid for from Need; an event of client j that the listener is told earns a round. */
  predicate Pays(m: nat, l: Ledger, n: Ledger, j: nat)
    requires Ok(m, l) && Ok(m, n) && j < m
  {
    var told := Told(n, j) - Told(l, j);
    0 <= told <= 1 && n.ended + Need(m, n, j) <= l.ended + Need(m, l, j) + (if told == 1 then m else 0)
  }

  lemma {:induction false} TurnPays(m: nat, l: Ledger, j: nat)
    requires Ok(m, l) && Ok(m, Turn(m, l)) && j < m && Pending(l, j) > 0
    ensures Pays(m, l, Turn(m, l), j)
  {
    TurnTells(m, l, j);
    match l.phase
    case Scanning(i) => if i < m { OffsetOf(m, l.cindex, i, j); }
    case Notifying(i) => OffsetOf(m, l.cindex, i, j);
    case Advancing(i) => DistAfter(m, l.cindex, i, j);
    case _ =>
  }

  lemma {:induction false} MovePays(m: nat, l: Ledger, n: Ledger, j: nat)
    requires Ok(m, l) && Ok(m, n) && j < m && Pending(l, j) > 0 && Moves(m, l, n)
    ensures Pays(m, l, n, j)
  {
    if n == Turn(m, l) { TurnPays(m, l, j); }
  }

  lemma {:induction false} MoveGrows(m: nat, l: Ledger, n: Ledger, j: nat)
    requires Ok(m, l) && j < m && Moves(m, l, n)
    ensures |n.accepted| == m && l.accepted[j] <= n.accepted[j] && Told(l, j) <= Told(n, j)
  {
    if n == Turn(m, l) { TurnTells(m, l, j); }
  }

  /** While fewer than k of k pending events were told, the calls that returned are within budget. */
  lemma {:induction false} Budget(m: nat, ls: seq<Ledger>, j: nat, k: nat, x: nat) returns (told: nat)
    requires Path(m, ls) && x < |ls| && j < m && k <= Pending(ls[0], j)
    ensures |ls[x].accepted| == m && ls[0].accepted[j] <= ls[x].accepted[j]
    ensures told == Told(ls[x], j) - Told(ls[0], j)
    ensures told < k ==> ls[x].ended + Need(m, ls[x], j) <= ls[0].ended + Need(m, ls[0], j) + told * m
  {
    if x == 0 {
      told := 0;
    } else {
      var so := Budget(m, ls, j, k, x - 1);
      var l, n := ls[x - 1], ls[x];
      assert Moves(m, l, n);
      MoveGrows(m, l, n, j);
      told := Told(n, j) - Told(ls[0], j);
      if so < k {
        MovePays(m, l, n, j);
        RoundMore(so, told, m);
      }
    }
  }

  lemma RoundMore(a: nat, b: nat, m: nat)
    requires a == b || b == a + 1
    ensures b * m == a * m + (if b == a then 0 else m)
  {
  }

  lemma RoundsLess(a: nat, b: nat, m: nat)
    requires a <= b
    ensures a * m <= b * m
  {
    assert b * m == a * m + (b - a) * m;
  }

  /** k pending events of client j are told once Need + (k - 1) * m more calls of dispatch returned. */
  lemma {:induction false} PathServes(m: nat, ls: seq<Ledger>, j: nat, k: nat)
    requires Path(m, ls) && ls != [] && j < m && 1 <= k <= Pending(ls[0], j)
    requires ls[|ls| - 1].ended >= ls[0].ended + Need(m, ls[0], j) + (k - 1) * m
    ensures Told(ls[|ls| - 1], j) >= Told(ls[0], j) + k
  {
    var told := Budget(m, ls, j, k, |ls| - 1);
    if told < k { RoundsLess(told, k - 1, m); }
  }

  // ---------------------------------------------------------------- what false means

  /** Ledger l is a moment of call number id, about to probe offset o, and finds nothing there. */
  predicate FindsNothing(m: nat, l: Ledger, o: nat, id: int, cindex: nat)
    requires Ok(m, l)
  {
    l.phase == Scanning(o) && o < m && l.ended == id && l.cindex == cindex && Pending(l, At(m, cindex, o)) == 0
  }

  /** The offsets a scan has behind it, or all of them if it ended with nothing. */
  function Scanned(m: nat, phase: Phase): nat {
    match phase
    case Scanning(i) => i
    case Returned(flush) => if flush then 0 else m
    case _ => 0
  }

  /** The number of the call that Scanned speaks about. */
  function CallId(l: Ledger): int {
    if l.phase.Returned? then l.ended - 1 else l.ended
  }

  lemma {:induction false} PathFindsNothing(m: nat, ls: seq<Ledger>, x: nat, o: nat) returns (y: nat)
    requires Path(m, ls) && x < |ls| && ls[0].phase.Idle? && o < Scanned(m, ls[x].phase)
    ensures y < x && FindsNothing(m, ls[y], o, CallId(ls[x]), ls[x].cindex)
  {
    if x == 0 {
      assert false;
    } else {
      var l, n := ls[x - 1], ls[x];
      assert Moves(m, l, n);
      if l.phase == Scanning(o) && n.phase != l.phase {
        y := x - 1;
      } else {
        y := PathFindsNothing(m, ls, x - 1, o);
      }
    }
  }

  /** When dispatch returns false, client c's queue was empty when this call probed it. */
  lemma {:induction false} FalseFoundEach(m: nat, ls: seq<Ledger>, c: nat) returns (y: nat)
    requires Path(m, ls) && ls != [] && ls[0].phase.Idle? && ls[|ls| - 1].phase == Returned(false) && c < m
    ensures y < |ls| && ls[y].phase.Scanning? && ls[y].ended == ls[|ls| - 1].ended - 1 && Pending(ls[y], c) == 0
  {
    var last := ls[|ls| - 1];
    assert Ok(m, last);
    y := PathFindsNothing(m, ls, |ls| - 1, Dist(m, last.cindex, c));
  }

  // ---------------------------------------------------------------- an uninterrupted call

  lemma {:induction false} TurnOk(m: nat, l: Ledger)
    requires Ok(m, l)
    ensures Ok(m, Turn(m, l))
  {
    forall c: nat | c < m ensures Told(Turn(m, l), c) <= |l.accepted[c]| { TurnTells(m, l, c); }
  }

  predicate InCall(phase: Phase) {
    !phase.Idle? && !phase.Returned?
  }

  /** At most how many steps the call still takes when nobody interrupts it. */
  function StepsLeft(m: nat, phase: Phase): nat {
    match phase
    case Scanning(i) => if i <= m then m - i + 5 else 5
    case Notifying(_) => 4
    case Dropping(_) => 3
    case Freeing(_) => 2
    case Advancing(_) => 1
    case _ => 0
  }

  /** The dispatcher alone, until the call returns. */
  function Call(m: nat, l: Ledger): Ledger
    requires Ok(m, l) && InCall(l.phase)
    decreases StepsLeft(m, l.phase)
  {
    TurnOk(m, l);
    if Turn(m, l).phase.Returned? then Turn(m, l) else Call(m, Turn(m, l))
  }

  /** The first offset at or after i whose client has something pending, or m. */
  function FirstPending(m: nat, l: Ledger, i: nat): (o: nat)
    requires Ok(m, l) && i <= m
    ensures i <= o <= m && (o < m ==> Pending(l, At(m, l.cindex, o)) > 0)
    ensures forall x | i <= x < o :: Pending(l, At(m, l.cindex, x)) <= 0
    decreases m - i
  {
    if i == m || Pending(l, At(m, l.cindex, i)) > 0 then i else FirstPending(m, l, i + 1)
  }

  /** The ledger after client At(o) was served. */
  function Served(m: nat, l: Ledger, o: nat): Ledger
    requires Ok(m, l) && o < m && Pending(l, At(m, l.cindex, o)) > 0
  {
    var c := At(m, l.cindex, o);
    l.(phase := Returned(true), ended := l.ended + 1, cindex := At(m, l.cindex, o + 1),
       out := l.out + [(c, l.accepted[c][Told(l, c)])])
  }

  lemma {:induction false} NotifyCall(m: nat, l: Ledger)
    requires Ok(m, l) && l.phase.Notifying?
    ensures Call(m, l) == Served(m, l, l.phase.i)
  {
    TurnOk(m, l);
    var l1 := Turn(m, l);
    TurnOk(m, l1);
    var l2 := Turn(m, l1);
    TurnOk(m, l2);
    var l3 := Turn(m, l2);
    assert Call(m, l3) == Turn(m, l3);
    assert Call(m, l2) == Call(m, l3);
    assert Call(m, l1) == Call(m, l2);
  }

  /** The ledger of a scan that has come to offset i. */
  function ScanAt(m: nat, l: Ledger, i: nat): (n: Ledger)
    requires Ok(m, l) && i <= m
    ensures Ok(m, n)
  {
    l.(phase := Scanning(i))
  }

  lemma {:induction false} ScanGoesOn(m: nat, l: Ledger, i: nat)
    requires Ok(m, l) && i < m && Pending(l, At(m, l.cindex, i)) <= 0
    ensures Call(m, ScanAt(m, l, i)) == Call(m, ScanAt(m, l, i + 1))
  {
    assert Turn(m, ScanAt(m, l, i)) == ScanAt(m, l, i + 1);
  }

  lemma {:induction false} ScanHits(m: nat, l: Ledger, i: nat)
    requires Ok(m, l) && i < m && Pending(l, At(m, l.cindex, i)) > 0
    ensures Call(m, ScanAt(m, l, i)) == Served(m, l, i)
  {
    var n := Turn(m, ScanAt(m, l, i));
    assert n == l.(phase := Notifying(i));
    NotifyCall(m, n);
  }

  lemma {:induction false} ScanEnds(m: nat, l: Ledger)
    requires Ok(m, l)
    ensures Call(m, ScanAt(m, l, m)) == Unserved(l)
  {
  }

  /** The ledger after a scan that found nothing. */
  function Unserved(l: Ledger): Ledger {
    l.(phase := Returned(false), ended := l.ended + 1)
  }

  /** A call that nobody interrupts serves the first client with something pending, or returns false. */
  lemma {:induction false} CallServes(m: nat, l: Ledger, i: nat)
    requires Ok(m, l) && i <= m
    ensures var o := FirstPending(m, l, i);
            Call(m, ScanAt(m, l, i)) == if o < m then Served(m, l, o) else Unserved(l)
    decreases m - i
  {
    if i == m {
      ScanEnds(m, l);
    } else if Pending(l, At(m, l.cindex, i)) > 0 {
      ScanHits(m, l, i);
      assert FirstPending(m, l, i) == i;
    } else {
      CallServes(m, l, i + 1);
      ScanGoesOn(m, l, i);
    }
  }
}
