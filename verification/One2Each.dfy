/**
 One writer, `readers` readers, every reader receives every event.

 Each action is one atomic access of one thread to a bucket, together with the
 private updates that follow it. Counters are w-bit and wrap; the only numbers
 any step computes with are the ones the source keeps. A run is any sequence of
 actions, so a theorem about all runs is a theorem about all interleavings.
 */
module One2Each {
  import opened Word
  import opened Common

  datatype Config = Config(kind: Kind, w: nat, bits: nat, readers: nat) {
    function Cap(): nat { Pow2(bits) }
    function Mark(): nat { if kind.Pod? then 0 else 1 }

    /** What a ring of `2^bits` buckets needs to be represented at all. */
    predicate Shape() {
      w >= 2 && bits <= w - 1 && readers >= 1
    }

    /** The two bounds the protocol rests on. */
    predicate Sound() {
      && Shape()
      && bits <= w - 2
      && readers + Mark() < Pow2(w)
    }
  }

  datatype Ring = Ring(seqn: seq<nat>, counter: seq<nat>, store: seq<Option<Event>>)

  /** Where the writer is inside try_write, with the event it carries. */
  datatype Pc = Idle | Checked(e: Event) | Built(e: Event) | Counted(e: Event)

  datatype Writer = Writer(num: nat, bucket: nat, pc: Pc)
  datatype Reader = Reader(num: nat, bucket: nat)

  /**
   Held: the event may be read. Copied: a pod reader has its copy and still owes the
   fetch_sub. Last: this guard saw the release value and must destroy the event.
   Destroyed: it still owes the EMPTY store. Released: done.
   */
  datatype Phase = Held | Copied | Last | Destroyed | Released
  datatype Guard = Guard(bucket: nat, phase: Phase)

  /** guards[r][k] is what reader r obtained from its k-th successful try_read. */
  datatype Conc = Conc(ring: Ring, writer: Writer, readers: seq<Reader>, guards: seq<seq<Guard>>)

  /** The log lists the published events. No step reads it. */
  datatype State = State(c: Conc, log: seq<Event>)

  datatype Action =
    | Check(e: Event)
    | Build
    | SetCounter
    | Publish
    | Load(r: nat)
    | Copy(r: nat, k: nat)
    | Release(r: nat, k: nat)
    | Destroy(r: nat, k: nat)
    | Clear(r: nat, k: nat)

  // ---------------------------------------------------------------- steps

  /** The four atomic steps of try_write, on the ring and the writer's own fields. */
  function WriterStep(cfg: Config, ring: Ring, wr: Writer, a: Action): (Ring, Writer)
    requires cfg.Shape() && RingShape(cfg, ring) && wr.bucket < cfg.Cap()
  {
    var b := wr.bucket;
    match a
    case Check(e) =>
      if wr.pc.Idle? && ring.counter[b] == 0 then (ring, wr.(pc := Checked(e))) else (ring, wr)
    case Build =>
      if wr.pc.Checked? then (ring.(store := ring.store[b := Some(wr.pc.e)]), wr.(pc := Built(wr.pc.e))) else (ring, wr)
    case SetCounter =>
      if wr.pc.Built?
      then (ring.(counter := ring.counter[b := (cfg.readers + cfg.Mark()) % Pow2(cfg.w)]), wr.(pc := Counted(wr.pc.e)))
      else (ring, wr)
    case Publish =>
      if wr.pc.Counted?
      then (ring.(seqn := ring.seqn[b := Published(cfg.w, wr.num)]),
            Writer(Inc(cfg.w, wr.num), Index(cfg.Cap(), Inc(cfg.w, wr.num)), Idle))
      else (ring, wr)
    case _ => (ring, wr)
  }

  /** The load of m_seqn in try_read: on a match the reader moves on and obtains its bucket. */
  function LoadStep(cfg: Config, ring: Ring, rd: Reader): (Reader, Option<Guard>)
    requires cfg.Shape() && RingShape(cfg, ring) && rd.bucket < cfg.Cap()
  {
    if ring.seqn[rd.bucket] == Published(cfg.w, rd.num)
    then (Reader(Inc(cfg.w, rd.num), Index(cfg.Cap(), Inc(cfg.w, rd.num))), Some(Guard(rd.bucket, Held)))
    else (rd, None)
  }

  /** The steps that end a read: the pod copy and fetch_sub, or the guard destructor. */
  function GuardStep(cfg: Config, ring: Ring, g: Guard, a: Action): (Ring, Guard)
    requires cfg.Shape() && RingShape(cfg, ring) && g.bucket < cfg.Cap()
  {
    var b := g.bucket;
    match a
    case Copy(_, _) =>
      if cfg.kind.Pod? && g.phase.Held? then (ring, g.(phase := Copied)) else (ring, g)
    case Release(_, _) =>
      if cfg.kind.Pod? && g.phase.Copied? then
        (ring.(counter := ring.counter[b := Dec(cfg.w, ring.counter[b])]), g.(phase := Released))
      else if cfg.kind.Object? && g.phase.Held? then
        (ring.(counter := ring.counter[b := Dec(cfg.w, ring.counter[b])]),
         g.(phase := if ring.counter[b] == 2 then Last else Released))
      else (ring, g)
    case Destroy(_, _) =>
      if g.phase.Last? then (ring.(store := ring.store[b := None]), g.(phase := Destroyed)) else (ring, g)
    case Clear(_, _) =>
      if g.phase.Destroyed? then (ring.(counter := ring.counter[b := 0]), g.(phase := Released)) else (ring, g)
    case _ => (ring, g)
  }

  predicate RingShape(cfg: Config, ring: Ring) {
    |ring.seqn| == |ring.counter| == |ring.store| == cfg.Cap()
  }

  predicate Shaped(cfg: Config, c: Conc) {
    && RingShape(cfg, c.ring)
    && c.writer.bucket < cfg.Cap()
    && |c.readers| == |c.guards| == cfg.readers
    && (forall r | 0 <= r < cfg.readers :: c.readers[r].bucket < cfg.Cap())
    && (forall r, k | 0 <= r < cfg.readers && 0 <= k < |c.guards[r]| :: c.guards[r][k].bucket < cfg.Cap())
  }

  predicate Names(c: Conc, r: nat, k: nat) {
    r < |c.guards| && k < |c.guards[r]|
  }

  /** A pod try_read is one call: the reader loads again only after its fetch_sub. */
  predicate MayLoad(cfg: Config, c: Conc, r: nat)
    requires Shaped(cfg, c)
  {
    r < cfg.readers && (cfg.kind.Object? || c.guards[r] == [] || c.guards[r][|c.guards[r]| - 1].phase.Released?)
  }

  function Step(cfg: Config, c: Conc, a: Action): Conc
    requires cfg.Shape() && Shaped(cfg, c)
  {
    match a
    case Check(_) => WriterMove(cfg, c, a)
    case Build => WriterMove(cfg, c, a)
    case SetCounter => WriterMove(cfg, c, a)
    case Publish => WriterMove(cfg, c, a)
    case Load(r) => if MayLoad(cfg, c, r) then ReaderMove(cfg, c, r) else c
    case Copy(r, k) => if Names(c, r, k) then GuardMove(cfg, c, r, k, a) else c
    case Release(r, k) => if Names(c, r, k) then GuardMove(cfg, c, r, k, a) else c
    case Destroy(r, k) => if Names(c, r, k) then GuardMove(cfg, c, r, k, a) else c
    case Clear(r, k) => if Names(c, r, k) then GuardMove(cfg, c, r, k, a) else c
  }

  function WriterMove(cfg: Config, c: Conc, a: Action): Conc
    requires cfg.Shape() && Shaped(cfg, c)
  {
    var (ring, wr) := WriterStep(cfg, c.ring, c.writer, a);
    c.(ring := ring, writer := wr)
  }

  function ReaderMove(cfg: Config, c: Conc, r: nat): Conc
    requires cfg.Shape() && Shaped(cfg, c) && r < cfg.readers
  {
    var (rd, g) := LoadStep(cfg, c.ring, c.readers[r]);
    if g.None? then c
    else c.(readers := c.readers[r := rd], guards := c.guards[r := c.guards[r] + [g.value]])
  }

  function GuardMove(cfg: Config, c: Conc, r: nat, k: nat, a: Action): Conc
    requires cfg.Shape() && Shaped(cfg, c) && Names(c, r, k)
  {
    var (ring, g) := GuardStep(cfg, c.ring, c.guards[r][k], a);
    if g == c.guards[r][k] then c
    else c.(ring := ring, guards := c.guards[r := c.guards[r][k := g]])
  }

  function Next(cfg: Config, s: State, a: Action): State
    requires cfg.Shape() && Shaped(cfg, s.c)
  {
    State(Step(cfg, s.c, a),
          if a.Publish? && s.c.writer.pc.Counted? then s.log + [s.c.writer.pc.e] else s.log)
  }

  function EmptyRing(w: nat, cap: nat): Ring {
    Ring(seq(cap, _ => Dummy(w)), seq(cap, _ => 0), seq(cap, _ => None))
  }

  function Init(cfg: Config): State {
    State(Conc(EmptyRing(cfg.w, cfg.Cap()),
               Writer(0, 0, Idle),
               seq(cfg.readers, _ => Reader(0, 0)),
               seq(cfg.readers, _ => [])),
          [])
  }

  lemma IndexInRange(cfg: Config, x: nat)
    ensures Index(cfg.Cap(), x) < cfg.Cap()
  {
    MaskIsMod(x, cfg.bits);
  }

  lemma StepShaped(cfg: Config, c: Conc, a: Action)
    requires cfg.Shape() && Shaped(cfg, c)
    ensures Shaped(cfg, Step(cfg, c, a))
  {
    IndexInRange(cfg, Inc(cfg.w, c.writer.num));
    if a.Load? && a.r < cfg.readers {
      IndexInRange(cfg, Inc(cfg.w, c.readers[a.r].num));
    }
  }

  /** The state after any sequence of atomic steps; a step whose thread is elsewhere does nothing. */
  function Run(cfg: Config, actions: seq<Action>): (s: State)
    requires cfg.Shape()
    ensures Shaped(cfg, s.c)
  {
    if actions == [] then Init(cfg)
    else
      var s := Run(cfg, actions[..|actions| - 1]);
      StepShaped(cfg, s.c, actions[|actions| - 1]);
      Next(cfg, s, actions[|actions| - 1])
  }
}
