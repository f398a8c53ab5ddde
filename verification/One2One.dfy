/**
 One writer, one reader. A bucket's sequence number is its state: the dummy value
 means empty. Each action is one atomic access and the private work around it;
 a run is any sequence of actions, that is, any interleaving of writer, reader
 and guard destructors.
 */
module One2One {
  import opened Word
  import opened Common

  datatype Config = Config(kind: Kind, w: nat, bits: nat) {
    function Cap(): nat { Pow2(bits) }

    /** What a ring of `2^bits` buckets needs to be represented at all. */
    predicate Shape() {
      w >= 2 && bits <= w - 1
    }

    /**
     What the protocol needs. The queue constructors enforce the second disjunct for both
     kinds; a pod reader would be safe with twice the buckets.
     */
    predicate Sound() {
      Shape() && (kind.Pod? || bits <= w - 2)
    }
  }

  datatype Ring = Ring(seqn: seq<nat>, store: seq<Option<Event>>)

  /** Where the writer is inside try_write, with the event it carries. */
  datatype Pc = Idle | Checked(e: Event) | Built(e: Event)

  datatype Writer = Writer(num: nat, bucket: nat, pc: Pc)
  datatype Reader = Reader(num: nat, bucket: nat)

  /**
   Held: the event may be read. Spent: the pod copy is made, or the object destroyed,
   and the store of the dummy number is still owed. Released: done.
   */
  datatype Phase = Held | Spent | Released
  datatype Guard = Guard(bucket: nat, phase: Phase)

  /** guards[k] is what the reader obtained from its k-th successful try_read. */
  datatype Conc = Conc(ring: Ring, writer: Writer, reader: Reader, guards: seq<Guard>)

  /** The log lists the published events. No step reads it. */
  datatype State = State(c: Conc, log: seq<Event>)

  datatype Action = Check(e: Event) | Build | Publish | Load | Spend(k: nat) | Free(k: nat)

  predicate RingShape(cfg: Config, ring: Ring) {
    |ring.seqn| == |ring.store| == cfg.Cap()
  }

  predicate Shaped(cfg: Config, c: Conc) {
    && RingShape(cfg, c.ring)
    && c.writer.bucket < cfg.Cap()
    && c.reader.bucket < cfg.Cap()
    && (forall k | 0 <= k < |c.guards| :: c.guards[k].bucket < cfg.Cap())
  }

  /** The three atomic steps of try_write, on the ring and the writer's own fields. */
  function WriterStep(cfg: Config, ring: Ring, wr: Writer, a: Action): (Ring, Writer)
    requires cfg.Shape() && RingShape(cfg, ring) && wr.bucket < cfg.Cap()
  {
    var b := wr.bucket;
    match a
    case Check(e) =>
      if wr.pc.Idle? && ring.seqn[b] == Dummy(cfg.w) then (ring, wr.(pc := Checked(e))) else (ring, wr)
    case Build =>
      if wr.pc.Checked? then (ring.(store := ring.store[b := Some(wr.pc.e)]), wr.(pc := Built(wr.pc.e))) else (ring, wr)
    case Publish =>
      if wr.pc.Built?
      then (ring.(seqn := ring.seqn[b := Published(cfg.w, wr.num)]),
            Writer(Inc(cfg.w, wr.num), Index(cfg.Cap(), Inc(cfg.w, wr.num)), Idle))
      else (ring, wr)
    case _ => (ring, wr)
  }

  /** The load in try_read: on a match the reader moves on and obtains its bucket. */
  function LoadStep(cfg: Config, ring: Ring, rd: Reader): (Reader, Option<Guard>)
    requires cfg.Shape() && RingShape(cfg, ring) && rd.bucket < cfg.Cap()
  {
    if ring.seqn[rd.bucket] == Published(cfg.w, rd.num)
    then (Reader(Inc(cfg.w, rd.num), Index(cfg.Cap(), Inc(cfg.w, rd.num))), Some(Guard(rd.bucket, Held)))
    else (rd, None)
  }

  /** The steps that end a read: copy or destroy the event, then hand the bucket back. */
  function GuardStep(cfg: Config, ring: Ring, g: Guard, a: Action): (Ring, Guard)
    requires cfg.Shape() && RingShape(cfg, ring) && g.bucket < cfg.Cap()
  {
    match a
    case Spend(_) =>
      if !g.phase.Held? then (ring, g)
      else (if cfg.kind.Pod? then ring else ring.(store := ring.store[g.bucket := None]), g.(phase := Spent))
    case Free(_) =>
      if g.phase.Spent? then (ring.(seqn := ring.seqn[g.bucket := Dummy(cfg.w)]), g.(phase := Released)) else (ring, g)
    case _ => (ring, g)
  }

  /** A pod try_read is one call: the reader loads again only after it handed the bucket back. */
  predicate MayLoad(cfg: Config, c: Conc) {
    cfg.kind.Object? || c.guards == [] || c.guards[|c.guards| - 1].phase.Released?
  }

  function Step(cfg: Config, c: Conc, a: Action): Conc
    requires cfg.Shape() && Shaped(cfg, c)
  {
    match a
    case Load => if MayLoad(cfg, c) then ReaderMove(cfg, c) else c
    case Spend(k) => if k < |c.guards| then GuardMove(cfg, c, k, a) else c
    case Free(k) => if k < |c.guards| then GuardMove(cfg, c, k, a) else c
    case _ =>
      var (ring, wr) := WriterStep(cfg, c.ring, c.writer, a);
      c.(ring := ring, writer := wr)
  }

  function ReaderMove(cfg: Config, c: Conc): Conc
    requires cfg.Shape() && Shaped(cfg, c)
  {
    var (rd, g) := LoadStep(cfg, c.ring, c.reader);
    if g.None? then c else c.(reader := rd, guards := c.guards + [g.value])
  }

  function GuardMove(cfg: Config, c: Conc, k: nat, a: Action): Conc
    requires cfg.Shape() && Shaped(cfg, c) && k < |c.guards|
  {
    var (ring, g) := GuardStep(cfg, c.ring, c.guards[k], a);
    if g == c.guards[k] then c else c.(ring := ring, guards := c.guards[k := g])
  }

  function Next(cfg: Config, s: State, a: Action): State
    requires cfg.Shape() && Shaped(cfg, s.c)
  {
    State(Step(cfg, s.c, a),
          if a.Publish? && s.c.writer.pc.Built? then s.log + [s.c.writer.pc.e] else s.log)
  }

  function EmptyRing(w: nat, cap: nat): Ring {
    Ring(seq(cap, _ => Dummy(w)), seq(cap, _ => None))
  }

  function Init(cfg: Config): State {
    State(Conc(EmptyRing(cfg.w, cfg.Cap()), Writer(0, 0, Idle), Reader(0, 0), []),
          [])
  }

  lemma IndexInRange(cfg: Config, x: nat)
    ensures Index(cfg.Cap(), x) < cfg.Cap()
  {
    MaskIsMod(x, cfg.bits);
  }

  lemma StepShaped(cfg: Config, c: Conc, a: Action)
    requires cfg.Shape() && Shaped(cfg, c)
    ensures Shaped(cfg, Step(cfg, c, a))
  {
    IndexInRange(cfg, Inc(cfg.w, c.writer.num));
    IndexInRange(cfg, Inc(cfg.w, c.reader.num));
  }

  /** The state after any sequence of atomic steps; a step whose thread is elsewhere does nothing. */
  function Run(cfg: Config, actions: seq<Action>): (s: State)
    requires cfg.Shape()
    ensures Shaped(cfg, s.c)
  {
    if actions == [] then Init(cfg)
    else
      var s := Run(cfg, actions[..|actions| - 1]);
      StepShaped(cfg, s.c, actions[|actions| - 1]);
      Next(cfg, s, actions[|actions| - 1])
  }
}
