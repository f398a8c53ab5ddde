/**
 The one-to-one channel as its classes have it: the shared ring buffer, the producer,
 the reader and the guard. Each method performs the atomic steps of module One2One in
 the source's order, and its contract says which steps those are; the lemmas at the end
 say what an uninterrupted call therefore does to a channel whose invariant holds.
 */
module One2OneObjects {
  import opened Word
  import opened Common
  import opened Capacity
  import opened One2One
  import S = One2OneSafety
  import T = One2OneTheorems

  const DUMMY_READER_ID := 1

  class RingBuffer {
    const kind: Kind
    const w: nat
    const cap: nat
    const seqn: array<nat>
    const store: array<Option<Event>>
    ghost const bits: nat

    ghost predicate Valid() {
      && Cfg().Sound() && bits <= w - 2 && cap == Cfg().Cap()
      && seqn.Length == store.Length == cap
    }

    ghost function Cfg(): Config {
      Config(kind, w, bits)
    }

    ghost function View(): Ring
      reads seqn, store
    {
      Ring(seqn[..], store[..])
    }

    constructor (kind: Kind, w: nat, cap: nat, ghost bits: nat)
      requires w >= 2 && bits <= w - 2 && cap == Pow2(bits)
      ensures Valid() && Cfg() == Config(kind, w, bits)
      ensures View() == Init(Cfg()).c.ring && fresh(seqn) && fresh(store)
    {
      this.kind, this.w, this.cap, this.bits := kind, w, cap, bits;
      seqn := new nat[cap](_ => Dummy(w));
      store := new Option<Event>[cap](_ => None);
    }

    /** destroy_at: there must be an event to destroy. */
    method DestroyEvent(b: nat)
      requires Valid() && b < cap && store[b].Some?
      modifies store
      ensures store[..] == old(store[..])[b := None]
    {
      store[b] := None;
    }

    /**
     destroy_n: each occupied bucket destroys its event and takes the dummy number, an empty
     one is left alone. An occupied bucket must hold an event: see QuietMarks.
     */
    method Teardown() returns (ghost ended: seq<nat>)
      requires Valid() && forall b | 0 <= b < cap :: seqn[b] != Dummy(w) ==> store[b].Some?
      modifies seqn, store
      ensures View() == T.TornDown(Cfg(), old(View()))
      ensures ended == T.OccupiedUpTo(Cfg(), old(seqn[..]), cap)
      ensures forall b | 0 <= b < cap ::
                seqn[b] == Dummy(w) && store[b] == if old(seqn[b]) == Dummy(w) then old(store[b]) else None
    {
      var b := 0;
      ended := [];
      while b < cap
        invariant 0 <= b <= cap && ended == T.OccupiedUpTo(Cfg(), old(seqn[..]), b)
        invariant forall i | 0 <= i < cap ::
                    seqn[i] == if i < b then Dummy(w) else old(seqn[i])
        invariant forall i | 0 <= i < cap ::
                    store[i] == if i < b && old(seqn[i]) != Dummy(w) then None else old(store[i])
      {
        if seqn[b] != Dummy(w) {
          DestroyEvent(b);
          ended := ended + [b];
          seqn[b] := Dummy(w);
        }
        b := b + 1;
      }
    }
  }

  /** The writer's atomic steps of one uninterrupted try_write; a refused Check makes the others idle. */
  function WriteCall(cfg: Config, ring: Ring, wr: Writer, e: Event): (Ring, Writer)
    requires cfg.Shape() && RingShape(cfg, ring) && wr.bucket < cfg.Cap()
  {
    var (r1, w1) := WriterStep(cfg, ring, wr, Check(e));
    var (r2, w2) := WriterStep(cfg, r1, w1, Build);
    WriterStep(cfg, r2, w2, Publish)
  }

  /** The two steps that give a bucket back, in the reader's pod read or the guard's destructor. */
  function ReleaseCall(cfg: Config, ring: Ring, g: Guard, k: nat): (Ring, Guard)
    requires cfg.Shape() && RingShape(cfg, ring) && g.bucket < cfg.Cap()
  {
    var (r1, g1) := GuardStep(cfg, ring, g, Spend(k));
    GuardStep(cfg, r1, g1, Free(k))
  }

  class Producer {
    const ring: RingBuffer
    var num: nat
    var bucket: nat
    var nextReaderId: nat

    ghost predicate Valid()
      reads this
    {
      ring.Valid() && bucket < ring.cap && nextReaderId < Pow2(ring.w)
    }

    ghost function View(): Writer
      reads this
    {
      Writer(num, bucket, Idle)
    }

    constructor (ring: RingBuffer)
      requires ring.Valid()
      ensures this.ring == ring && Valid() && View() == Init(ring.Cfg()).c.writer && nextReaderId == 0
    {
      this.ring := ring;
      num, bucket, nextReaderId := 0, 0, 0;
    }

    /** The single id 0 is handed out once; a refusal puts the id counter back. */
    method CreateReader() returns (r: ChannelReader?)
      requires Valid()
      modifies this`nextReaderId
      ensures Valid()
      ensures r == null <==> old(nextReaderId) == DUMMY_READER_ID
      ensures r == null ==> nextReaderId == old(nextReaderId)
      ensures r != null ==> nextReaderId == Inc(ring.w, old(nextReaderId))
      ensures r != null ==> fresh(r) && r.Valid() && r.ring == ring && r.id == old(nextReaderId)
                            && r.View() == Init(ring.Cfg()).c.reader
    {
      var nextId := nextReaderId;
      nextReaderId := Inc(ring.w, nextReaderId);
      if nextId != DUMMY_READER_ID {
        r := new ChannelReader(ring, nextId);
      } else {
        IncDec(ring.w, nextId);
        nextReaderId := Dec(ring.w, nextReaderId);
        r := null;
      }
    }

    method TryWrite(e: Event) returns (ok: bool)
      requires Valid()
      modifies this`num, this`bucket, ring.seqn, ring.store
      ensures Valid()
      ensures (ring.View(), View()) == WriteCall(ring.Cfg(), old(ring.View()), old(View()), e)
      ensures ok <==> old(ring.seqn[bucket]) == Dummy(ring.w)
    {
      if ring.seqn[bucket] == Dummy(ring.w) {
        ring.store[bucket] := Some(e);
        ring.seqn[bucket] := Published(ring.w, num);
        num := Inc(ring.w, num);
        IndexInRange(ring.Cfg(), num);
        bucket := Index(ring.cap, num);
        ok := true;
      } else {
        ok := false;
      }
    }
  }

  class ChannelReader {
    const ring: RingBuffer
    const id: nat
    var num: nat
    var bucket: nat

    ghost predicate Valid()
      reads this
    {
      ring.Valid() && bucket < ring.cap && id != DUMMY_READER_ID
    }

    ghost function View(): Reader
      reads this
    {
      Reader(num, bucket)
    }

    constructor (ring: RingBuffer, id: nat)
      requires ring.Valid() && id != DUMMY_READER_ID
      ensures this.ring == ring && this.id == id && Valid() && View() == Init(ring.Cfg()).c.reader
    {
      this.ring, this.id := ring, id;
      num, bucket := 0, 0;
    }

    /** Object form: a guard on the bucket, or null. Nothing shared is written. */
    method TryRead() returns (g: ChannelGuard?)
      requires Valid() && ring.kind.Object?
      modifies this`num, this`bucket
      ensures Valid() && View() == LoadStep(ring.Cfg(), ring.View(), old(View())).0
      ensures g == null <==> LoadStep(ring.Cfg(), ring.View(), old(View())).1 == None
      ensures g != null ==> fresh(g) && g.Valid() && g.ring == ring && g.owner == id
                            && Some(g.View()) == LoadStep(ring.Cfg(), ring.View(), old(View())).1
    {
      if ring.seqn[bucket] == Published(ring.w, num) {
        g := new ChannelGuard(ring, bucket, id);
        num := Inc(ring.w, num);
        IndexInRange(ring.Cfg(), num);
        bucket := Index(ring.cap, num);
      } else {
        g := null;
      }
    }

    /** Pod form: the copy of the event, with the bucket already handed back. */
    method TryReadPod() returns (e: Option<Event>)
      requires Valid() && ring.kind.Pod?
      modifies this`num, this`bucket, ring.seqn
      ensures Valid()
      ensures var (rd, g) := LoadStep(ring.Cfg(), old(ring.View()), old(View()));
              && View() == rd
              && (g == None ==> e == None && ring.View() == old(ring.View()))
              && (g.Some? ==> e == old(ring.store[bucket])
                              && ring.View() == ReleaseCall(ring.Cfg(), old(ring.View()), g.value, 0).0)
    {
      if ring.seqn[bucket] == Published(ring.w, num) {
        var b := bucket;
        num := Inc(ring.w, num);
        IndexInRange(ring.Cfg(), num);
        bucket := Index(ring.cap, num);
        e := ring.store[b];
        ring.seqn[b] := Dummy(ring.w);
      } else {
        e := None;
      }
    }
  }

  class ChannelGuard {
    const ring: RingBuffer
    const bucket: nat
    var owner: nat

    ghost predicate Valid()
      reads this
    {
      ring.Valid() && ring.kind.Object? && bucket < ring.cap
    }

    /** A guard that was moved from owes nothing. */
    ghost function View(): Guard
      reads this
    {
      Guard(bucket, if owner == DUMMY_READER_ID then Released else Held)
    }

    constructor (ring: RingBuffer, bucket: nat, owner: nat)
      requires ring.Valid() && ring.kind.Object? && bucket < ring.cap
      ensures this.ring == ring && this.bucket == bucket && this.owner == owner && Valid()
    {
      this.ring, this.bucket, this.owner := ring, bucket, owner;
    }

    /** The move constructor: exactly one of the two guards is responsible for the event afterwards. */
    method Move() returns (g: ChannelGuard)
      requires Valid()
      modifies this`owner
      ensures fresh(g) && g.Valid() && g.ring == ring
      ensures g.View() == old(View()) && View() == Guard(bucket, Released)
    {
      g := new ChannelGuard(ring, bucket, owner);
      owner := DUMMY_READER_ID;
    }

    /** The destructor: destroy the event, then hand the bucket back; nothing at all if moved from. */
    method Drop()
      requires Valid()
      modifies ring.seqn, ring.store
      ensures ring.View() == ReleaseCall(ring.Cfg(), old(ring.View()), View(), 0).0
      ensures owner == DUMMY_READER_ID ==> ring.View() == old(ring.View())
    {
      if owner != DUMMY_READER_ID {
        ring.store[bucket] := None;
        ring.seqn[bucket] := Dummy(ring.w);
      }
    }
  }

  /**
   The factory: all readers are created before the producer is handed out, or nothing is.
   For this channel it succeeds exactly for one reader, which gets id 0.
   */
  method Make(kind: Kind, w: nat, sizeBits: nat, capacity: nat, readersCount: nat)
    returns (producer: Producer?, consumers: seq<ChannelReader>)
    requires 4 <= w <= sizeBits && capacity < Pow2(sizeBits)
    ensures producer != null <==> readersCount == 1
    ensures producer == null ==> consumers == []
    ensures producer != null ==>
              && producer.Valid() && producer.nextReaderId == readersCount == |consumers|
              && producer.ring.Cfg() == Config(kind, w, CapacityBits(w, capacity))
              && producer.ring.View() == Init(producer.ring.Cfg()).c.ring
              && producer.View() == Init(producer.ring.Cfg()).c.writer
              && forall i | 0 <= i < |consumers| ::
                   && consumers[i].Valid() && consumers[i].ring == producer.ring && consumers[i].id == i
                   && consumers[i].View() == Init(producer.ring.Cfg()).c.reader
  {
    producer, consumers := null, [];
    if readersCount == 0 {
      return;
    }
    var cap := To2Pow(w, sizeBits, capacity);
    CapacityIsLeast(w, capacity, 2);
    Pow2Monotone(2, w);
    assert Pow2(2) == 4;
    var ring := new RingBuffer(kind, w, cap, CapacityBits(w, capacity));
    var p := new Producer(ring);
    var i := 0;
    while i < readersCount
      invariant 0 <= i <= readersCount && i == |consumers| == p.nextReaderId <= DUMMY_READER_ID
      invariant p.Valid() && p.ring == ring && p.View() == Init(ring.Cfg()).c.writer
      invariant ring.View() == Init(ring.Cfg()).c.ring
      invariant forall j | 0 <= j < |consumers| ::
                  && consumers[j].Valid() && consumers[j].ring == ring && consumers[j].id == j
                  && consumers[j].View() == Init(ring.Cfg()).c.reader
    {
      var r := p.CreateReader();
      if r == null {
        consumers := [];
        return;
      }
      SmallMod(i + 1, Pow2(w));
      consumers := consumers + [r];
      i := i + 1;
    }
    producer := p;
  }

  // ---------------------------------------------------------------- what an uninterrupted call does

  function Write3(cfg: Config, s: State, e: Event): State
    requires cfg.Shape() && Shaped(cfg, s.c)
  {
    var s1 := Next(cfg, s, Check(e));
    StepShaped(cfg, s.c, Check(e));
    var s2 := Next(cfg, s1, Build);
    StepShaped(cfg, s1.c, Build);
    Next(cfg, s2, Publish)
  }

  /** TryWrite's contract is the machine's three steps on the ring and the writer. */
  lemma WriteCallIsThreeSteps(cfg: Config, s: State, e: Event)
    requires cfg.Shape() && Shaped(cfg, s.c) && s.c.writer.pc.Idle?
    ensures var (ring, wr) := WriteCall(cfg, s.c.ring, s.c.writer, e);
            Write3(cfg, s, e).c == s.c.(ring := ring, writer := wr)
  {
  }

  function Release2(cfg: Config, s: State, k: nat): State
    requires cfg.Shape() && Shaped(cfg, s.c)
  {
    StepShaped(cfg, s.c, Spend(k));
    Next(cfg, Next(cfg, s, Spend(k)), Free(k))
  }

  /** What a guard's destructor and the end of a pod read do is the machine's two release steps. */
  lemma ReleaseCallIsTwoSteps(cfg: Config, s: State, k: nat)
    requires cfg.Shape() && Shaped(cfg, s.c) && k < |s.c.guards|
    ensures var (ring, g) := ReleaseCall(cfg, s.c.ring, s.c.guards[k], k);
            Release2(cfg, s, k).c == s.c.(ring := ring, guards := s.c.guards[k := g])
  {
    StepShaped(cfg, s.c, Spend(k));
    var s1 := Next(cfg, s, Spend(k));
    var (r1, g1) := GuardStep(cfg, s.c.ring, s.c.guards[k], Spend(k));
    assert s1.c.guards == s.c.guards[k := g1] && s1.c.ring == r1;
  }

  /** A quiet channel is a bounded queue: this is its content. */
  function Content(s: State): seq<Event>
    requires |s.c.guards| <= |s.log|
  {
    s.log[|s.c.guards|..]
  }

  /** On a quiet channel an uninterrupted try_write appends iff fewer than `capacity` events are pending. */
  lemma QuietWrite(cfg: Config, s: State, e: Event)
    requires cfg.Sound() && S.Inv(cfg, s) && T.Quiet(s)
    ensures var t := Write3(cfg, s, e);
            && S.Inv(cfg, t) && T.Quiet(t)
            && Content(t) == if |Content(s)| < cfg.Cap() then Content(s) + [e] else Content(s)
  {
    S.StepInv(cfg, s, Check(e));
    var s1 := Next(cfg, s, Check(e));
    S.StepInv(cfg, s1, Build);
    S.StepInv(cfg, Next(cfg, s1, Build), Publish);
    S.SeesEmpty(cfg, s);
    var n := |s.log| - cfg.Cap();
    if n >= 0 {
      assert S.Done(s.c.guards, n) <==> n < |s.c.guards|;
      if |Content(s)| == cfg.Cap() { assert n == |s.c.guards|; }
    }
  }

  /** An uninterrupted read, ending with the bucket handed back. */
  function Read3(cfg: Config, s: State): State
    requires cfg.Shape() && Shaped(cfg, s.c)
  {
    StepShaped(cfg, s.c, Load);
    Release2(cfg, Next(cfg, s, Load), |s.c.guards|)
  }

  lemma Read3Inv(cfg: Config, s: State)
    requires cfg.Sound() && S.Inv(cfg, s)
    ensures S.Inv(cfg, Read3(cfg, s)) && Read3(cfg, s).log == s.log
  {
    var k := |s.c.guards|;
    S.StepInv(cfg, s, Load);
    var s1 := Next(cfg, s, Load);
    S.StepInv(cfg, s1, Spend(k));
    S.StepInv(cfg, Next(cfg, s1, Spend(k)), Free(k));
  }

  lemma LoadTakes(cfg: Config, s: State)
    requires cfg.Sound() && S.Inv(cfg, s) && MayLoad(cfg, s.c) && |s.c.guards| < |s.log|
    ensures var t := Next(cfg, s, Load);
            && Shaped(cfg, t.c) && t.c.guards == s.c.guards + [Guard(s.c.reader.bucket, Held)]
            && t.c.writer == s.c.writer
            && s.c.ring.store[s.c.reader.bucket] == Some(s.log[|s.c.guards|])
  {
    var k := |s.c.guards|;
    StepShaped(cfg, s.c, Load);
    S.LoadMatches(cfg, s);
    assert S.EventOk(cfg, s, k) && S.Intact(s.c.guards, k);
  }

  lemma QuietReadNext(cfg: Config, s: State)
    requires cfg.Sound() && S.Inv(cfg, s) && T.Quiet(s) && |s.c.guards| < |s.log|
    ensures var t := Read3(cfg, s);
            && t.c.guards == s.c.guards + [Guard(s.c.reader.bucket, Released)] && t.c.writer == s.c.writer
            && s.c.ring.store[s.c.reader.bucket] == Some(s.log[|s.c.guards|])
  {
    var k := |s.c.guards|;
    assert k == 0 || S.Done(s.c.guards, k - 1);
    LoadTakes(cfg, s);
    var s1 := Next(cfg, s, Load);
    ReleaseCallIsTwoSteps(cfg, s1, k);
    assert s1.c.guards[k := Guard(s.c.reader.bucket, Released)] == s.c.guards + [Guard(s.c.reader.bucket, Released)];
  }

  lemma QuietReadEmpty(cfg: Config, s: State)
    requires cfg.Sound() && S.Inv(cfg, s) && |s.c.guards| == |s.log|
    ensures Read3(cfg, s) == s
  {
    if MayLoad(cfg, s.c) { S.LoadMatches(cfg, s); }
    assert Next(cfg, s, Load) == s;
  }

  /** On a quiet channel an uninterrupted read takes the front event, and nothing iff there is none. */
  lemma QuietRead(cfg: Config, s: State)
    requires cfg.Sound() && S.Inv(cfg, s) && T.Quiet(s)
    ensures var t := Read3(cfg, s);
            && S.Inv(cfg, t) && T.Quiet(t) && t.log == s.log
            && (Content(s) == [] ==> t == s)
            && (Content(s) != [] ==>
                  && s.c.ring.store[s.c.reader.bucket] == Some(Content(s)[0])
                  && Content(t) == Content(s)[1..])
  {
    Read3Inv(cfg, s);
    if Content(s) == [] {
      QuietReadEmpty(cfg, s);
    } else {
      QuietReadNext(cfg, s);
      var t := Read3(cfg, s);
      forall j | 0 <= j < |t.c.guards| ensures S.Done(t.c.guards, j) {
        assert j < |s.c.guards| ==> S.Done(s.c.guards, j);
      }
    }
  }
}
