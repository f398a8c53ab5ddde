/**
 The one-to-each channel as its classes have it. Each method performs the atomic steps
 of module One2Each in the source's order, and its contract says which steps those are.
 */
module One2EachObjects {
  import opened Word
  import opened Common
  import opened Capacity
  import opened One2Each
  import S = One2EachSafety
  import T = One2EachTheorems

  const DUMMY_READER_ID := 255

  class RingBuffer {
    const kind: Kind
    const w: nat
    const cap: nat
    const seqn: array<nat>
    const counter: array<nat>
    const store: array<Option<Event>>
    ghost const bits: nat

    ghost predicate Valid() {
      && w >= 2 && bits <= w - 2 && cap == Pow2(bits)
      && seqn.Length == counter.Length == store.Length == cap
      && seqn != counter
    }

    /** How many readers there are matters to the writer's initial counter only, not to a read. */
    ghost function Cfg(readers: nat): Config {
      Config(kind, w, bits, readers)
    }

    ghost function View(): Ring
      reads seqn, counter, store
    {
      Ring(seqn[..], counter[..], store[..])
    }

    constructor (kind: Kind, w: nat, cap: nat, ghost bits: nat)
      requires w >= 2 && bits <= w - 2 && cap == Pow2(bits)
      ensures Valid() && this.kind == kind && this.w == w && this.cap == cap && this.bits == bits
      ensures View() == EmptyRing(w, cap)
      ensures fresh(seqn) && fresh(counter) && fresh(store)
    {
      this.kind, this.w, this.cap, this.bits := kind, w, cap, bits;
      seqn := new nat[cap](_ => Dummy(w));
      counter := new nat[cap](_ => 0);
      store := new Option<Event>[cap](_ => None);
    }

    /** destroy_at: there must be an event to destroy. */
    method DestroyEvent(b: nat)
      requires Valid() && b < cap && store[b].Some?
      modifies store
      ensures store[..] == old(store[..])[b := None]
    {
      store[b] := None;
    }

    /**
     destroy_n: each occupied bucket destroys its event and takes its initial marks, an empty
     one is left alone. An occupied bucket must hold an event: see QuietMarks.
     */
    method Teardown() returns (ghost ended: seq<nat>)
      requires Valid() && forall b | 0 <= b < cap :: counter[b] != 0 ==> store[b].Some?
      modifies seqn, counter, store
      ensures View() == T.TornDown(Cfg(1), old(View()))
      ensures ended == T.OccupiedUpTo(old(counter[..]), cap)
      ensures forall b | 0 <= b < cap ::
                if old(counter[b]) == 0 then seqn[b] == old(seqn[b]) && store[b] == old(store[b]) && counter[b] == 0
                else seqn[b] == Dummy(w) && store[b] == None && counter[b] == 0
    {
      var b := 0;
      ended := [];
      while b < cap
        invariant 0 <= b <= cap && ended == T.OccupiedUpTo(old(counter[..]), b)
        invariant forall i | 0 <= i < cap ::
                    seqn[i] == if i < b && old(counter[i]) != 0 then Dummy(w) else old(seqn[i])
        invariant forall i | 0 <= i < cap :: counter[i] == if i < b then 0 else old(counter[i])
        invariant forall i | 0 <= i < cap ::
                    store[i] == if i < b && old(counter[i]) != 0 then None else old(store[i])
      {
        if counter[b] != 0 {
          DestroyEvent(b);
          ended := ended + [b];
          seqn[b] := Dummy(w);
          counter[b] := 0;
        }
        b := b + 1;
      }
    }
  }

  /** The writer's atomic steps of one uninterrupted try_write; a refused Check makes the others idle. */
  function WriteCall(cfg: Config, ring: Ring, wr: Writer, e: Event): (Ring, Writer)
    requires cfg.Shape() && RingShape(cfg, ring) && wr.bucket < cfg.Cap()
  {
    var (r1, w1) := WriterStep(cfg, ring, wr, Check(e));
    var (r2, w2) := WriterStep(cfg, r1, w1, Build);
    var (r3, w3) := WriterStep(cfg, r2, w2, SetCounter);
    WriterStep(cfg, r3, w3, Publish)
  }

  /** The steps that end a read: in the pod reader's call, or in the guard's destructor. */
  function ReleaseCall(cfg: Config, ring: Ring, g: Guard, r: nat, k: nat): (Ring, Guard)
    requires cfg.Shape() && RingShape(cfg, ring) && g.bucket < cfg.Cap()
  {
    var (r1, g1) := GuardStep(cfg, ring, g, Copy(r, k));
    var (r2, g2) := GuardStep(cfg, r1, g1, Release(r, k));
    var (r3, g3) := GuardStep(cfg, r2, g2, Destroy(r, k));
    GuardStep(cfg, r3, g3, Clear(r, k))
  }

  class Producer {
    const ring: RingBuffer
    var num: nat
    var bucket: nat
    var nextReaderId: nat

    ghost predicate Valid()
      reads this
    {
      ring.Valid() && bucket < ring.cap && nextReaderId < Pow2(ring.w)
    }

    /** readers_count() is the id the next reader would get. */
    ghost function Cfg(): Config
      reads this`nextReaderId
    {
      ring.Cfg(nextReaderId)
    }

    ghost function View(): Writer
      reads this
    {
      Writer(num, bucket, Idle)
    }

    constructor (ring: RingBuffer)
      requires ring.Valid()
      ensures this.ring == ring && Valid() && nextReaderId == 0
      ensures View() == Writer(0, 0, Idle)
    {
      this.ring := ring;
      num, bucket, nextReaderId := 0, 0, 0;
    }

    /** Ids count up from 0; the dummy id is never handed out, and refusing it restores a wrapped id counter. */
    method CreateReader() returns (r: ChannelReader?)
      requires Valid()
      modifies this`nextReaderId
      ensures Valid()
      ensures r == null <==> old(nextReaderId) == DUMMY_READER_ID
      ensures r == null ==> nextReaderId == old(nextReaderId)
      ensures r != null ==> nextReaderId == Inc(ring.w, old(nextReaderId))
      ensures r != null ==> fresh(r) && r.Valid() && r.ring == ring && r.id == old(nextReaderId)
                            && r.View() == Reader(0, 0)
    {
      var nextId := nextReaderId;
      nextReaderId := Inc(ring.w, nextReaderId);
      if nextId != DUMMY_READER_ID {
        r := new ChannelReader(ring, nextId);
      } else {
        IncDec(ring.w, nextId);
        nextReaderId := Dec(ring.w, nextReaderId);
        r := null;
      }
    }

    method TryWrite(e: Event) returns (ok: bool)
      requires Valid() && nextReaderId >= 1
      modifies this`num, this`bucket, ring.seqn, ring.counter, ring.store
      ensures Valid()
      ensures (ring.View(), View()) == WriteCall(Cfg(), old(ring.View()), old(View()), e)
      ensures ok <==> old(ring.counter[bucket]) == 0
    {
      var initial := (nextReaderId + (if ring.kind.Pod? then 0 else 1)) % Pow2(ring.w);
      if ring.counter[bucket] == 0 {
        ring.store[bucket] := Some(e);
        ring.counter[bucket] := initial;
        ring.seqn[bucket] := Published(ring.w, num);
        num := Inc(ring.w, num);
        IndexInRange(Cfg(), num);
        bucket := Index(ring.cap, num);
        ok := true;
      } else {
        ok := false;
      }
    }
  }

  class ChannelReader {
    const ring: RingBuffer
    const id: nat
    var num: nat
    var bucket: nat

    ghost predicate Valid()
      reads this
    {
      ring.Valid() && bucket < ring.cap && id != DUMMY_READER_ID
    }

    ghost function View(): Reader
      reads this
    {
      Reader(num, bucket)
    }

    constructor (ring: RingBuffer, id: nat)
      requires ring.Valid() && id != DUMMY_READER_ID
      ensures this.ring == ring && this.id == id && Valid() && View() == Reader(0, 0)
    {
      this.ring, this.id := ring, id;
      num, bucket := 0, 0;
    }

    /** Object form: a guard on the bucket, or null. Nothing shared is written. */
    method TryRead() returns (g: ChannelGuard?)
      requires Valid() && ring.kind.Object?
      modifies this`num, this`bucket
      ensures Valid() && View() == LoadStep(ring.Cfg(1), ring.View(), old(View())).0
      ensures g == null <==> LoadStep(ring.Cfg(1), ring.View(), old(View())).1 == None
      ensures g != null ==> fresh(g) && g.Valid() && g.ring == ring && g.owner == id
                            && Some(g.View()) == LoadStep(ring.Cfg(1), ring.View(), old(View())).1
    {
      if ring.seqn[bucket] == Published(ring.w, num) {
        g := new ChannelGuard(ring, bucket, id);
        num := Inc(ring.w, num);
        IndexInRange(ring.Cfg(1), num);
        bucket := Index(ring.cap, num);
      } else {
        g := null;
      }
    }

    /** Pod form: the copy of the event, with this reader's share of the counter already given back. */
    method TryReadPod() returns (e: Option<Event>)
      requires Valid() && ring.kind.Pod?
      modifies this`num, this`bucket, ring.counter
      ensures Valid()
      ensures var (rd, g) := LoadStep(ring.Cfg(1), old(ring.View()), old(View()));
              && View() == rd
              && (g == None ==> e == None && ring.View() == old(ring.View()))
              && (g.Some? ==> e == ring.store[old(bucket)]
                              && ring.View() == ReleaseCall(ring.Cfg(1), old(ring.View()), g.value, 0, 0).0)
    {
      if ring.seqn[bucket] == Published(ring.w, num) {
        var b := bucket;
        num := Inc(ring.w, num);
        IndexInRange(ring.Cfg(1), num);
        bucket := Index(ring.cap, num);
        e := ring.store[b];
        ring.counter[b] := Dec(ring.w, ring.counter[b]);
      } else {
        e := None;
      }
    }
  }

  class ChannelGuard {
    const ring: RingBuffer
    const bucket: nat
    var owner: nat

    ghost predicate Valid()
      reads this
    {
      ring.Valid() && ring.kind.Object? && bucket < ring.cap
    }

    /** A guard that was moved from owes nothing. */
    ghost function View(): Guard
      reads this
    {
      Guard(bucket, if owner == DUMMY_READER_ID then Released else Held)
    }

    constructor (ring: RingBuffer, bucket: nat, owner: nat)
      requires ring.Valid() && ring.kind.Object? && bucket < ring.cap
      ensures this.ring == ring && this.bucket == bucket && this.owner == owner && Valid()
    {
      this.ring, this.bucket, this.owner := ring, bucket, owner;
    }

    /** The move constructor: exactly one of the two guards is responsible for the event afterwards. */
    method Move() returns (g: ChannelGuard)
      requires Valid()
      modifies this`owner
      ensures fresh(g) && g.Valid() && g.ring == ring
      ensures g.View() == old(View()) && View() == Guard(bucket, Released)
    {
      g := new ChannelGuard(ring, bucket, owner);
      owner := DUMMY_READER_ID;
    }

    /** The destructor: fetch_sub, and if it saw the release value, destroy the event and empty the bucket. */
    method Drop()
      requires Valid()
      modifies ring.counter, ring.store
      ensures ring.View() == ReleaseCall(ring.Cfg(1), old(ring.View()), View(), 0, 0).0
      ensures owner == DUMMY_READER_ID ==> ring.View() == old(ring.View())
    {
      if owner != DUMMY_READER_ID {
        var before := ring.counter[bucket];
        ring.counter[bucket] := Dec(ring.w, before);
        if before == 2 {
          ring.store[bucket] := None;
          ring.counter[bucket] := 0;
        }
      }
    }
  }

  /**
   The factory: all readers are created before the producer is handed out, or nothing is.
   For this channel it succeeds exactly for 1 to 255 readers, with the ids 0, 1, 2, ...
   */
  method Make(kind: Kind, w: nat, sizeBits: nat, capacity: nat, readersCount: nat)
    returns (producer: Producer?, consumers: seq<ChannelReader>)
    requires 8 <= w <= sizeBits && capacity < Pow2(sizeBits)
    ensures producer != null <==> 1 <= readersCount <= 255
    ensures producer == null ==> consumers == []
    ensures producer != null ==>
              && producer.Valid() && producer.nextReaderId == readersCount == |consumers|
              && producer.Cfg() == Config(kind, w, CapacityBits(w, capacity), readersCount)
              && producer.ring.View() == EmptyRing(w, producer.ring.cap) == Init(producer.Cfg()).c.ring
              && producer.View() == Init(producer.Cfg()).c.writer
              && forall i | 0 <= i < |consumers| ::
                   && consumers[i].Valid() && consumers[i].ring == producer.ring
                   && consumers[i].id == i != DUMMY_READER_ID
                   && consumers[i].View() == Init(producer.Cfg()).c.readers[i]
  {
    producer, consumers := null, [];
    if readersCount == 0 {
      return;
    }
    var cap := To2Pow(w, sizeBits, capacity);
    CapacityIsLeast(w, capacity, 2);
    ByteHolds255(w);
    var ring := new RingBuffer(kind, w, cap, CapacityBits(w, capacity));
    var p := new Producer(ring);
    var ok;
    consumers, ok := CreateReaders(p, readersCount);
    if ok {
      producer := p;
    }
  }

  /** The factory's loop: one reader after the other, until one is refused. */
  method CreateReaders(p: Producer, readersCount: nat) returns (consumers: seq<ChannelReader>, ok: bool)
    requires p.Valid() && p.nextReaderId == 0 && p.ring.w >= 8
    modifies p`nextReaderId
    ensures p.Valid() && (ok <==> readersCount <= DUMMY_READER_ID)
    ensures !ok ==> consumers == []
    ensures ok ==>
              && p.nextReaderId == readersCount == |consumers|
              && forall j | 0 <= j < |consumers| ::
                   && consumers[j].Valid() && consumers[j].ring == p.ring && consumers[j].id == j
                   && consumers[j].View() == Reader(0, 0)
  {
    consumers := [];
    ByteHolds255(p.ring.w);
    var i := 0;
    while i < readersCount
      invariant 0 <= i <= readersCount && i == |consumers| == p.nextReaderId <= DUMMY_READER_ID && p.Valid()
      invariant forall j | 0 <= j < |consumers| ::
                  && consumers[j].Valid() && consumers[j].ring == p.ring && consumers[j].id == j
                  && consumers[j].View() == Reader(0, 0)
    {
      var r := p.CreateReader();
      if r == null {
        return [], false;
      }
      SmallMod(i + 1, Pow2(p.ring.w));
      consumers := consumers + [r];
      i := i + 1;
    }
    ok := true;
  }

  // ---------------------------------------------------------------- what an uninterrupted call does

  /** TryWrite's contract is the machine's four steps on the ring and the writer. */
  lemma WriteCallIsFourSteps(cfg: Config, s: State, e: Event)
    requires cfg.Shape() && Shaped(cfg, s.c) && s.c.writer.pc.Idle?
    ensures var (ring, wr) := WriteCall(cfg, s.c.ring, s.c.writer, e);
            Write4(cfg, s, e).c == s.c.(ring := ring, writer := wr)
  {
  }

  function Write4(cfg: Config, s: State, e: Event): State
    requires cfg.Shape() && Shaped(cfg, s.c)
  {
    StepShaped(cfg, s.c, Check(e));
    var s1 := Next(cfg, s, Check(e));
    StepShaped(cfg, s1.c, Build);
    var s2 := Next(cfg, s1, Build);
    StepShaped(cfg, s2.c, SetCounter);
    Next(cfg, Next(cfg, s2, SetCounter), Publish)
  }

  /**
   On a quiet channel an uninterrupted try_write publishes iff every reader has taken
   the event a lap ago.
   */
  lemma QuietWrite(cfg: Config, s: State, e: Event)
    requires cfg.Sound() && S.Inv(cfg, s) && T.Quiet(s)
    ensures var t := Write4(cfg, s, e);
            && S.Inv(cfg, t) && T.Quiet(t)
            && t.log == if forall r | 0 <= r < cfg.readers :: |s.log| - |s.c.guards[r]| < cfg.Cap()
                        then s.log + [e] else s.log
  {
    S.StepInv(cfg, s, Check(e));
    var s1 := Next(cfg, s, Check(e));
    S.StepInv(cfg, s1, Build);
    var s2 := Next(cfg, s1, Build);
    S.StepInv(cfg, s2, SetCounter);
    S.StepInv(cfg, Next(cfg, s2, SetCounter), Publish);
    S.SeesEmpty(cfg, s);
    var n := |s.log| - cfg.Cap();
    if n >= 0 {
      forall r | 0 <= r < cfg.readers ensures S.Done(s.c.guards[r], n) <==> n < |s.c.guards[r]| {
        if n < |s.c.guards[r]| { assert S.Done(s.c.guards[r], n); }
      }
      assert S.AllDone(s.c.guards, n) <==> forall r | 0 <= r < cfg.readers :: |s.log| - |s.c.guards[r]| < cfg.Cap();
    }
  }

  /** An uninterrupted read by reader r, ending with its share of the event given back. */
  function Read5(cfg: Config, s: State, r: nat): State
    requires cfg.Shape() && Shaped(cfg, s.c) && r < cfg.readers
  {
    StepShaped(cfg, s.c, Load(r));
    Finish4(cfg, Next(cfg, s, Load(r)), r, |s.c.guards[r]|)
  }

  lemma Read5Inv(cfg: Config, s: State, r: nat)
    requires cfg.Sound() && S.Inv(cfg, s) && r < cfg.readers
    ensures S.Inv(cfg, Read5(cfg, s, r))
  {
    var k := |s.c.guards[r]|;
    S.StepInv(cfg, s, Load(r));
    var s1 := Next(cfg, s, Load(r));
    S.StepInv(cfg, s1, Copy(r, k));
    var s2 := Next(cfg, s1, Copy(r, k));
    S.StepInv(cfg, s2, Release(r, k));
    var s3 := Next(cfg, s2, Release(r, k));
    S.StepInv(cfg, s3, Destroy(r, k));
    S.StepInv(cfg, Next(cfg, s3, Destroy(r, k)), Clear(r, k));
  }

  /** The four steps after the load release a held guard and touch no other guard. */
  function Finish4(cfg: Config, s: State, r: nat, k: nat): State
    requires cfg.Shape() && Shaped(cfg, s.c)
  {
    StepShaped(cfg, s.c, Copy(r, k));
    var s2 := Next(cfg, s, Copy(r, k));
    StepShaped(cfg, s2.c, Release(r, k));
    var s3 := Next(cfg, s2, Release(r, k));
    StepShaped(cfg, s3.c, Destroy(r, k));
    Next(cfg, Next(cfg, s3, Destroy(r, k)), Clear(r, k))
  }

  /** c with this ring and this guard (r, k). */
  function With(c: Conc, r: nat, k: nat, ring: Ring, g: Guard): Conc
    requires Names(c, r, k)
  {
    c.(ring := ring, guards := c.guards[r := c.guards[r][k := g]])
  }

  /** What a guard's destructor and the end of a pod read do is the machine's four steps after the load. */
  lemma ReleaseCallIsFourSteps(cfg: Config, s: State, r: nat, k: nat)
    requires cfg.Shape() && Shaped(cfg, s.c) && Names(s.c, r, k)
    ensures var (ring, g) := ReleaseCall(cfg, s.c.ring, s.c.guards[r][k], r, k);
            Finish4(cfg, s, r, k).c == With(s.c, r, k, ring, g)
  {
    var g0, ring0 := s.c.guards[r][k], s.c.ring;
    assert s.c.guards[r][k := g0] == s.c.guards[r];
    var (ring1, g1) := GuardStep(cfg, ring0, g0, Copy(r, k));
    var (ring2, g2) := GuardStep(cfg, ring1, g1, Release(r, k));
    var (ring3, g3) := GuardStep(cfg, ring2, g2, Destroy(r, k));
    GuardMoveIs(cfg, s, s.c, r, k, ring0, g0, Copy(r, k));
    var s1 := Next(cfg, s, Copy(r, k));
    GuardMoveIs(cfg, s1, s.c, r, k, ring1, g1, Release(r, k));
    var s2 := Next(cfg, s1, Release(r, k));
    GuardMoveIs(cfg, s2, s.c, r, k, ring2, g2, Destroy(r, k));
    GuardMoveIs(cfg, Next(cfg, s2, Destroy(r, k)), s.c, r, k, ring3, g3, Clear(r, k));
  }

  lemma GuardMoveIs(cfg: Config, s: State, c: Conc, r: nat, k: nat, ring: Ring, g: Guard, a: Action)
    requires cfg.Shape() && Shaped(cfg, s.c) && Names(c, r, k) && s.c == With(c, r, k, ring, g)
    requires a in {Copy(r, k), Release(r, k), Destroy(r, k), Clear(r, k)}
    ensures Shaped(cfg, Step(cfg, s.c, a)) && RingShape(cfg, ring) && g.bucket < cfg.Cap()
    ensures var (ring', g') := GuardStep(cfg, ring, g, a);
            Step(cfg, s.c, a) == With(c, r, k, ring', g')
  {
    StepShaped(cfg, s.c, a);
    assert s.c.guards[r][k] == g;
    var (ring', g') := GuardStep(cfg, ring, g, a);
    assert c.guards[r][k := g][k := g'] == c.guards[r][k := g'];
  }

  /** t is s with guard (r, k) in phase p: nothing but the ring may differ otherwise. */
  predicate Phased(s: State, t: State, r: nat, k: nat, p: Phase)
    requires Names(s.c, r, k)
  {
    && t.log == s.log && t.c.writer == s.c.writer
    && t.c.guards == s.c.guards[r := s.c.guards[r][k := Guard(s.c.guards[r][k].bucket, p)]]
  }

  lemma Phased2(s: State, t: State, u: State, r: nat, k: nat, p: Phase, q: Phase)
    requires Names(s.c, r, k) && Phased(s, t, r, k, p) && Names(t.c, r, k) && Phased(t, u, r, k, q)
    ensures Phased(s, u, r, k, q)
  {
    assert t.c.guards[r][k := Guard(s.c.guards[r][k].bucket, q)]
        == s.c.guards[r][k := Guard(s.c.guards[r][k].bucket, q)];
  }

  lemma Finish4Guards(cfg: Config, s: State, r: nat, k: nat)
    requires cfg.Shape() && Shaped(cfg, s.c) && Names(s.c, r, k) && s.c.guards[r][k].phase.Held?
    ensures Phased(s, Finish4(cfg, s, r, k), r, k, Released)
  {
    if cfg.kind.Pod? { PodFinish(cfg, s, r, k); } else { ObjectFinish(cfg, s, r, k); }
  }

  lemma PodFinish(cfg: Config, s: State, r: nat, k: nat)
    requires cfg.Shape() && Shaped(cfg, s.c) && Names(s.c, r, k) && s.c.guards[r][k].phase.Held? && cfg.kind.Pod?
    ensures Phased(s, Finish4(cfg, s, r, k), r, k, Released)
  {
    StepShaped(cfg, s.c, Copy(r, k));
    var s2 := Next(cfg, s, Copy(r, k));
    assert Phased(s, s2, r, k, Copied);
    StepShaped(cfg, s2.c, Release(r, k));
    var s3 := Next(cfg, s2, Release(r, k));
    assert Phased(s2, s3, r, k, Released);
    Phased2(s, s2, s3, r, k, Copied, Released);
    assert Finish4(cfg, s, r, k) == s3;
  }

  lemma ObjectFinish(cfg: Config, s: State, r: nat, k: nat)
    requires cfg.Shape() && Shaped(cfg, s.c) && Names(s.c, r, k) && s.c.guards[r][k].phase.Held? && cfg.kind.Object?
    ensures Phased(s, Finish4(cfg, s, r, k), r, k, Released)
  {
    assert Next(cfg, s, Copy(r, k)) == s;
    StepShaped(cfg, s.c, Release(r, k));
    var s3 := Next(cfg, s, Release(r, k));
    if s.c.ring.counter[s.c.guards[r][k].bucket] == 2 {
      assert Phased(s, s3, r, k, Last);
      StepShaped(cfg, s3.c, Destroy(r, k));
      var s4 := Next(cfg, s3, Destroy(r, k));
      assert Phased(s3, s4, r, k, Destroyed);
      Phased2(s, s3, s4, r, k, Last, Destroyed);
      var s5 := Next(cfg, s4, Clear(r, k));
      assert Phased(s4, s5, r, k, Released);
      Phased2(s, s4, s5, r, k, Destroyed, Released);
    } else {
      assert Phased(s, s3, r, k, Released);
      assert Finish4(cfg, s, r, k) == s3;
    }
  }

  lemma QuietReadEmpty(cfg: Config, s: State, r: nat)
    requires cfg.Sound() && S.Inv(cfg, s) && r < cfg.readers && |s.c.guards[r]| == |s.log|
    ensures Read5(cfg, s, r) == s
  {
    S.LoadMatches(cfg, s, r);
    StepShaped(cfg, s.c, Load(r));
    assert Next(cfg, s, Load(r)) == s;
    assert !Names(s.c, r, |s.c.guards[r]|);
  }

  lemma QuietReadNext(cfg: Config, s: State, r: nat)
    requires cfg.Sound() && S.Inv(cfg, s) && T.Quiet(s) && r < cfg.readers && |s.c.guards[r]| < |s.log|
    ensures var t, k := Read5(cfg, s, r), |s.c.guards[r]|;
            && t.log == s.log && t.c.writer == s.c.writer
            && s.c.ring.store[s.c.readers[r].bucket] == Some(s.log[k])
            && t.c.guards == s.c.guards[r := s.c.guards[r] + [Guard(s.c.readers[r].bucket, Released)]]
  {
    var k := |s.c.guards[r]|;
    assert k == 0 || S.Done(s.c.guards[r], k - 1);
    LoadTakes(cfg, s, r);
    var s1 := Next(cfg, s, Load(r));
    Finish4Guards(cfg, s1, r, k);
    assert s1.c.guards[r][k := Guard(s.c.readers[r].bucket, Released)]
        == s.c.guards[r] + [Guard(s.c.readers[r].bucket, Released)];
  }

  lemma LoadTakes(cfg: Config, s: State, r: nat)
    requires cfg.Sound() && S.Inv(cfg, s) && r < cfg.readers && MayLoad(cfg, s.c, r)
    requires |s.c.guards[r]| < |s.log|
    ensures var t, k := Next(cfg, s, Load(r)), |s.c.guards[r]|;
            && Shaped(cfg, t.c) && t.log == s.log && t.c.writer == s.c.writer
            && t.c.guards == s.c.guards[r := s.c.guards[r] + [Guard(s.c.readers[r].bucket, Held)]]
            && s.c.ring.store[s.c.readers[r].bucket] == Some(s.log[k])
  {
    S.LoadMatches(cfg, s, r);
    StepShaped(cfg, s.c, Load(r));
    S.StepInv(cfg, s, Load(r));
    T.LiveCellHolds(cfg, Next(cfg, s, Load(r)), r, |s.c.guards[r]|);
  }

  /** On a quiet channel an uninterrupted read hands reader r its next event, and nothing iff it has them all. */
  lemma QuietRead(cfg: Config, s: State, r: nat)
    requires cfg.Sound() && S.Inv(cfg, s) && T.Quiet(s) && r < cfg.readers
    ensures var t, k := Read5(cfg, s, r), |s.c.guards[r]|;
            && S.Inv(cfg, t) && T.Quiet(t) && t.log == s.log && k <= |s.log|
            && (k == |s.log| ==> t == s)
            && (k < |s.log| ==>
                  && s.c.ring.store[s.c.readers[r].bucket] == Some(s.log[k])
                  && t.c.guards == s.c.guards[r := s.c.guards[r] + [Guard(s.c.readers[r].bucket, Released)]])
  {
    var k := |s.c.guards[r]|;
    assert S.ReaderOk(cfg, s, r);
    Read5Inv(cfg, s, r);
    if k == |s.log| {
      QuietReadEmpty(cfg, s, r);
    } else {
      QuietReadNext(cfg, s, r);
      var t := Read5(cfg, s, r);
      forall q, j | 0 <= q < |t.c.guards| && 0 <= j < |t.c.guards[q]| ensures S.Done(t.c.guards[q], j) {
        if j < |s.c.guards[q]| { assert S.Done(s.c.guards[q], j); }
      }
    }
  }
}
