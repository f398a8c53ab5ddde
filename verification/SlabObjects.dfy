/**
 The slab pool, the box and the logger client as classes. The client's log call is tied
 to the steps of SlabQueue by LogAccepted and LogRefused.
 */
module SlabObjects {
  import opened Word
  import opened Common
  import O = One2OneObjects
  import SQ = SlabQueue
  import SQT = SlabQueueTheorems

  class SlabPool {
    const slabs: array<Option<Event>>
    var next: nat

    ghost predicate Valid()
      reads this`next
    {
      next < slabs.Length
    }

    constructor (queueCapacity: nat, extra: nat)
      requires queueCapacity + extra >= 1
      ensures Valid() && next == 0 && slabs.Length == queueCapacity + extra && fresh(slabs)
      ensures slabs[..] == seq(queueCapacity + extra, _ => None)
    {
      slabs := new Option<Event>[queueCapacity + extra](_ => None);
      next := 0;
    }

    function ActiveSlab(): nat
      reads this`next
    {
      next
    }

    /** Successive positions go round the circle of slabs. */
    method SeekToNextSlab()
      requires Valid()
      modifies this`next
      ensures Valid() && next == (old(next) + 1) % slabs.Length
    {
      SmallMod(next, slabs.Length);
      SQ.NextSlab(next, slabs.Length);
      next := next + 1;
      if next >= slabs.Length {
        next := 0;
      }
    }

    /** The allocator interface hands out one slab at a time, and nothing for any other count. */
    method Allocate(n: nat) returns (slab: Option<nat>)
      requires Valid()
      modifies this`next
      ensures Valid()
      ensures n == 1 ==> slab == Some(old(next)) && next == (old(next) + 1) % slabs.Length
      ensures n != 1 ==> slab == None && next == old(next)
    {
      if n == 1 {
        slab := Some(ActiveSlab());
        SeekToNextSlab();
      } else {
        slab := None;
      }
    }
  }

  /** Owns the live event in one slab, or nothing. */
  class Box {
    const pool: SlabPool
    var ptr: Option<nat>

    ghost predicate Valid()
      reads this`ptr, pool.slabs
    {
      ptr.Some? ==> ptr.value < pool.slabs.Length && pool.slabs[ptr.value].Some?
    }

    constructor (pool: SlabPool, slab: nat)
      requires slab < pool.slabs.Length && pool.slabs[slab].Some?
      ensures this.pool == pool && ptr == Some(slab) && Valid()
    {
      this.pool := pool;
      ptr := Some(slab);
    }

    constructor Moved(pool: SlabPool, ptr: Option<nat>)
      requires ptr.Some? ==> ptr.value < pool.slabs.Length && pool.slabs[ptr.value].Some?
      ensures this.pool == pool && this.ptr == ptr && Valid()
    {
      this.pool, this.ptr := pool, ptr;
    }

    /** The move constructor: ownership, if there is any, passes on; the source owns nothing any more. */
    method Move() returns (b: Box)
      requires Valid()
      modifies this`ptr
      ensures fresh(b) && b.Valid() && b.pool == pool && b.ptr == old(ptr) && ptr == None
    {
      b := new Box.Moved(pool, ptr);
      ptr := None;
    }

    /** The destructor: the owned event, which is alive, is destroyed; a moved-from box destroys nothing. */
    method Drop()
      requires Valid()
      modifies pool.slabs
      ensures pool.slabs[..] == SQ.Unbox(old(pool.slabs[..]), ptr)
      ensures forall i | 0 <= i < pool.slabs.Length ::
                pool.slabs[i] == if ptr == Some(i) then None else old(pool.slabs[i])
    {
      if ptr.Some? {
        pool.slabs[ptr.value] := None;
      }
    }
  }

  class LoggerClient {
    const pool: SlabPool
    const producer: O.Producer
    var lost: nat

    ghost predicate Valid()
      reads this, pool, producer
    {
      && pool.Valid() && producer.Valid() && producer.ring.kind.Object?
      && pool.slabs != producer.ring.store
    }

    constructor (pool: SlabPool, producer: O.Producer)
      requires pool.Valid() && producer.Valid() && producer.ring.kind.Object? && pool.slabs != producer.ring.store
      ensures this.pool == pool && this.producer == producer && lost == 0 && Valid()
    {
      this.pool, this.producer, lost := pool, producer, 0;
    }

    /**
     A log statement in asynch mode: the event is built in the active slab and boxed; the
     box moves into the queue, or is dropped and the loss counted.
     */
    method Log(p: Event) returns (write: bool)
      requires Valid()
      modifies this`lost, pool`next, pool.slabs, producer`num, producer`bucket,
               producer.ring.seqn, producer.ring.store
      ensures Valid()
      ensures write <==> old(producer.ring.seqn[producer.bucket]) == Dummy(producer.ring.w)
      ensures (producer.ring.View(), producer.View())
           == O.WriteCall(producer.ring.Cfg(), old(producer.ring.View()), old(producer.View()), old(pool.next))
      ensures write ==>
                && pool.slabs[..] == old(pool.slabs[..])[old(pool.next) := Some(p)]
                && pool.next == (old(pool.next) + 1) % pool.slabs.Length && lost == old(lost)
      ensures !write ==>
                && pool.slabs[..] == old(pool.slabs[..])[old(pool.next) := None]
                && pool.next == old(pool.next) && lost == old(lost) + 1
    {
      var slab := pool.ActiveSlab();
      pool.slabs[slab] := Some(p);
      var box := new Box(pool, slab);
      write := producer.TryWrite(slab);
      if write {
        // The bucket's box now owns the slab; the temporary is moved from.
        var _ := box.Move();
        pool.SeekToNextSlab();
      } else {
        lost := lost + 1;
      }
      box.Drop();
    }
  }

  /** A log call the queue accepts, as one uninterrupted run of the machine. */
  lemma {:induction false} LogAccepted(cfg: SQ.Config, actions: seq<SQ.Action>, p: Event)
    requires cfg.Shape()
    requires SQT.HasRoom(cfg, SQ.Run(cfg, actions))
    ensures var s, t := SQ.Run(cfg, actions), SQ.Run(cfg, actions + SQT.LogCall(p));
            && (t.q.c.ring, t.q.c.writer) == O.WriteCall(cfg.Queue(), s.q.c.ring, s.q.c.writer, s.next)
            && t.pool == s.pool[s.next := Some(p)]
            && t.next == (s.next + 1) % cfg.slabs && t.lost == s.lost && t.call.Out?
            && t.accepted == s.accepted + [p] && t.attempts == s.attempts + 1
            && t.q.log == s.q.log + [s.next]
            && t.q.c.reader == s.q.c.reader && t.q.c.guards == s.q.c.guards
  {
    SQT.LogRuns(cfg, actions, p);
    var s := SQ.Run(cfg, actions);
    SmallMod(s.next, cfg.slabs);
    SQ.NextSlab(s.next, cfg.slabs);
  }

  /** A log call the queue refuses, as one uninterrupted run of the machine. */
  lemma {:induction false} LogRefused(cfg: SQ.Config, actions: seq<SQ.Action>, p: Event)
    requires cfg.Shape()
    requires var s := SQ.Run(cfg, actions);
             s.call.Out? && s.q.c.writer.pc.Idle? && s.q.c.ring.seqn[s.q.c.writer.bucket] != Dummy(cfg.w)
    ensures var s, t := SQ.Run(cfg, actions), SQ.Run(cfg, actions + [SQ.Place(p), SQ.Offer, SQ.Discard]);
            t == s.(pool := s.pool[s.next := None], attempts := s.attempts + 1, lost := s.lost + 1)
  {
    var a1 := actions + [SQ.Place(p)];
    var a2 := a1 + [SQ.Offer];
    SQT.RunStep(cfg, actions, SQ.Place(p));
    SQT.RunStep(cfg, a1, SQ.Offer);
    SQT.RunStep(cfg, a2, SQ.Discard);
    assert actions + [SQ.Place(p), SQ.Offer, SQ.Discard] == a2 + [SQ.Discard];
    var s := SQ.Run(cfg, actions);
    assert s.pool[s.next := Some(p)][s.next := None] == s.pool[s.next := None];
  }
}
