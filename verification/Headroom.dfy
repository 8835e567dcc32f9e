/**
  When the engine has room, said in free blocks (engine/block_manager.py `_ensure_capacity`,
  engine/prefix_cache.py `ensure_free`, engine/scheduler.py `_prepare` and `_admit`).
 */
module Headroom {
  import opened Wrappers
  import opened Allocator
  import opened Arith
  import opened Paging
  import opened Batch
  import opened Transformer
  import opened PrefixCaching
  import opened Content
  import opened Requests
  import opened Prefilling
  import opened Scheduling
  import opened Refinement
  import Isolation

  // -- one sequence -------------------------------------------------------------------------

  /** The last block is shared with somebody. */
  ghost predicate TailHeldTwice<E>(w: World<E>, i: nat)
    requires i < |w.tables|
  {
    var b := w.tables[i].blocks;
    b != [] && b[|b| - 1] < |w.alloc.refs| && w.alloc.refs[b[|b| - 1]] >= 2
  }

  /**
    Room for `n` more tokens: `k` blocks in all, as few as cover them, and one more to copy the last
    block into when it is partly filled and shared.
   */
  lemma ReserveCost<E>(w: World<E>, i: nat, n: nat, k: nat)
    requires Inv(w) && i < |w.tables| && Tight(w.bs, w.tables[i])
    requires w.tables[i].len + n <= k * w.bs && (k > 0 ==> (k - 1) * w.bs < w.tables[i].len + n)
    ensures var (t, r) := (w.tables[i], Reserve(w, i, n));
            var copy := if t.len % w.bs != 0 && TailHeldTwice(w, i) then 1 else 0;
            && (r.ok <==> k + copy <= |t.blocks| + |w.alloc.free|)
            && (r.ok ==> |r.w.alloc.free| + k + copy == |t.blocks| + |w.alloc.free|)
  {
    hide *;
    SharedIff(w, i);
    ReserveFacts(w, i, n);
    CostIs(w, i, n, k);
  }

  lemma CostIs<E>(w: World<E>, i: nat, n: nat, k: nat)
    requires Inv(w) && i < |w.tables| && Tight(w.bs, w.tables[i])
    requires w.tables[i].len + n <= k * w.bs && (k > 0 ==> (k - 1) * w.bs < w.tables[i].len + n)
    ensures var t := w.tables[i];
            && w.bs >= 1 && |t.blocks| <= k
            && Cost(w, i, n) == k - |t.blocks| + if t.len % w.bs != 0 && SharedTail(w, i) then 1 else 0
    ensures forall v: World<E> :: NumFree(v) == |v.alloc.free|
  {
    assert w.bs >= 1;
    hide Inv, SharedTail, CeilDiv;
    CeilUnique(w.tables[i].len + n, w.bs, k);
    CeilMono(w.tables[i].len, w.tables[i].len + n, w.bs);
  }

  lemma SharedIff<E>(w: World<E>, i: nat)
    requires Inv(w) && i < |w.tables|
    ensures w.bs >= 1 && (SharedTail(w, i) <==> TailHeldTwice(w, i))
  {
    TableLive(w, i);
  }

  /** An append succeeds exactly when there is room; otherwise the sequence is given up. */
  lemma ExtendsIff<E>(s: Store<E>, i: nat, es: seq<E>, k: nat)
    requires Isolation.PoolOK(s) && i < |s.w.tables|
    requires s.w.tables[i].len + |es| <= k * s.w.bs && (k > 0 ==> (k - 1) * s.w.bs < s.w.tables[i].len + |es|)
    ensures var (t, r) := (s.w.tables[i], Isolation.Extend(s, i, es));
            var copy := if t.len % s.w.bs != 0 && TailHeldTwice(s.w, i) then 1 else 0;
            |r.w.tables| == |s.w.tables| - if k + copy <= |t.blocks| + |s.w.alloc.free| then 0 else 1
  {
    StoreInv(s);
    assert Tight(s.w.bs, s.w.tables[i]);
    ReserveCost(s.w, i, |es|, k);
    var r := Reserve(s.w, i, |es|);
    ReserveTables(s.w, i, |es|);
    if !r.ok { Isolation.ReserveFailed(s.w, i, |es|); }
    hide Reserve, Inv, TailHeldTwice, StoreOK, Isolation.Put;
  }

  // -- a batch ----------------------------------------------------------------------------------

  /** The members that need a block for one more token: at a block's end, or sharing their last block. */
  ghost function Needy<E>(w: World<E>, n: nat): set<nat>
    requires n <= |w.tables| && w.bs >= 1
  {
    set i: nat | i < n && (w.tables[i].len % w.bs == 0 || TailHeldTwice(w, i))
  }

  lemma {:induction false} CountNeedy<E>(w: World<E>, n: nat)
    requires Inv(w) && n <= |w.tables| && w.bs >= 1
    ensures Count(w, n) == |Needy(w, n)|
  {
    hide Inv, NeedsBlock, TailHeldTwice;
    if n == 0 {
      assert Needy(w, 0) == {};
    } else {
      CountNeedy(w, n - 1);
      NeedyIff(w, n - 1);
      assert Needy(w, n) == Needy(w, n - 1) + if NeedsBlock(w, n - 1) then {n - 1} else {};
    }
  }

  lemma NeedyIff<E>(w: World<E>, i: nat)
    requires Inv(w) && i < |w.tables|
    ensures w.bs >= 1 && (NeedsBlock(w, i) <==> w.tables[i].len % w.bs == 0 || TailHeldTwice(w, i))
  {
    SharedIff(w, i);
  }

  /** A batch is prepared if and only if the free list has a block for each member that needs one. */
  lemma PreparesIff<E>(w: World<E>, n: nat)
    requires Inv(w) && AllTight(w) && n <= |w.tables|
    ensures Prepare(w, n).ok <==> |Needy(w, n)| <= |w.alloc.free|
  {
    PrepareAtomic(w, n);
    CountNeedy(w, n);
  }

  /** A batched step advances every member by one entry when the batch can be prepared, and nobody when not. */
  lemma StepsIff<E>(s: Store<E>, es: seq<E>)
    requires Isolation.PoolOK(s) && |es| <= |s.w.tables| && s.w.bs >= 1
    ensures var r := Isolation.BatchStep(s, es);
            && |r.w.tables| == |s.w.tables|
            && (|Needy(s.w, |es|)| > |s.w.alloc.free| ==> r == s)
            && (|Needy(s.w, |es|)| <= |s.w.alloc.free| ==>
                  forall x :: 0 <= x < |es| ==> r.w.tables[x].len == s.w.tables[x].len + 1)
  {
    StoreInv(s);
    PrepareAtomic(s.w, |es|);
    PreparesIff(s.w, |es|);
    hide Inv, StoreOK, Prepare, Needy, Isolation.Put, Kept, WritesDistinct;
  }

  // -- eviction -----------------------------------------------------------------------------------

  /** The entries nobody but the cache holds. */
  ghost function Spare<E>(s: Store<E>): set<Key>
  {
    set k | k in s.pc.entries && s.pc.entries[k].block < |s.w.alloc.refs|
            && s.w.alloc.refs[s.pc.entries[k].block] == 1
  }

  lemma SpareIff<E>(s: Store<E>, k: Key)
    requires StoreOK(s)
    ensures Evictable(s, k) <==> k in Spare(s)
  {
    if k in s.pc.entries { assert EntryOK(s.pc, k); }
  }

  /** Evicting frees one block for each spare entry, up to as many as asked for. */
  lemma {:induction false} EvictCount<E>(s: Store<E>, n: nat)
    requires StoreOK(s)
    ensures var (r, m) := (Evict(s, n), if n <= |Spare(s)| then n else |Spare(s)|);
            NumFree(r.w) == NumFree(s.w) + m && |Spare(r)| == |Spare(s)| - m
    decreases n
  {
    hide *;
    EvictUnfold(s, n);
    SpareNone(s);
    if n > 0 && AnyEvictable(s) {
      var k := ColdestKey(s);
      ColdestIn(s, k);
      DropOK(s, k);
      SpareDrop(s, k);
      EvictCount(Drop(s, k), n - 1);
    }
  }

  lemma EvictUnfold<E>(s: Store<E>, n: nat)
    requires StoreOK(s)
    ensures n == 0 || !AnyEvictable(s) ==> Evict(s, n) == s
    ensures n > 0 && AnyEvictable(s) ==>
              var k := ColdestKey(s);
              k in s.pc.entries && StoreOK(Drop(s, k)) && Evict(s, n) == Evict(Drop(s, k), n - 1)
  {
    hide StoreOK, AnyEvictable, Coldest, Evictable, Drop;
    if n > 0 && AnyEvictable(s) {
      ColdestIn(s, ColdestKey(s));
      DropOK(s, ColdestKey(s));
    }
  }

  lemma SpareNone<E>(s: Store<E>)
    requires StoreOK(s)
    ensures !AnyEvictable(s) <==> |Spare(s)| == 0
  {
    forall k ensures Evictable(s, k) <==> k in Spare(s) { SpareIff(s, k); }
    hide StoreOK, Evictable, Spare;
    assert |Spare(s)| == 0 <==> Spare(s) == {};
  }

  lemma SpareDrop<E>(s: Store<E>, k: Key)
    requires StoreOK(s) && k in s.pc.entries && Evictable(s, k)
    ensures Spare(Drop(s, k)) == Spare(s) - {k} && k in Spare(s)
  {
    DropOK(s, k);
    forall x ensures x in Spare(Drop(s, k)) <==> x in Spare(s) - {k} {
      EvictableAfter(s, k, x);
      SpareIff(s, x);
      SpareIff(Drop(s, k), x);
    }
    SpareIff(s, k);
  }

  /** Making `n` blocks free evicts as many entries as are missing and no more, if there are so many. */
  lemma EnsureFreeExact<E>(s: Store<E>, n: nat)
    requires StoreOK(s)
    ensures var (r, all) := (EnsureFree(s, n), NumFree(s.w) + |Spare(s)|);
            && (r.ok <==> n <= all)
            && (n <= NumFree(s.w) ==> r.s == s)
            && (NumFree(s.w) < n ==> NumFree(r.s.w) == if n <= all then n else all)
            && NumFree(r.s.w) + |Spare(r.s)| == all
  {
    hide *;
    EnsureFreeUnfold(s, n);
    if NumFree(s.w) < n { EvictCount(s, n - NumFree(s.w)); }
  }

  lemma EnsureFreeUnfold<E>(s: Store<E>, n: nat)
    requires StoreOK(s)
    ensures EnsureFree(s, n).s == if NumFree(s.w) < n then Evict(s, n - NumFree(s.w)) else s
    ensures EnsureFree(s, n).ok <==> NumFree(EnsureFree(s, n).s.w) >= n
  {
    hide StoreOK, Evict, NumFree;
  }

  // -- admission --------------------------------------------------------------------------------------

  /** `free` blocks cover the prompt, one spare block, and the larger of the floor and one per member. */
  ghost predicate RoomFor<K, H>(c: Config<K, H>, bs: nat, prompt: seq<Token>, batch: nat, free: nat)
  {
    exists k: nat :: |prompt| <= k * bs && k + 1 + c.reserve <= free && k + 1 + (batch + 1) <= free
  }

  lemma RoomIs<K, H>(c: Config<K, H>, e: Engine<K>, free: nat)
    requires e.st.w.bs >= 1 && e.waiting != []
    ensures Room(c, e) <= free <==> RoomFor(c, e.st.w.bs, e.waiting[0].prompt, |e.running|, free)
  {
    var n, bs := |e.waiting[0].prompt|, e.st.w.bs;
    var k := CeilDiv(n, bs);
    if Room(c, e) <= free {
      assert n <= k * bs && k + 1 + c.reserve <= free && k + 1 + (|e.running| + 1) <= free;
    }
    if RoomFor(c, bs, e.waiting[0].prompt, |e.running|, free) {
      var x: nat :| n <= x * bs && x + 1 + c.reserve <= free && x + 1 + (|e.running| + 1) <= free;
      FewerBlocks(n, bs, x);
    }
  }

  lemma FewerBlocks(n: nat, bs: nat, x: nat)
    requires bs >= 1 && n <= x * bs
    ensures CeilDiv(n, bs) <= x
  {
    var k := CeilDiv(n, bs);
    if x < k { MulMono(x, k - 1, bs); }
  }

  /** Blocks the head of the queue could have: the free ones and those only the cache holds. */
  ghost predicate HasRoom<K, H>(c: Config<K, H>, e: Engine<K>)
    requires e.waiting != []
  {
    RoomFor(c, e.st.w.bs, e.waiting[0].prompt, |e.running|, |e.st.w.alloc.free| + |Spare(e.st)|)
  }

  /** The head of the queue is let in if and only if there is room for it. */
  lemma AdmitsIff<K, H>(c: Config<K, H>, e: Engine<K>)
    requires Serving(c, e) && Shaped(e) && e.waiting != [] && e.waiting[0].prompt != [] && e.st.w.bs >= 1
    ensures AdmitOne(c, e).more <==> HasRoom(c, e)
    ensures !AdmitOne(c, e).more ==> !HasRoom(c, AdmitOne(c, e).e) && AdmitOne(c, e).e == e.(st := AdmitOne(c, e).e.st)
  {
    hide *;
    ServingShape(c, e);
    PoolStore(c.m, e.st);
    AdmitOneFacts(c, e);
    var a, room := AdmitOne(c, e), Room(c, e);
    FreedRight(c.m, e.st, room);
    EnsureFreeExact(e.st, room);
    HasRoomIs(c, e);
    if !a.more {
      HasRoomIs(c, a.e);
      SameRoom(c, e, a.e);
    }
  }

  lemma HasRoomIs<K, H>(c: Config<K, H>, e: Engine<K>)
    requires e.waiting != [] && e.st.w.bs >= 1
    ensures HasRoom(c, e) <==> Room(c, e) <= NumFree(e.st.w) + |Spare(e.st)|
  {
    hide Spare, RoomFor, Room;
    RoomIs(c, e, |e.st.w.alloc.free| + |Spare(e.st)|);
  }

  lemma SameRoom<K, H>(c: Config<K, H>, e: Engine<K>, a: Engine<K>)
    requires e.waiting != [] && e.st.w.bs >= 1 && a == e.(st := a.st) && a.st.w.bs == e.st.w.bs
    ensures Room(c, a) == Room(c, e)
  {
  }

  /**
    Admission is first come first served and stops only when the queue is empty, the batch is full,
    or there is no room for the head of the queue.
   */
  lemma {:induction false} AdmitStops<K, H>(c: Config<K, H>, e: Engine<K>)
    requires Serving(c, e)
    ensures var a := Admit(c, e);
            && (a.waiting == [] || |a.running| >= c.maxBatch || !HasRoom(c, a))
            && Suffix(a.waiting, e.waiting)
    decreases |e.waiting|
  {
    hide Serving, AdmitOne, Shaped, HasRoom;
    ServingShape(c, e);
    if e.waiting != [] && |e.running| < c.maxBatch {
      AdmitOneServing(c, e);
      AdmitsIff(c, e);
      var a := AdmitOne(c, e);
      AdmitPops(c, e);
      if a.more {
        AdmitStops(c, a.e);
      }
    }
  }

  lemma AdmitPops<K, H>(c: Config<K, H>, e: Engine<K>)
    requires Serving(c, e) && Shaped(e) && e.waiting != [] && e.waiting[0].prompt != [] && e.st.w.bs >= 1
    ensures var a := AdmitOne(c, e); a.e.waiting == if a.more then e.waiting[1..] else e.waiting
  {
    hide *;
    ServingShape(c, e);
    PoolStore(c.m, e.st);
    AdmitOneFacts(c, e);
    var f, r := EnsureFree(e.st, Room(c, e)), e.waiting[0];
    if AdmitOne(c, e).more {
      var p := Prefill(c, f.s, r.prompt);
      JoinedWaiting(c, e.(st := p.s, waiting := e.waiting[1..]), r, Next(c.m, r.prompt));
    }
  }

  lemma JoinedWaiting<K, H>(c: Config<K, H>, e: Engine<K>, r: Request, t: Token)
    ensures Joined(c, e, r, t).waiting == e.waiting
  {
    hide Shaped, Accept, Newest;
  }
}
