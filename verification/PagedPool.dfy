/**
  The block pool and its sequences as they run (engine/block_manager.py): a flat slab and an
  allocator changed in place, and one object per sequence holding its block table. A pool's
  `View` is the value-level world its objects stand for; every method is a step of that world.
 */
module PagedPool {
  import opened Wrappers
  import opened Arith
  import opened Allocator
  import opened Paging
  import opened Transformer

  class PagedCachePool<K> {
    const bs: nat
    const alloc: BlockAllocator
    const slab: array<seq<K>>
    /** The live sequences, in order, and the world the objects stand for. */
    ghost var caches: seq<PagedKVCache<K>>
    ghost var w: World<seq<K>>
    /** Every sequence object opened so far. */
    ghost var repr: set<PagedKVCache<K>>

    /** Sequences are distinct objects over this pool. */
    ghost predicate Owns()
      reads this
    {
      && (forall i :: 0 <= i < |caches| ==> caches[i].pool == this)
      && (forall i, j :: 0 <= i < j < |caches| ==> caches[i] != caches[j])
    }

    /** `w` is what the slab and the sequences hold. */
    ghost predicate ShowsTables()
      reads this, slab, repr
    {
      && w.bs == bs && w.slab == slab[..] && |w.tables| == |caches|
      && forall i :: 0 <= i < |caches| ==> caches[i] in repr && caches[i].AsTable() == w.tables[i]
    }

    ghost predicate Shows()
      reads this, alloc, slab, repr
    {
      w.alloc == alloc.View() && ShowsTables()
    }

    ghost predicate Valid()
      reads this, alloc, slab, repr
    {
      Owns() && Shows() && Inv(w)
    }

    twostate predicate SameSeqs()
      reads this
    {
      caches == old(caches) && repr == old(repr)
    }

    constructor (bs: nat, n: nat, blank: seq<K>)
      requires bs >= 1
      ensures Valid() && fresh(alloc) && fresh(slab) && this.bs == bs && caches == []
      ensures w == World(bs, Fresh(n), seq(n * bs, _ => blank), [], {})
    {
      this.bs := bs;
      alloc := new BlockAllocator(n);
      slab := new seq<K>[n * bs](_ => blank);
      caches, repr := [], {};
      w := World(bs, Fresh(n), seq(n * bs, _ => blank), [], {});
      new;
      assert slab[..] == seq(n * bs, _ => blank);
      FreshOK(n);
    }

    /** `allocate`: a new sequence, or none when not even one block is free. */
    method Allocate() returns (r: Option<PagedKVCache<K>>)
      requires Valid()
      modifies this
      ensures r.None? <==> NumFree(old(w)) == 0
      ensures r.None? ==> w == old(w) && SameSeqs()
      ensures r.Some? ==> fresh(r.value) && caches == old(caches) + [r.value] && repr == old(repr) + {r.value}
      ensures r.Some? ==> w == Open(old(w))
      ensures r.Some? ==> r.value.pool == this && r.value.AsTable() == EmptyTable
      ensures Valid()
    {
      OpenInv(w);
      hide Inv;
      r := None;
      if alloc.NumFree() > 0 {
        var cache := new PagedKVCache<K>(this);
        caches, repr := caches + [cache], repr + {cache};
        w := Open(w);
        r := Some(cache);
      }
    }

    /** `pool.k[l][slots] = ks`: one layer's scatter. */
    method WriteLayer(writes: seq<nat>, l: nat, ks: seq<K>)
      requires |ks| == |writes| && forall q :: 0 <= q < |writes| ==> writes[q] < slab.Length
      requires forall s :: 0 <= s < slab.Length ==> l < |slab[s]|
      modifies slab
      ensures slab[..] == Scatter(old(slab[..]), writes, l, ks)
    {
      ghost var was := slab[..];
      var q := 0;
      while q < |writes|
        invariant 0 <= q <= |writes|
        invariant slab[..] == Scatter(was, writes[..q], l, ks[..q])
      {
        assert writes[..q + 1][..q] == writes[..q] && ks[..q + 1][..q] == ks[..q];
        assert l < |slab[..][writes[q]]|;
        slab[writes[q]] := slab[writes[q]][l := ks[q]];
        q := q + 1;
      }
      assert writes[..q] == writes && ks[..q] == ks;
    }

    /** One decoder layer over the cache: project and scatter, then gather and attend. */
    method RunLayer<H>(m: Model<K, H>, l: nat, p: Plan, hs: seq<H>) returns (out: seq<H>)
      requires l < m.layers && PlanOK(m.layers, slab[..], p) && |hs| == |p.writes|
      modifies slab
      ensures Pass(slab[..], out) == Layer(m, l, p, Pass(old(slab[..]), hs))
      ensures PlanOK(m.layers, slab[..], p) && |out| == |hs|
    {
      ghost var x := Pass(slab[..], hs);
      var ks := seq(|hs|, q requires 0 <= q < |hs| => m.proj(l, hs[q]));
      assert forall s :: 0 <= s < slab.Length ==> l < |slab[..][s]|;
      WriteLayer(p.writes, l, ks);
      var now := slab[..];
      assert PlanOK(m.layers, now, p) && now == Layer(m, l, p, x).slab;
      out := seq(|hs|, q requires 0 <= q < |hs| => m.mix(l, hs[q], GatherLayer(now, p.sees[q], l)));
    }

    /** A whole forward pass: every layer updates the cache and attends over what it gathers. */
    method Forward<H>(m: Model<K, H>, p: Plan, hs: seq<H>) returns (out: seq<H>)
      requires PlanOK(m.layers, slab[..], p) && |hs| == |p.writes|
      modifies slab
      ensures Pass(slab[..], out) == RunPlan(m, p, Pass(old(slab[..]), hs))
    {
      ghost var x := Pass(slab[..], hs);
      out := hs;
      var l := 0;
      hide Layer, PlanOK;
      while l < m.layers
        invariant 0 <= l <= m.layers && |out| == |p.writes| && PlanOK(m.layers, slab[..], p)
        invariant Pass(slab[..], out) == Layers(m, l, p, x)
      {
        out := RunLayer(m, l, p, out);
        l := l + 1;
      }
    }

    /** `copy_block`. */
    method CopyBlock(src: nat, dst: nat)
      requires src * bs + bs <= slab.Length && dst * bs + bs <= slab.Length && src != dst
      modifies slab
      ensures slab[..] == Paging.CopyBlock(bs, old(slab[..]), src, dst)
    {
      Apart(bs, src, dst);
      CopyRange(src * bs, dst * bs, bs);
    }

    /** Copies a shared block into a free one and gives back the share of it. */
    method MoveBlock(tail: nat) returns (spare: nat)
      requires AllocOK(alloc.View()) && alloc.free != [] && tail < |alloc.refs| && alloc.refs[tail] > 1
      requires Last(alloc.View()) != tail
      requires tail * bs + bs <= slab.Length && Last(alloc.View()) * bs + bs <= slab.Length
      modifies alloc, slab
      ensures spare == Last(old(alloc.View())) && AllocOK(alloc.View())
      ensures alloc.View() == Dec(Take(old(alloc.View())), tail)
      ensures slab[..] == Paging.CopyBlock(bs, old(slab[..]), tail, spare)
    {
      var block := alloc.Allocate();
      spare := block.value;
      CopyBlock(tail, spare);
      var dropped, freed := alloc.Decref(tail);
    }

    method CopyRange(s: nat, d: nat, n: nat)
      requires s + n <= slab.Length && d + n <= slab.Length && (s + n <= d || d + n <= s)
      modifies slab
      ensures slab[..] == Copied(old(slab[..]), s, d, n)
    {
      ghost var was := slab[..];
      var o := 0;
      CopiedNone(was, s, d);
      hide Copied;
      while o < n
        invariant 0 <= o <= n && slab[..] == Copied(was, s, d, o)
      {
        CopiedNext(was, s, d, n, o);
        slab[d + o] := slab[s + o];
        o := o + 1;
      }
    }
  }

  class PagedKVCache<K> {
    const pool: PagedCachePool<K>
    var blocks: seq<nat>
    var len: nat
    var slots: seq<nat>

    ghost function AsTable(): Table
      reads this
    {
      Table(blocks, len, slots)
    }

    /** A new sequence holds no block. */
    constructor (pool: PagedCachePool<K>)
      ensures this.pool == pool && AsTable() == EmptyTable
    {
      this.pool := pool;
      blocks, len, slots := [], 0, [];
    }

    /** This is the pool's sequence number `i`. */
    ghost predicate At(i: nat)
      reads pool
    {
      i < |pool.caches| && pool.caches[i] == this
    }

    method AppendTo(block: nat)
      modifies this
      ensures AsTable() == AppendBlock(pool.bs, old(AsTable()), block)
    {
      slots := slots + BlockSlots(pool.bs, block);
      blocks := blocks + [block];
    }

    /** `_unshare_tail`; not ok is `OutOfBlocks`. */
    method UnshareTail(ghost i: nat) returns (ok: bool)
      requires pool.Valid() && At(i)
      modifies this, pool, pool.alloc, pool.slab
      ensures pool.Valid() && pool.SameSeqs() && Outcome(ok, pool.w) == Unshare(old(pool.w), i)
    {
      ghost var w := pool.w;
      ok := true;
      if blocks != [] && pool.alloc.refs[blocks[|blocks| - 1]] > 1 {
        ok := pool.alloc.NumFree() > 0;
        if ok {
          CopyTail(i);
        }
      }
    }

    /** `_unshare_tail` of a shared tail: its contents move to a block of our own. */
    method CopyTail(ghost i: nat)
      requires pool.Valid() && At(i) && CanCow(pool.w, i)
      modifies this, pool, pool.alloc, pool.slab
      ensures pool.Valid() && pool.SameSeqs() && pool.w == Cow(old(pool.w), i)
    {
      ghost var w := pool.w;
      TailFits(w, i);
      CowInv(w, i);
      var spare := pool.MoveBlock(blocks[|blocks| - 1]);
      hide Inv;
      RewriteTail(spare);
      pool.w := Cow(w, i);
    }

    method RewriteTail(block: nat)
      requires blocks != [] && pool.bs <= |slots|
      modifies this
      ensures AsTable() == ReplaceTail(pool.bs, old(AsTable()), block)
    {
      blocks := blocks[|blocks| - 1 := block];
      slots := slots[..|slots| - pool.bs] + BlockSlots(pool.bs, block);
    }

    /** `_ensure_capacity`: blocks one at a time until `n` more tokens fit. */
    method EnsureRoom(n: nat, ghost i: nat) returns (ok: bool)
      requires pool.Valid() && At(i)
      modifies this, pool, pool.alloc
      ensures pool.Valid() && pool.SameSeqs() && Outcome(ok, pool.w) == EnsureCapacity(old(pool.w), i, n)
    {
      hide Inv, GrowBy, Grown, EnsureCapacity, Shortfall, Grow;
      ghost var w := pool.w;
      CapacityIs(w, i, n);
      var todo := Missing(n, i);
      var k := 0;
      ok := true;
      while ok && k < todo
        invariant 0 <= k <= todo && k <= NumFree(w) && (!ok ==> k == NumFree(w) < todo)
        invariant pool.Valid() && pool.SameSeqs() && pool.w == GrowBy(w, i, k)
        decreases todo - k, ok
      {
        GrowMore(w, i, k);
        ok := TakeBlock(i);
        if ok { k := k + 1; }
      }
    }

    /** How many blocks short of `n` more tokens the sequence is. */
    method Missing(n: nat, ghost i: nat) returns (todo: nat)
      requires pool.Valid() && At(i)
      ensures todo == Shortfall(pool.w, i, n)
    {
      var needed := CeilDiv(len + n, pool.bs);
      todo := if needed <= |blocks| then 0 else needed - |blocks|;
    }

    /** One iteration of `_ensure_capacity`. */
    method TakeBlock(ghost i: nat) returns (ok: bool)
      requires pool.Valid() && At(i) && AllocOK(pool.w.alloc)
      modifies this, pool, pool.alloc
      ensures pool.Valid() && pool.SameSeqs() && ok == (NumFree(old(pool.w)) > 0)
      ensures pool.w == if ok then Grow(old(pool.w), i) else old(pool.w)
    {
      hide Inv;
      ghost var v := pool.w;
      if NumFree(v) > 0 { GrowInv(v, i); }
      var block := pool.alloc.Allocate();
      ok := block.Some?;
      if ok {
        AppendTo(block.value);
        pool.w := Grow(v, i);
      }
    }

    /** Layer 0 of `update`: make room for `n` tokens and advance the position. */
    method Advance(n: nat, ghost i: nat) returns (ok: bool)
      requires pool.Valid() && At(i)
      modifies this, pool, pool.alloc, pool.slab
      ensures pool.Valid() && pool.SameSeqs() && Reserves(old(pool.w), i, n, ok, pool.w)
    {
      ghost var w := pool.w;
      hide Inv, Unshare, EnsureCapacity, Reserve;
      ReserveUnfold(w, i, n);
      ok := true;
      if len % pool.bs != 0 {
        ok := UnshareTail(i);
      }
      if ok {
        ghost var u := pool.w;
        ok := EnsureRoom(n, i);
        if ok {
          AdvanceInv(u, pool.w, i, n);
          MoveOn(n, i);
        }
      }
    }

    method MoveOn(n: nat, ghost i: nat)
      requires pool.Valid() && At(i) && Inv(Bump(pool.w, i, n))
      modifies this, pool
      ensures pool.Valid() && pool.SameSeqs() && pool.w == Bump(old(pool.w), i, n)
    {
      hide Inv;
      len := len + n;
      pool.w := Bump(pool.w, i, n);
    }

    method Twin() returns (child: PagedKVCache<K>)
      ensures fresh(child) && child.pool == pool && child.AsTable() == AsTable()
    {
      child := new PagedKVCache(pool);
      child.blocks, child.len, child.slots := blocks, len, slots;
    }

    /** `fork`: a second sequence over the same blocks. */
    method Fork(ghost i: nat) returns (child: PagedKVCache<K>)
      requires pool.Valid() && At(i)
      modifies pool, pool.alloc
      ensures fresh(child) && pool.caches == old(pool.caches) + [child] && pool.repr == old(pool.repr) + {child}
      ensures pool.Valid() && Forked(old(pool.w), i, pool.w)
    {
      hide Inv, Distinct, Live, AllocOK, IncsTo, Forked;
      TableShape(pool.w, i);
      IncrefAll(pool.alloc, blocks);
      ForkedBy(pool.w, i, pool.alloc.View());
      child := Twin();
      pool.caches, pool.repr := pool.caches + [child], pool.repr + {child};
      pool.w := pool.w.(alloc := pool.alloc.View(), tables := pool.w.tables + [AsTable()]);
    }

    /** `free`: every block given back; the sequence is over. */
    method Free(ghost i: nat)
      requires pool.Valid() && At(i)
      modifies this, pool, pool.alloc
      ensures pool.caches == old(pool.caches)[..i] + old(pool.caches)[i + 1..] && pool.repr == old(pool.repr)
      ensures AsTable() == EmptyTable
      ensures pool.Valid() && Closed(old(pool.w), i, pool.w)
    {
      hide Inv, Distinct, Live, AllocOK, DecsTo, Closed;
      TableShape(pool.w, i);
      DecrefAll(pool.alloc, blocks);
      ClosedBy(pool.w, i, pool.alloc.View());
      pool.caches := pool.caches[..i] + pool.caches[i + 1..];
      pool.w := pool.w.(alloc := pool.alloc.View(), tables := pool.w.tables[..i] + pool.w.tables[i + 1..]);
      blocks, len, slots := [], 0, [];
    }
  }

  /** `r` is what reserving `n` positions for table `i` makes of `w`. */
  ghost predicate Reserves<E>(w: World<E>, i: nat, n: nat, ok: bool, r: World<E>)
  {
    Inv(w) && i < |w.tables| && Reserve(w, i, n) == Outcome(ok, r)
  }

  /** The allocator after one more, or one fewer, reference on each of `bs`. */
  ghost predicate IncsTo(a: Alloc, bs: seq<nat>, r: Alloc)
  {
    AllocOK(a) && Distinct(bs) && Live(a, bs) && r == IncAll(a, bs)
  }

  ghost predicate DecsTo(a: Alloc, bs: seq<nat>, r: Alloc)
  {
    AllocOK(a) && Distinct(bs) && Live(a, bs) && r == DecAll(a, bs)
  }

  ghost predicate Forked<E>(w: World<E>, i: nat, r: World<E>)
  {
    i < |w.tables| && AllocOK(w.alloc) && Distinct(w.tables[i].blocks) && Live(w.alloc, w.tables[i].blocks)
    && r == Paging.Fork(w, i)
  }

  ghost predicate Closed<E>(w: World<E>, i: nat, r: World<E>)
  {
    i < |w.tables| && AllocOK(w.alloc) && Distinct(w.tables[i].blocks) && Live(w.alloc, w.tables[i].blocks)
    && r == Close(w, i)
  }

  lemma ForkedBy<E>(w: World<E>, i: nat, a: Alloc)
    requires Inv(w) && i < |w.tables| && IncsTo(w.alloc, w.tables[i].blocks, a)
    ensures var r := w.(alloc := a, tables := w.tables + [w.tables[i]]); Forked(w, i, r) && Inv(r)
  {
    ForkInv(w, i);
  }

  lemma ClosedBy<E>(w: World<E>, i: nat, a: Alloc)
    requires Inv(w) && i < |w.tables| && DecsTo(w.alloc, w.tables[i].blocks, a)
    ensures var r := w.(alloc := a, tables := w.tables[..i] + w.tables[i + 1..]); Closed(w, i, r) && Inv(r)
  {
    CloseInv(w, i);
  }

  /** The slab with `o` slots from `s` on copied to `d`. */
  function Copied<E>(was: seq<E>, s: nat, d: nat, o: nat): (r: seq<E>)
    requires s + o <= |was| && d + o <= |was|
    ensures |r| == |was|
  {
    was[..d] + was[s..s + o] + was[d + o..]
  }

  lemma CopiedNone<E>(was: seq<E>, s: nat, d: nat)
    requires s <= |was| && d <= |was|
    ensures Copied(was, s, d, 0) == was
  {
  }

  lemma CopiedNext<E>(was: seq<E>, s: nat, d: nat, n: nat, o: nat)
    requires s + n <= |was| && d + n <= |was| && (s + n <= d || d + n <= s) && o < n
    ensures var now := Copied(was, s, d, o); Copied(was, s, d, o + 1) == now[d + o := now[s + o]]
  {
  }

  lemma TableShape<E>(w: World<E>, i: nat)
    requires Inv(w) && i < |w.tables|
    ensures AllocOK(w.alloc) && Distinct(w.tables[i].blocks) && Live(w.alloc, w.tables[i].blocks)
  {
    TableLive(w, i);
  }

  /** The loop of `fork`. */
  method IncrefAll(a: BlockAllocator, bs: seq<nat>)
    requires AllocOK(a.View()) && Distinct(bs) && Live(a.View(), bs)
    modifies a
    ensures IncsTo(old(a.View()), bs, a.View())
  {
    var k := 0;
    while k < |bs|
      invariant 0 <= k <= |bs| && AllocOK(a.View()) && a.View() == IncAll(old(a.View()), bs[..k])
    {
      assert bs[..k + 1][..k] == bs[..k];
      var ok := a.Incref(bs[k]);
      k := k + 1;
    }
    assert bs[..k] == bs;
  }

  /** The loop of `free`. */
  method DecrefAll(a: BlockAllocator, bs: seq<nat>)
    requires AllocOK(a.View()) && Distinct(bs) && Live(a.View(), bs)
    modifies a
    ensures DecsTo(old(a.View()), bs, a.View())
  {
    var k := 0;
    while k < |bs|
      invariant 0 <= k <= |bs| && AllocOK(a.View()) && a.View() == DecAll(old(a.View()), bs[..k])
    {
      assert bs[..k + 1][..k] == bs[..k];
      assert bs[k] !in bs[..k];
      var ok, freed := a.Decref(bs[k]);
      k := k + 1;
    }
    assert bs[..k] == bs;
  }

  lemma CapacityIs<E>(w: World<E>, i: nat, n: nat)
    requires Inv(w) && i < |w.tables|
    ensures GrowBy(w, i, 0) == w
    ensures EnsureCapacity(w, i, n)
            == if Shortfall(w, i, n) <= NumFree(w) then Outcome(true, GrowBy(w, i, Shortfall(w, i, n)))
                                       else Outcome(false, GrowBy(w, i, NumFree(w)))
  {
  }

  lemma GrowMore<E>(w: World<E>, i: nat, k: nat)
    requires Inv(w) && i < |w.tables| && k <= NumFree(w)
    ensures var v := GrowBy(w, i, k);
      && Inv(v) && AllocOK(v.alloc) && i < |v.tables| && NumFree(v) == NumFree(w) - k
      && (k < NumFree(w) ==> Inv(GrowBy(w, i, k + 1)) && GrowBy(w, i, k + 1) == Grow(v, i))
  {
  }

  lemma ReserveUnfold<E>(w: World<E>, i: nat, n: nat)
    requires Inv(w) && i < |w.tables|
    ensures w.bs >= 1
    ensures var u := if w.tables[i].len % w.bs != 0 then Unshare(w, i) else Outcome(true, w);
      && Inv(u.w) && i < |u.w.tables|
      && (!u.ok ==> Reserve(w, i, n) == u)
      && (u.ok ==> var g := EnsureCapacity(u.w, i, n);
                   && i < |g.w.tables|
                   && Reserve(w, i, n) == if g.ok then Outcome(true, Bump(g.w, i, n)) else g)
  {
    UnshareFacts(w, i);
  }

  lemma AdvanceInv<E>(u: World<E>, g: World<E>, i: nat, n: nat)
    requires Inv(u) && i < |u.tables| && EnsureCapacity(u, i, n) == Outcome(true, g)
    ensures Inv(g) && i < |g.tables| && Inv(Bump(g, i, n))
  {
    var k := Shortfall(u, i, n);
    assert Grown(u, g, i, k);
    var want := CeilDiv(u.tables[i].len + n, u.bs);
    MulMono(want, |g.tables[i].blocks|, u.bs);
    assert TableOK(g.bs, |g.alloc.refs|, g.tables[i]);
    BumpInv(g, i, n);
  }
}
