/** The prefix cache over the pool as it runs (engine/prefix_cache.py). */
module PrefixIndex {
  import opened Wrappers
  import opened Arith
  import opened Allocator
  import opened Paging
  import opened Transformer
  import opened PrefixCaching
  import opened PagedPool
  import Recency

  class PrefixCache<K> {
    const pool: PagedCachePool<K>
    var entries: map<Key, Entry>
    var byBlock: map<nat, Key>
    var clock: nat
    /** The pool and the cache over it, as a value. */
    ghost var st: Store<seq<K>>

    ghost function Index(): Prefix
      reads this
    {
      Prefix(entries, byBlock, clock)
    }

    /** The index is right, whatever became of the pool since. */
    ghost predicate Ahead()
      reads this
    {
      st.pc == Index() && StoreOK(st)
    }

    ghost predicate Valid()
      reads this, pool, pool.alloc, pool.slab, pool.repr
    {
      pool.Valid() && st == Store(pool.w, Index()) && StoreOK(st)
    }

    constructor (pool: PagedCachePool<K>)
      requires pool.Valid() && pool.w.cached == {}
      ensures this.pool == pool && Valid() && st == Store(pool.w, NoPrefix)
    {
      this.pool := pool;
      entries, byBlock, clock := map[], map[], 0;
      st := Store(pool.w, NoPrefix);
    }

    /** `hash_chain`: each key hashes the previous one with the next full block. */
    method ChainOf(toks: seq<Token>) returns (keys: seq<Key>)
      requires pool.bs >= 1
      ensures keys == HashChain(pool.bs, toks)
    {
      var bs := pool.bs;
      keys := [];
      var parent, start := Root, 0;
      hide HashChain;
      while start + bs <= |toks|
        invariant start == |keys| * bs && |keys| <= |toks| / bs
        invariant keys == HashChain(bs, toks)[..|keys|]
        invariant parent == if keys == [] then Root else keys[|keys| - 1]
        decreases |toks| - start
      {
        MoreChain(bs, toks, |keys|);
        ChainStep(bs, toks, |keys|);
        parent := Chain(parent, toks[start..start + bs]);
        keys := keys + [parent];
        start := start + bs;
      }
      NoMoreChain(bs, toks, |keys|);
    }

    /** `match`: the blocks of the longest cached prefix, a reference taken on each for the caller. */
    method Match(toks: seq<Token>) returns (blocks: seq<nat>, ghost keys: seq<Key>)
      requires Valid()
      modifies this, pool.alloc
      ensures st == old(st) && HitsAre(st, toks, keys)
      ensures Matched(st, keys, |keys|, blocks, Index(), pool.alloc.View())
    {
      var chain := ChainOf(toks);
      keys := chain[..Hits(st.pc, chain, 0)];
      MatchReady(st, toks, keys);
      hide HashChain, StoreOK, Matched, Inv, PrefixOK, AllocOK, HitsAre;
      MatchedNone(st, keys);
      blocks := TakeHits(chain, keys);
    }

    /** The loop of `match`: stop at the first miss. */
    method TakeHits(chain: seq<Key>, ghost keys: seq<Key>) returns (blocks: seq<nat>)
      requires Matched(st, keys, 0, [], Index(), pool.alloc.View())
      requires keys == chain[..Hits(Index(), chain, 0)] && Index() == st.pc
      requires (forall x :: 0 <= x < |keys| ==> keys[x] in st.pc.entries)
      requires Distinct(BlocksOf(st.pc, keys)) && Live(st.w.alloc, BlocksOf(st.pc, keys))
      modifies this, pool.alloc
      ensures st == old(st) && Matched(st, keys, |keys|, blocks, Index(), pool.alloc.View())
    {
      ghost var s := st;
      hide Matched, BlocksOf, Distinct, Live;
      blocks := [];
      var d := 0;
      while d < |chain| && chain[d] in entries
        invariant d <= |keys| && entries.Keys == s.pc.entries.Keys && st == s
        invariant Matched(s, keys, d, blocks, Index(), pool.alloc.View())
        decreases |chain| - d
      {
        assert d < |keys| && keys[d] == chain[d];
        MatchedMore(s, keys, d, blocks, Index(), pool.alloc.View());
        var b := TakeHit(chain[d]);
        blocks := blocks + [b];
        d := d + 1;
      }
    }

    /** One hit: the entry is the most recently used, its block has one more reference. */
    method TakeHit(k: Key) returns (b: nat)
      requires k in entries && AllocOK(pool.alloc.View()) && entries[k].block < |pool.alloc.refs|
               && pool.alloc.refs[entries[k].block] > 0
      modifies this, pool.alloc
      ensures b == old(entries[k].block) && Index() == Touch(old(Index()), k) && st == old(st)
      ensures AllocOK(pool.alloc.View()) && pool.alloc.View() == Inc(old(pool.alloc.View()), b)
      ensures entries.Keys == old(entries.Keys)
    {
      clock := clock + 1;
      b := entries[k].block;
      entries := entries[k := entries[k].(lastUsed := clock)];
      var ok := pool.alloc.Incref(b);
    }

    /** `attach`: a fresh sequence starts out with the matched blocks. */
    method Attach(cache: PagedKVCache<K>, blocks: seq<nat>)
      requires cache.pool == pool && cache.AsTable() == EmptyTable
      modifies cache
      ensures Attached(pool.bs, blocks, cache.AsTable())
    {
      var k := 0;
      while k < |blocks|
        invariant 0 <= k <= |blocks|
        invariant cache.AsTable() == Table(blocks[..k], 0, AllSlots(pool.bs, blocks[..k]))
      {
        assert blocks[..k + 1][..k] == blocks[..k];
        cache.AppendTo(blocks[k]);
        k := k + 1;
      }
      assert blocks[..k] == blocks;
      cache.len := |blocks| * pool.bs;
    }

    /** `match` then `attach`: sequence `i` starts from the longest cached prefix of `toks`. */
    method Reuse(cache: PagedKVCache<K>, ghost i: nat, toks: seq<Token>) returns (n: nat, ghost keys: seq<Key>)
      requires Valid() && cache.pool == pool && cache.At(i) && cache.AsTable() == EmptyTable
      modifies this, pool, pool.alloc, cache
      ensures Valid() && pool.SameSeqs()
      ensures HitsAre(old(st), toks, keys) && Reused(old(st), i, keys, st) && n == cache.len == Covered(keys, pool.bs)
      ensures Recency.Refreshed(old(st).pc, st.pc, keys)
    {
      ghost var s := st;
      assert st.w.tables[i] == EmptyTable;
      hide Inv, StoreOK, Matched, HitsAre, Reused, Attached, Covered, Recency.Refreshed;
      var blocks;
      blocks, keys := Match(toks);
      AttachTo(cache, i, blocks, toks, keys);
      n := cache.len;
      ReusedRefreshes(s, i, keys, st);
    }

    /** The references `match` took move onto sequence `i`. */
    method AttachTo(
      cache: PagedKVCache<K>, ghost i: nat, blocks: seq<nat>, ghost toks: seq<Token>, ghost keys: seq<Key>)
      requires pool.Owns() && pool.ShowsTables() && cache.pool == pool && cache.At(i) && cache.AsTable() == EmptyTable
      requires StoreOK(st) && st.w == pool.w && HitsAre(st, toks, keys)
      requires Matched(st, keys, |keys|, blocks, Index(), pool.alloc.View())
      modifies this, pool, cache
      ensures Valid() && pool.SameSeqs()
      ensures Reused(old(st), i, keys, st) && cache.len == Covered(keys, pool.bs)
    {
      hide Inv, StoreOK, Matched, HitsAre, Reused, Attached, Covered;
      Attach(cache, blocks);
      ReusedBy(st, i, toks, keys, blocks, Index(), pool.alloc.View(), cache.AsTable());
      pool.w := pool.w.(alloc := pool.alloc.View(), tables := pool.w.tables[i := cache.AsTable()]);
      st := Store(pool.w, Index());
    }

    /** An entry already cached becomes the most recently used. */
    method TouchEntry(k: Key)
      requires k in entries
      modifies this
      ensures Index() == Touch(old(Index()), k) && st == old(st)
    {
      clock := clock + 1;
      entries := entries[k := entries[k].(lastUsed := clock)];
    }

    /** A new entry, with the cache's own reference on its block. */
    method RegisterBlock(block: nat, k: Key, parent: Key, depth: nat)
      requires pool.Owns() && pool.Shows() && AllocOK(pool.w.alloc)
      requires block < |pool.w.alloc.refs| && pool.w.alloc.refs[block] > 0
      modifies this, pool, pool.alloc
      ensures pool.Owns() && pool.Shows() && pool.SameSeqs() && pool.w == Register(old(pool.w), block)
      ensures Index() == Prefix(old(entries)[k := Entry(block, parent, old(clock) + 1, depth)],
                                old(byBlock)[block := k], old(clock) + 1)
      ensures st == old(st)
    {
      var ok := pool.alloc.Incref(block);
      clock := clock + 1;
      entries := entries[k := Entry(block, parent, clock, depth)];
      byBlock := byBlock[block := k];
      pool.w := Register(pool.w, block);
    }

    method InsertKnown(k: Key, ghost depth: nat, ghost i: nat)
      requires Valid() && i < |pool.w.tables| && depth < |pool.w.tables[i].blocks| && k.Chain? && k in entries
      modifies this
      ensures Valid() && st == InsertAt(old(st), i, depth, k)
    {
      hide Inv, StoreOK, InsertAt, AllocOK;
      InsertAtIs(st, i, depth, k);
      TouchEntry(k);
      st := InsertAt(st, i, depth, k);
    }

    method InsertNew(block: nat, k: Key, parent: Key, depth: nat, ghost i: nat)
      requires Valid() && i < |pool.w.tables| && depth < |pool.w.tables[i].blocks|
               && block == pool.w.tables[i].blocks[depth]
      requires k.Chain? && parent == k.parent && depth + 1 == Depth(k) && k !in entries && block !in byBlock
      modifies this, pool, pool.alloc
      ensures Valid() && pool.SameSeqs() && st == InsertAt(old(st), i, depth, k)
    {
      hide Inv, StoreOK, InsertAt, Register, AllocOK;
      InsertAtIs(st, i, depth, k);
      RegisterBlock(block, k, parent, depth);
      st := InsertAt(st, i, depth, k);
    }

    /** One iteration of `insert`. */
    method InsertOne(block: nat, k: Key, parent: Key, depth: nat, ghost i: nat)
      requires Valid() && i < |pool.w.tables| && depth < |pool.w.tables[i].blocks|
               && block == pool.w.tables[i].blocks[depth]
      requires k.Chain? && parent == k.parent && depth + 1 == Depth(k)
      modifies this, pool, pool.alloc
      ensures Valid() && pool.SameSeqs() && st == InsertAt(old(st), i, depth, k)
    {
      hide Inv, StoreOK, InsertAt, AllocOK;
      if k in entries {
        InsertKnown(k, depth, i);
      } else if block in byBlock {
        InsertAtIs(st, i, depth, k);
      } else {
        InsertNew(block, k, parent, depth, i);
      }
    }

    method InsertDepth(toks: seq<Token>, keys: seq<Key>, block: nat, depth: nat, ghost i: nat)
      requires Valid() && i < |pool.w.tables| && depth < |pool.w.tables[i].blocks|
               && block == pool.w.tables[i].blocks[depth]
      requires pool.bs >= 1 && keys == HashChain(pool.bs, toks) && depth < |keys|
      modifies this, pool, pool.alloc
      ensures Valid() && pool.SameSeqs() && st == InsertAt(old(st), i, depth, keys[depth])
    {
      ChainStep(pool.bs, toks, depth);
      ChainSpan(pool.bs, toks, depth);
      hide Inv, StoreOK, InsertAt, HashChain;
      InsertOne(block, keys[depth], if depth == 0 then Root else keys[depth - 1], depth, i);
    }

    /** `insert`: the full blocks of sequence `i`, each under its chained key. */
    method Insert(toks: seq<Token>, cache: PagedKVCache<K>, ghost i: nat)
      requires Valid() && cache.pool == pool && cache.At(i)
      modifies this, pool, pool.alloc
      ensures Valid() && pool.SameSeqs()
      ensures st == InsertUpTo(old(st), i, HashChain(pool.bs, toks), |toks| / pool.bs)
      ensures Enters(old(st), i, HashChain(pool.bs, toks), st)
    {
      ghost var s := st;
      var keys := ChainOf(toks);
      InsertLoop(toks, keys, cache, i);
      EntersBy(s, i, toks, pool.bs);
    }

    method InsertLoop(toks: seq<Token>, keys: seq<Key>, cache: PagedKVCache<K>, ghost i: nat)
      requires Valid() && cache.pool == pool && cache.At(i) && pool.bs >= 1 && keys == HashChain(pool.bs, toks)
      modifies this, pool, pool.alloc
      ensures Valid() && pool.SameSeqs() && st == InsertUpTo(old(st), i, keys, |keys|)
    {
      ghost var s := st;
      hide StoreOK, Inv, HashChain, InsertAt;
      var d := 0;
      while d < |keys| && d < |cache.blocks|
        invariant 0 <= d <= |keys| && Valid() && pool.SameSeqs() && st == InsertUpTo(s, i, keys, d)
      {
        InsertDepth(toks, keys, cache.blocks[d], d, i);
        d := d + 1;
      }
      InsertOK(s, i, keys, d);
      InsertedEnough(s, i, keys, d);
    }

    /** The least recently used entry only the cache still holds. */
    method FindColdest() returns (k: Option<Key>)
      requires Valid()
      ensures k.Some? ==> Coldest(st, k.value)
      ensures k.None? ==> !AnyEvictable(st)
    {
      k := None;
      var todo := entries.Keys;
      ghost var s := st;
      while todo != {}
        invariant todo <= entries.Keys
        invariant ColdestOutside(s, k, todo)
        decreases |todo|
      {
        var x :| x in todo;
        ColdestNext(s, k, todo, x);
        todo := todo - {x};
        if pool.alloc.refs[entries[x].block] == 1 && (k.None? || entries[x].lastUsed < entries[k.value].lastUsed) {
          k := Some(x);
        }
      }
    }

    /** An entry and the cache's reference on its block go. */
    method Release(k: Key)
      requires pool.Owns() && pool.Shows() && AllocOK(pool.w.alloc) && k in entries
      requires entries[k].block < |pool.w.alloc.refs| && pool.w.alloc.refs[entries[k].block] > 0
      modifies this, pool, pool.alloc
      ensures pool.Owns() && pool.Shows() && pool.SameSeqs()
      ensures pool.w == Unregister(old(pool.w), old(entries[k].block)) && Index() == DropEntry(old(Index()), k)
      ensures st == old(st)
    {
      var e := entries[k];
      entries := entries - {k};
      byBlock := byBlock - {e.block};
      var ok, freed := pool.alloc.Decref(e.block);
      pool.w := Unregister(pool.w, e.block);
    }

    method DropOne(k: Key)
      requires Valid() && k in entries
      modifies this, pool, pool.alloc
      ensures Valid() && pool.SameSeqs() && st == Drop(old(st), k)
    {
      hide Inv, StoreOK, Drop, Unregister, AllocOK;
      DropIs(st, k);
      Release(k);
      st := Drop(st, k);
    }

    /** One more block evicted out of `n` still wanted, if any can go. */
    method EvictOne(ghost n: nat, ghost goal: Store<seq<K>>) returns (ok: bool)
      requires Valid() && n > 0 && EvictsTo(st, n, goal)
      modifies this, pool, pool.alloc
      ensures Valid() && pool.SameSeqs()
      ensures NumFree(pool.w) == NumFree(old(pool.w)) + if ok then 1 else 0
      ensures EvictsTo(st, if ok then n - 1 else n, goal) && (!ok ==> Stuck(st))
    {
      hide StoreOK, Inv, Drop, Coldest, Evictable, AnyEvictable, PrefixCaching.Evict;
      var k := FindColdest();
      ok := k.Some?;
      if ok {
        EvictNext(st, k.value, n);
        DropOne(k.value);
      }
    }

    /** `evict`: up to `n` evictable blocks, coldest first. */
    method Evict(n: nat) returns (freed: nat)
      requires Valid()
      modifies this, pool, pool.alloc
      ensures Valid() && pool.SameSeqs() && EvictsTo(old(st), n, st)
      ensures freed <= n && NumFree(pool.w) == NumFree(old(pool.w)) + freed
      ensures freed < n ==> Stuck(st)
    {
      ghost var goal := Evicts(st, n);
      hide StoreOK, Inv, EvictsTo, Stuck, Evicts;
      freed := EvictLoop(n, goal);
      EvictDone(st, n - freed, goal);
    }

    method EvictLoop(n: nat, ghost goal: Store<seq<K>>) returns (freed: nat)
      requires Valid() && EvictsTo(st, n, goal)
      modifies this, pool, pool.alloc
      ensures Valid() && pool.SameSeqs() && freed <= n && EvictsTo(st, n - freed, goal)
      ensures NumFree(pool.w) == NumFree(old(pool.w)) + freed
      ensures freed < n ==> Stuck(st)
    {
      hide StoreOK, Inv, EvictsTo, Stuck;
      freed := 0;
      var more := true;
      while more && freed < n
        invariant freed <= n && Valid() && pool.SameSeqs()
        invariant EvictsTo(st, n - freed, goal) && (!more ==> Stuck(st))
        invariant NumFree(pool.w) == NumFree(old(pool.w)) + freed
        decreases n - freed, more
      {
        more := EvictOne(n - freed, goal);
        if more { freed := freed + 1; }
      }
    }

    /** `ensure_free`. */
    method EnsureRoomFor(n: nat) returns (ok: bool)
      requires Valid()
      modifies this, pool, pool.alloc
      ensures Valid() && pool.SameSeqs() && FreesTo(old(st), n, ok, st)
    {
      ghost var s := st;
      hide StoreOK, Inv, EvictsTo, Stuck, FreesTo;
      var more := true;
      while more && pool.alloc.NumFree() < n
        invariant Valid() && pool.SameSeqs()
        invariant
          || (more && st == s)
          || (NumFree(s.w) < n && EvictsTo(s, n - NumFree(s.w), st) && (NumFree(st.w) < n ==> Stuck(st)))
        decreases n - pool.alloc.NumFree(), more
      {
        ghost var before := st;
        var freed := Evict(n - pool.alloc.NumFree());
        EvictStuck(before, n - NumFree(before.w), st);
        more := freed > 0;
      }
      ok := pool.alloc.NumFree() >= n;
      EnsuredFree(s, n, st);
    }

    /** `clear`. */
    method Clear()
      requires Valid()
      modifies this, pool, pool.alloc
      ensures Valid() && entries == map[] && byBlock == map[]
      ensures pool.SameSeqs() && pool.w.tables == old(pool.w.tables) && pool.w.slab == old(pool.w.slab)
    {
      hide Inv, Drop;
      while entries != map[]
        invariant Valid() && pool.SameSeqs()
        invariant pool.w.tables == old(pool.w.tables) && pool.w.slab == old(pool.w.slab)
        decreases |entries|
      {
        var k :| k in entries;
        DropOK(st, k);
        DropOne(k);
      }
      NoBlocks(Index());
    }
  }

  lemma MoreChain(bs: nat, toks: seq<Token>, n: nat)
    requires bs >= 1 && n * bs + bs <= |toks|
    ensures n < |toks| / bs && (n + 1) * bs == n * bs + bs
  {
    var d, o := DivMod(bs, |toks|);
    assert (d + 1) * bs == d * bs + bs && (n + 1) * bs == n * bs + bs;
    MulLess(n + 1, d + 1, bs);
  }

  lemma NoMoreChain(bs: nat, toks: seq<Token>, n: nat)
    requires bs >= 1 && n * bs + bs > |toks| && n <= |toks| / bs
    ensures n == |toks| / bs
  {
    var d, o := DivMod(bs, |toks|);
    assert (n + 1) * bs == n * bs + bs;
    MulLess(d, n + 1, bs);
  }

  /** `keys` are the leading cached keys of the chain of `toks`. */
  ghost predicate HitsAre<E>(s: Store<E>, toks: seq<Token>, keys: seq<Key>)
  {
    s.w.bs >= 1 && var chain := HashChain(s.w.bs, toks); keys == chain[..Hits(s.pc, chain, 0)]
  }

  lemma MatchReady<E>(s: Store<E>, toks: seq<Token>, keys: seq<Key>)
    requires StoreOK(s) && keys == HashChain(s.w.bs, toks)[..Hits(s.pc, HashChain(s.w.bs, toks), 0)]
    ensures AllocOK(s.w.alloc) && PrefixOK(s.pc) && HitsAre(s, toks, keys)
    ensures DistinctKeys(keys) && (forall x :: 0 <= x < |keys| ==> keys[x] in s.pc.entries)
    ensures Live(s.w.alloc, BlocksOf(s.pc, keys)) && Distinct(BlocksOf(s.pc, keys))
  {
    ChainUsable(s.w.bs, toks, |keys|);
    BlocksDistinct(s, keys);
  }

  /** `r` is `s` after table `i` took over the blocks of `keys`. */
  ghost predicate Reused<E>(s: Store<E>, i: nat, keys: seq<Key>, r: Store<E>)
  {
    && StoreOK(s) && i < |s.w.tables| && DistinctKeys(keys) && (forall x :: 0 <= x < |keys| ==> keys[x] in s.pc.entries)
    && r == PrefixCaching.Reuse(s, i, keys)
  }

  lemma ReusedRefreshes<E>(s: Store<E>, i: nat, keys: seq<Key>, r: Store<E>)
    requires Reused(s, i, keys, r)
    ensures Recency.Refreshed(s.pc, r.pc, keys)
  {
    hide StoreOK, Recency.Refreshed, DistinctKeys, PrefixCaching.Reuse;
    Recency.ReuseRefreshes(s, i, keys);
  }

  /** The keys of `i`'s blocks are entered or refreshed, in chain order, and the rest is as it was. */
  ghost predicate Enters<E>(s: Store<E>, i: nat, keys: seq<Key>, r: Store<E>)
  {
    && i < |s.w.tables|
    && var n := if |s.w.tables[i].blocks| < |keys| then |s.w.tables[i].blocks| else |keys|;
       Recency.Inserted(s.pc, r.pc, s.w.tables[i].blocks, keys[..n])
  }

  lemma EntersBy<E>(s: Store<E>, i: nat, toks: seq<Token>, bs: nat)
    requires StoreOK(s) && i < |s.w.tables| && bs >= 1
    ensures Enters(s, i, HashChain(bs, toks), InsertUpTo(s, i, HashChain(bs, toks), |toks| / bs))
  {
    var keys := HashChain(bs, toks);
    ChainUsable(bs, toks, |keys|);
    assert keys[..|keys|] == keys;
    hide HashChain, StoreOK, Recency.Inserted, DistinctKeys, InsertUpTo;
    forall d | 0 <= d < |keys| ensures keys[d].Chain? { ChainSpan(bs, toks, d); }
    Recency.InsertRefreshes(s, i, keys, |keys|);
  }

  /** How many tokens so many whole blocks cover. */
  ghost function Covered(keys: seq<Key>, bs: nat): nat
  {
    |keys| * bs
  }

  ghost predicate Attached(bs: nat, blocks: seq<nat>, t: Table)
  {
    t == Table(blocks, |blocks| * bs, AllSlots(bs, blocks))
  }

  lemma ReusedBy<E>(
    s: Store<E>, i: nat, toks: seq<Token>, keys: seq<Key>, blocks: seq<nat>, pc: Prefix, a: Alloc, t: Table)
    requires StoreOK(s) && i < |s.w.tables| && s.w.tables[i] == EmptyTable
    requires HitsAre(s, toks, keys) && Matched(s, keys, |keys|, blocks, pc, a) && Attached(s.w.bs, blocks, t)
    ensures var r := Store(s.w.(alloc := a, tables := s.w.tables[i := t]), pc);
      Reused(s, i, keys, r) && StoreOK(r) && Inv(r.w) && t.len == Covered(keys, s.w.bs)
  {
    MatchReady(s, toks, keys);
    MatchedAll(s, keys, blocks, pc, a);
    ReuseIs(s, i, keys);
  }

  /** `match` after its first `d` hits. */
  ghost predicate Matched<E>(s: Store<E>, keys: seq<Key>, d: nat, blocks: seq<nat>, pc: Prefix, a: Alloc)
  {
    && d <= |keys| && (forall x :: 0 <= x < |keys| ==> keys[x] in s.pc.entries)
    && PrefixOK(s.pc) && AllocOK(s.w.alloc) && AllocOK(a)
    && blocks == BlocksOf(s.pc, keys[..d]) && pc == TouchAll(s.pc, keys[..d])
    && Distinct(blocks) && Live(s.w.alloc, blocks) && a == IncAll(s.w.alloc, blocks)
  }

  lemma MatchedNone<E>(s: Store<E>, keys: seq<Key>)
    requires PrefixOK(s.pc) && AllocOK(s.w.alloc) && forall x :: 0 <= x < |keys| ==> keys[x] in s.pc.entries
    ensures Matched(s, keys, 0, [], s.pc, s.w.alloc)
  {
    assert keys[..0] == [];
  }

  lemma MatchedMore<E>(s: Store<E>, keys: seq<Key>, d: nat, blocks: seq<nat>, pc: Prefix, a: Alloc)
    requires Matched(s, keys, d, blocks, pc, a) && d < |keys|
    requires Distinct(BlocksOf(s.pc, keys)) && Live(s.w.alloc, BlocksOf(s.pc, keys))
    ensures keys[d] in pc.entries && AllocOK(a)
    ensures var b := pc.entries[keys[d]].block;
      && b < |a.refs| && a.refs[b] > 0 && Matched(s, keys, d + 1, blocks + [b], Touch(pc, keys[d]), Inc(a, b))
  {
    hide *;
    var k := keys[d];
    MatchedParts(s, keys, d, blocks, pc, a);
    TouchStep(s.pc, keys[..d], k);
    assert keys[..d] + [k] == keys[..d + 1];
    BlocksStep(s.pc, keys, d);
    var b := s.pc.entries[k].block;
    LiveAt(s.w.alloc, BlocksOf(s.pc, keys), b);
    IncStep(s.w.alloc, blocks, b);
    MatchedIntro(s, keys, d + 1, blocks + [b], Touch(pc, k), Inc(a, b));
  }

  lemma LiveAt(a: Alloc, bs: seq<nat>, b: nat)
    requires Live(a, bs) && b in bs
    ensures b < |a.refs| && a.refs[b] > 0
  {
  }

  lemma MatchedParts<E>(s: Store<E>, keys: seq<Key>, d: nat, blocks: seq<nat>, pc: Prefix, a: Alloc)
    requires Matched(s, keys, d, blocks, pc, a)
    ensures d <= |keys| && (forall x :: 0 <= x < |keys| ==> keys[x] in s.pc.entries)
    ensures PrefixOK(s.pc) && AllocOK(s.w.alloc) && AllocOK(a)
    ensures blocks == BlocksOf(s.pc, keys[..d]) && pc == TouchAll(s.pc, keys[..d])
    ensures Distinct(blocks) && Live(s.w.alloc, blocks) && a == IncAll(s.w.alloc, blocks)
  {
  }

  lemma MatchedIntro<E>(s: Store<E>, keys: seq<Key>, d: nat, blocks: seq<nat>, pc: Prefix, a: Alloc)
    requires d <= |keys| && (forall x :: 0 <= x < |keys| ==> keys[x] in s.pc.entries)
    requires PrefixOK(s.pc) && AllocOK(s.w.alloc) && AllocOK(a)
    requires blocks == BlocksOf(s.pc, keys[..d]) && pc == TouchAll(s.pc, keys[..d])
    requires Distinct(blocks) && Live(s.w.alloc, blocks) && a == IncAll(s.w.alloc, blocks)
    ensures Matched(s, keys, d, blocks, pc, a)
  {
  }

  lemma TouchStep(pc: Prefix, keys: seq<Key>, k: Key)
    requires PrefixOK(pc) && (forall x :: 0 <= x < |keys| ==> keys[x] in pc.entries) && k in pc.entries
    ensures var p := TouchAll(pc, keys);
      && k in p.entries && p.entries[k].block == pc.entries[k].block && TouchAll(pc, keys + [k]) == Touch(p, k)
  {
    assert (keys + [k])[..|keys|] == keys;
  }

  lemma BlocksStep(pc: Prefix, keys: seq<Key>, d: nat)
    requires d < |keys| && (forall x :: 0 <= x < |keys| ==> keys[x] in pc.entries)
    requires Distinct(BlocksOf(pc, keys))
    ensures BlocksOf(pc, keys[..d + 1]) == BlocksOf(pc, keys[..d]) + [pc.entries[keys[d]].block]
    ensures Distinct(BlocksOf(pc, keys[..d + 1]))
    ensures pc.entries[keys[d]].block in BlocksOf(pc, keys) && pc.entries[keys[d]].block !in BlocksOf(pc, keys[..d])
  {
    var all := BlocksOf(pc, keys);
    assert all[d] == pc.entries[keys[d]].block;
    assert BlocksOf(pc, keys[..d + 1]) == all[..d + 1] && BlocksOf(pc, keys[..d]) == all[..d];
  }

  lemma IncStep(a: Alloc, blocks: seq<nat>, b: nat)
    requires AllocOK(a) && Distinct(blocks + [b]) && Distinct(blocks) && Live(a, blocks) && b < |a.refs|
             && a.refs[b] > 0
    ensures Live(a, blocks + [b]) && IncAll(a, blocks + [b]) == Inc(IncAll(a, blocks), b)
    ensures AllocOK(IncAll(a, blocks)) && b < |IncAll(a, blocks).refs| && IncAll(a, blocks).refs[b] > 0
    ensures AllocOK(Inc(IncAll(a, blocks), b))
  {
    assert (blocks + [b])[..|blocks|] == blocks;
  }

  lemma MatchedAll<E>(s: Store<E>, keys: seq<Key>, blocks: seq<nat>, pc: Prefix, a: Alloc)
    requires Matched(s, keys, |keys|, blocks, pc, a)
    ensures (forall x :: 0 <= x < |keys| ==> keys[x] in s.pc.entries) && PrefixOK(s.pc)
    ensures blocks == BlocksOf(s.pc, keys) && pc == TouchAll(s.pc, keys)
    ensures AllocOK(s.w.alloc) && AllocOK(a) && Distinct(blocks) && Live(s.w.alloc, blocks)
            && a == IncAll(s.w.alloc, blocks)
  {
    assert keys[..|keys|] == keys;
  }

  lemma InsertAtIs<E>(s: Store<E>, i: nat, d: nat, k: Key)
    requires StoreOK(s) && i < |s.w.tables| && d < |s.w.tables[i].blocks| && k.Chain?
    ensures StoreOK(InsertAt(s, i, d, k)) && Inv(InsertAt(s, i, d, k).w) && AllocOK(s.w.alloc)
    ensures var b := s.w.tables[i].blocks[d];
      && b < |s.w.alloc.refs| && s.w.alloc.refs[b] > 0
      && InsertAt(s, i, d, k) ==
           if k in s.pc.entries then s.(pc := Touch(s.pc, k))
           else if b in s.pc.byBlock then s
           else Store(Register(s.w, b),
                      Prefix(s.pc.entries[k := Entry(b, k.parent, s.pc.clock + 1, Depth(k) - 1)],
                             s.pc.byBlock[b := k], s.pc.clock + 1))
  {
    hide Inv, PrefixOK, AllocOK;
    StoreAlloc(s);
    TableLive(s.w, i);
    InsertAtOK(s, i, d, k);
    StoreAlloc(InsertAt(s, i, d, k));
  }

  lemma StoreAlloc<E>(s: Store<E>)
    requires StoreOK(s)
    ensures Inv(s.w) && AllocOK(s.w.alloc)
  {
  }

  lemma {:induction false} InsertedEnough<E>(s: Store<E>, i: nat, keys: seq<Key>, d: nat)
    requires StoreOK(s) && i < |s.w.tables| && d <= |keys| && (d == |keys| || d >= |s.w.tables[i].blocks|)
    ensures InsertUpTo(s, i, keys, |keys|) == InsertUpTo(s, i, keys, d)
    decreases |keys| - d
  {
    hide StoreOK;
    if d < |keys| {
      InsertedEnough(s, i, keys, d + 1);
      InsertOK(s, i, keys, d);
    }
  }

  /** Among the entries already looked at, `k` is the coldest evictable one, if there is any. */
  ghost predicate ColdestOutside<E>(s: Store<E>, k: Option<Key>, todo: set<Key>)
    requires StoreOK(s)
  {
    && (k.Some? ==> Evictable(s, k.value))
    && (forall x :: Evictable(s, x) && x !in todo ==>
          k.Some? && s.pc.entries[k.value].lastUsed <= s.pc.entries[x].lastUsed)
  }

  /** Looking at one more entry. */
  lemma ColdestNext<E>(s: Store<E>, k: Option<Key>, todo: set<Key>, x: Key)
    requires StoreOK(s) && ColdestOutside(s, k, todo) && x in s.pc.entries && todo <= s.pc.entries.Keys
    ensures s.pc.entries[x].block < |s.w.alloc.refs|
    ensures k.Some? ==> k.value in s.pc.entries
    ensures var better := s.w.alloc.refs[s.pc.entries[x].block] == 1
                          && (k.None? || s.pc.entries[x].lastUsed < s.pc.entries[k.value].lastUsed);
            ColdestOutside(s, if better then Some(x) else k, todo - {x})
  {
    assert EntryOK(s.pc, x);
  }

  ghost function Evicts<E>(s: Store<E>, n: nat): (r: Store<E>)
    requires StoreOK(s)
    ensures EvictsTo(s, n, r)
  {
    PrefixCaching.Evict(s, n)
  }

  /** Evicting up to `n` blocks from `s` gives `goal`. */
  ghost predicate EvictsTo<E>(s: Store<E>, n: nat, goal: Store<E>)
  {
    StoreOK(s) && PrefixCaching.Evict(s, n) == goal
  }

  /** `ensure_free(n)` on `s` answers `ok` and leaves `r`. */
  ghost predicate FreesTo<E>(s: Store<E>, n: nat, ok: bool, r: Store<E>)
  {
    StoreOK(s) && EnsureFree(s, n) == Freed(ok, r)
  }

  /** Nothing can be evicted. */
  ghost predicate Stuck<E>(s: Store<E>)
  {
    StoreOK(s) && !AnyEvictable(s)
  }

  lemma EvictDone<E>(s: Store<E>, n: nat, goal: Store<E>)
    requires EvictsTo(s, n, goal) && (n == 0 || Stuck(s))
    ensures s == goal
  {
  }

  lemma EvictStuck<E>(s: Store<E>, n: nat, goal: Store<E>)
    requires EvictsTo(s, n, goal)
    ensures Stuck(s) ==> goal == s
  {
  }

  lemma EnsuredFree<E>(s: Store<E>, n: nat, r: Store<E>)
    requires StoreOK(s)
    requires (r == s && NumFree(s.w) >= n) || (NumFree(s.w) < n && EvictsTo(s, n - NumFree(s.w), r))
    ensures FreesTo(s, n, NumFree(r.w) >= n, r)
  {
  }

  /** Ticks are unique, so the coldest entry is the one eviction drops. */
  lemma EvictNext<E>(s: Store<E>, k: Key, n: nat)
    requires StoreOK(s) && Coldest(s, k) && n > 0
    ensures k in s.pc.entries && StoreOK(Drop(s, k))
            && PrefixCaching.Evict(s, n) == PrefixCaching.Evict(Drop(s, k), n - 1)
    ensures NumFree(Drop(s, k).w) == NumFree(s.w) + 1
  {
    ColdestIn(s, k);
    assert AnyEvictable(s);
    ColdestIn(s, ColdestKey(s));
    hide StoreOK, Evictable, Coldest, Drop;
    assert k == ColdestKey(s);
    DropOK(s, k);
  }

  lemma NoBlocks(pc: Prefix)
    requires PrefixOK(pc) && pc.entries == map[]
    ensures pc.byBlock == map[]
  {
  }

  lemma DropIs<E>(s: Store<E>, k: Key)
    requires StoreOK(s) && k in s.pc.entries
    ensures AllocOK(s.w.alloc)
    ensures var b := s.pc.entries[k].block;
      && b < |s.w.alloc.refs| && s.w.alloc.refs[b] > 0
      && Drop(s, k) == Store(Unregister(s.w, b), DropEntry(s.pc, k))
    ensures StoreOK(Drop(s, k)) && Inv(Drop(s, k).w)
  {
    assert EntryOK(s.pc, k);
    UnregisterInv(s.w, s.pc.entries[k].block);
    DropOK(s, k);
  }

  lemma ReuseIs<E>(s: Store<E>, i: nat, keys: seq<Key>)
    requires StoreOK(s) && i < |s.w.tables| && s.w.tables[i] == EmptyTable && DistinctKeys(keys)
    requires forall x :: 0 <= x < |keys| ==> keys[x] in s.pc.entries
    ensures var r, bs := PrefixCaching.Reuse(s, i, keys), BlocksOf(s.pc, keys);
      && StoreOK(r) && Inv(r.w) && AllocOK(s.w.alloc) && Distinct(bs) && Live(s.w.alloc, bs) && PrefixOK(s.pc)
      && r == Store(s.w.(alloc := IncAll(s.w.alloc, bs),
                         tables := s.w.tables[i := Table(bs, |bs| * s.w.bs, AllSlots(s.w.bs, bs))]),
                    TouchAll(s.pc, keys))
  {
    BlocksDistinct(s, keys);
    ReuseOK(s, i, keys);
  }
}
