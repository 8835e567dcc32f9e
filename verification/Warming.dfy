/**
  What a prompt leaves in the prefix cache (engine/scheduler.py `_prefill`): with the cache on,
  every full block of it, so that the same prompt again computes only its last block.
 */
module Warming {
  import opened Arith
  import opened Allocator
  import opened Paging
  import opened Transformer
  import opened PrefixCaching
  import opened Content
  import opened Requests
  import opened Prefilling
  import opened Recency

  lemma PrivateUncached<E>(w: World<E>, i: nat, b: nat)
    requires Inv(w) && i < |w.tables| && b in w.tables[i].blocks && Private(w, b)
    ensures b !in w.cached
  {
    HoldersPositive(w.tables, i, b);
    assert w.alloc.refs[b] == Owed(w, b);
  }

  lemma ChainPrefix(bs: nat, a: seq<Token>, b: seq<Token>, d: nat)
    requires bs >= 1 && a <= b && d < |a| / bs
    ensures d < |b| / bs && HashChain(bs, a)[d] == HashChain(bs, b)[d]
  {
    ChainFits(bs, |a|, d);
    FitsBelow(bs, |b|, d);
    ChainFits(bs, |b|, d);
    assert a[..(d + 1) * bs] == b[..(d + 1) * bs];
  }

  lemma FitsBelow(bs: nat, n: nat, d: nat)
    requires bs >= 1 && (d + 1) * bs <= n
    ensures d < n / bs
  {
    if n / bs <= d {
      MulMono(n / bs + 1, d + 1, bs);
    }
  }

  /** After the pass over a prompt: the blocks it did not find in the cache are its own and not cached. */
  lemma ComputedFresh<K, H>(c: Config<K, H>, s: Store<seq<K>>, ids: seq<Token>, d: nat)
    requires PoolRight(c.m, s) && StoreOK(s) && ids != [] && s.w.bs >= 1 && CeilDiv(|ids|, s.w.bs) <= NumFree(s.w)
    requires |HitKeys(c, s, ids)| <= d < |ids| / s.w.bs
    ensures var p := Computed(c, s, ids);
            && |s.w.tables| < |p.s.w.tables| && d < |p.s.w.tables[|s.w.tables|].blocks|
            && p.s.w.tables[|s.w.tables|].blocks[d] !in p.s.w.cached
  {
    hide *;
    var m, i, bs := c.m, |s.w.tables|, s.w.bs;
    PoolStore(m, s);
    SeededExtends(c, s, ids);
    SeededOK(c, s, ids);
    SeededRight(c, s, ids);
    SeededCost(c, s, ids);
    var s1, n := Seeded(c, s, ids), |HitKeys(c, s, ids)| * bs;
    ExtendsShape(m, s, s1);
    ReserveStart(m, s1, i, n, ids);
    var o := Reserve(s1.w, i, |ids| - n);
    ReservedShape(s1.w, o.w, i, |ids| - n);
    var y := PrefillPass(m, o.w, i, n, ids);
    ComputedUnfold(c, s, ids, n, o, y);
    MulMono(|HitKeys(c, s, ids)|, d, bs);
    ChainFits(bs, |ids|, d);
    ReservedOwn(s1.w, o.w, i, |ids| - n, d);
  }

  lemma ReservedOwn<E>(w: World<E>, r: World<E>, i: nat, n: nat, d: nat)
    requires i < |w.tables| && Reserved(w, r, i, n) && w.bs >= 1
    requires w.tables[i].len <= d * w.bs && d * w.bs + w.bs <= w.tables[i].len + n
    ensures i < |r.tables| && d < |r.tables[i].blocks| && r.tables[i].blocks[d] !in r.cached
  {
    SlotDivMod(w.bs, d, 0);
    assert PrivateAt(r, i, d * w.bs);
    PrivateUncached(r, i, r.tables[i].blocks[d]);
  }

  /** The keys that hit are still cached after the pass. */
  lemma ComputedHits<K, H>(c: Config<K, H>, s: Store<seq<K>>, ids: seq<Token>, d: nat)
    requires PoolRight(c.m, s) && StoreOK(s) && ids != [] && s.w.bs >= 1 && CeilDiv(|ids|, s.w.bs) <= NumFree(s.w)
    requires d < |HitKeys(c, s, ids)| && d < |ids| / s.w.bs
    ensures HashChain(s.w.bs, ids)[d] in Computed(c, s, ids).s.pc.entries
  {
    HitsUsable(c, s, ids);
    ChainPrefix(s.w.bs, ids[..|ids| - 1], ids, d);
    ComputedIndex(c, s, ids);
    hide *;
    assert HitKeys(c, s, ids)[d] in s.pc.entries;
  }

  lemma ComputedIndex<K, H>(c: Config<K, H>, s: Store<seq<K>>, ids: seq<Token>)
    requires StoreOK(s) && ids != []
    ensures Computed(c, s, ids).s.pc.entries.Keys == s.pc.entries.Keys
  {
    SeededOK(c, s, ids);
    hide StoreOK, Inv, HitKeys, Seeded, Reserve, PrefillPass;
  }

  /**
    With the prefix cache on, a prompt that ran has every one of its full blocks cached, whatever
    part of it was cached before.
   */
  lemma PrefillCaches<K, H>(c: Config<K, H>, s: Store<seq<K>>, ids: seq<Token>, d: nat)
    requires PoolRight(c.m, s) && ids != [] && s.w.bs >= 1 && CeilDiv(|ids|, s.w.bs) <= NumFree(s.w)
    requires c.prefixOn && d < |ids| / s.w.bs
    ensures HashChain(s.w.bs, ids)[d] in Prefill(c, s, ids).s.pc.entries
  {
    hide *;
    var i, bs := |s.w.tables|, s.w.bs;
    PoolStore(c.m, s);
    PrefillCore(c, s, ids);
    PrefillUnfold(c, s, ids);
    var p, keys := Computed(c, s, ids).s, HashChain(bs, ids);
    ExtendsShape(c.m, s, p);
    PoolStore(c.m, p);
    TableCovers(c.m, p.w, i, ids);
    ChainsAreChains(bs, ids);
    InsertRefreshes(p, i, keys, |ids| / bs);
    LooksAtAll(p, i, |ids| / bs);
    InsertedKeeps(p.pc, InsertUpTo(p, i, keys, |ids| / bs).pc, p.w.tables[i].blocks, keys, |ids| / bs, d);
    if d < |HitKeys(c, s, ids)| {
      ComputedHits(c, s, ids, d);
    } else {
      ComputedFresh(c, s, ids, d);
      CachedIndex(p, p.w.tables[i].blocks[d]);
    }
  }

  lemma CachedIndex<E>(s: Store<E>, b: nat)
    requires StoreOK(s)
    ensures b in s.w.cached <==> b in s.pc.byBlock
  {
  }

  lemma LooksAtAll<E>(s: Store<E>, i: nat, n: nat)
    requires i < |s.w.tables| && n <= |s.w.tables[i].blocks|
    ensures Looked(s, i, n) == n
  {
  }

  lemma InsertedKeeps(pc: Prefix, r: Prefix, blocks: seq<nat>, keys: seq<Key>, n: nat, d: nat)
    requires n <= |keys| && n <= |blocks| && Inserted(pc, r, blocks, keys[..n]) && d < n
    ensures keys[d] in pc.entries || blocks[d] !in pc.byBlock ==> keys[d] in r.entries
  {
    hide Cached;
    assert keys[..n][d] == keys[d];
  }

  lemma TableCovers<K, H>(m: Model<K, H>, w: World<seq<K>>, i: nat, ids: seq<Token>)
    requires Inv(w) && i < |w.tables| && TableRight(m, w, i, ids)
    ensures w.bs >= 1 && |ids| / w.bs <= |w.tables[i].blocks|
  {
    assert TableOK(w.bs, |w.alloc.refs|, w.tables[i]);
    if |ids| / w.bs > |w.tables[i].blocks| {
      MulMono(|w.tables[i].blocks| + 1, |ids| / w.bs, w.bs);
    }
  }

  /** The same prompt again finds all of it in the cache but its last, unfinished or final, block. */
  lemma SecondHit<K, H>(c: Config<K, H>, s: Store<seq<K>>, ids: seq<Token>)
    requires PoolRight(c.m, s) && ids != [] && s.w.bs >= 1 && CeilDiv(|ids|, s.w.bs) <= NumFree(s.w) && c.prefixOn
    ensures var r := Prefill(c, s, ids).s;
            r.w.bs == s.w.bs && |HitKeys(c, r, ids)| == (|ids| - 1) / s.w.bs
  {
    hide *;
    PoolStore(c.m, s);
    PrefillFacts(c, s, ids);
    var r, bs, head := Prefill(c, s, ids).s, s.w.bs, ids[..|ids| - 1];
    var keys := HashChain(bs, head);
    ExtendsShape(c.m, s, r);
    forall d | 0 <= d < |keys| ensures keys[d] in r.pc.entries {
      ChainPrefix(bs, head, ids, d);
      PrefillCaches(c, s, ids, d);
    }
    AllHit(c, r, ids, keys);
  }

  lemma AllHit<K, H>(c: Config<K, H>, s: Store<seq<K>>, ids: seq<Token>, keys: seq<Key>)
    requires c.prefixOn && s.w.bs >= 1 && ids != [] && keys == HashChain(s.w.bs, ids[..|ids| - 1])
    requires forall d :: 0 <= d < |keys| ==> keys[d] in s.pc.entries
    ensures |HitKeys(c, s, ids)| == (|ids| - 1) / s.w.bs
  {
    hide HashChain;
  }
}
