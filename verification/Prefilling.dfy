/**
  Admitting a prompt (engine/scheduler.py, `_prefill`): open a table, seed it with whatever
  prefix is cached, run the rest through the model and register the full blocks.
 */
module Prefilling {
  import opened Arith
  import opened Paging
  import opened Batch
  import opened Transformer
  import opened PrefixCaching
  import opened Content
  import opened Requests

  /** Everything that must be true of the pool between two operations of the engine. */
  ghost predicate PoolRight<K, H>(m: Model<K, H>, s: Store<seq<K>>)
  {
    StoreOK(s) && AllTight(s.w) && SlabOK(m.layers, s.w.slab) && CacheRight(m, s)
  }

  /** Whatever table `x` was right for, it still is. */
  ghost predicate Carries<K, H>(m: Model<K, H>, w: World<seq<K>>, w': World<seq<K>>, x: nat)
  {
    forall toks :: TableRight(m, w, x, toks) ==> TableRight(m, w', x, toks)
  }

  /** `r` is `s` with one more table, at the end, and nothing any older table reads disturbed. */
  ghost predicate Extends<K, H>(m: Model<K, H>, s: Store<seq<K>>, r: Store<seq<K>>)
  {
    && PoolRight(m, r) && r.w.bs == s.w.bs && |r.w.alloc.refs| == |s.w.alloc.refs|
    && |r.w.tables| == |s.w.tables| + 1 && r.w.tables[..|s.w.tables|] == s.w.tables
    && (forall x :: 0 <= x < |s.w.tables| ==> Carries(m, s.w, r.w, x))
  }

  datatype Prefilled<K> = Prefilled(ok: bool, s: Store<seq<K>>, token: Token)

  ghost function Opened<E>(s: Store<E>): Store<E>
  {
    s.(w := Open(s.w))
  }

  /** The chained keys `match` is asked about; the last prompt token is never served from cache. */
  ghost function AskedKeys<K, H>(c: Config<K, H>, bs: nat, ids: seq<Token>): seq<Key>
    requires bs >= 1 && ids != []
  {
    if c.prefixOn then HashChain(bs, ids[..|ids| - 1]) else []
  }

  ghost function HitKeys<K, H>(c: Config<K, H>, s: Store<seq<K>>, ids: seq<Token>): (r: seq<Key>)
    requires s.w.bs >= 1 && ids != []
    ensures forall x :: 0 <= x < |r| ==> r[x] in s.pc.entries
  {
    var keys := AskedKeys(c, s.w.bs, ids);
    keys[..Hits(s.pc, keys, 0)]
  }

  /** The hits are a prefix of the asked chain and cover at most all but the last token. */
  lemma HitsUsable<K, H>(c: Config<K, H>, s: Store<seq<K>>, ids: seq<Token>)
    requires s.w.bs >= 1 && ids != []
    ensures var r := HitKeys(c, s, ids);
      && DistinctKeys(r) && |r| * s.w.bs <= |ids| - 1 && |r| <= |ids[..|ids| - 1]| / s.w.bs
      && r == HashChain(s.w.bs, ids[..|ids| - 1])[..|r|]
  {
    var r, bs := HitKeys(c, s, ids), s.w.bs;
    ChainUsable(bs, ids[..|ids| - 1], |r|);
  }

  /** `match` and `attach` on a freshly opened table. */
  ghost function Seeded<K, H>(c: Config<K, H>, s: Store<seq<K>>, ids: seq<Token>): Store<seq<K>>
    requires StoreOK(s) && ids != []
  {
    OpenedOK(s);
    HitsUsable(c, s, ids);
    Reuse(Opened(s), |s.w.tables|, HitKeys(c, s, ids))
  }

  lemma OpenedOK<E>(s: Store<E>)
    requires StoreOK(s)
    ensures StoreOK(Opened(s))
  {
    OpenInv(s.w);
  }

  /** Reserve room for `ids[n..]` on table `i` and run it through the model. Not ok is `OutOfBlocks`. */
  ghost function RunSuffix<K, H>(c: Config<K, H>, s: Store<seq<K>>, i: nat, n: nat, ids: seq<Token>): Prefilled<K>
    requires Inv(s.w) && i < |s.w.tables| && n <= |ids|
  {
    var r := Reserve(s.w, i, |ids| - n);
    if !r.ok then Prefilled(false, s.(w := r.w), 0) else
      ReserveTables(s.w, i, |ids| - n);
      var y := PrefillPass(c.m, r.w, i, n, ids);
      Prefilled(true, s.(w := r.w.(slab := y.slab)), if y.hs == [] then 0 else c.m.head(y.hs[|y.hs| - 1]))
  }

  /** `_prefill` up to the end of the forward pass. */
  ghost function Computed<K, H>(c: Config<K, H>, s: Store<seq<K>>, ids: seq<Token>): Prefilled<K>
    requires StoreOK(s) && ids != []
  {
    SeededOK(c, s, ids);
    RunSuffix(c, Seeded(c, s, ids), |s.w.tables|, |HitKeys(c, s, ids)| * s.w.bs, ids)
  }

  /** `_prefill`: run the prompt, then register its full blocks. */
  ghost function Prefill<K, H>(c: Config<K, H>, s: Store<seq<K>>, ids: seq<Token>): Prefilled<K>
    requires StoreOK(s) && ids != []
  {
    var p := Computed(c, s, ids);
    StoreInv(s);
    if p.ok && c.prefixOn
    then p.(s := InsertUpTo(p.s, |s.w.tables|, HashChain(s.w.bs, ids), |ids| / s.w.bs))
    else p
  }

  lemma ReserveTables<E>(w: World<E>, i: nat, n: nat)
    requires Inv(w) && i < |w.tables|
    ensures |Reserve(w, i, n).w.tables| == |w.tables|
  {
    UnshareFacts(w, i);
  }

  lemma SeededOK<K, H>(c: Config<K, H>, s: Store<seq<K>>, ids: seq<Token>)
    requires StoreOK(s) && ids != []
    ensures var r := Seeded(c, s, ids);
      && StoreOK(r) && Inv(r.w) && SameIndex(s.pc, r.pc) && r.w.cached == s.w.cached
      && r.w.bs == s.w.bs && r.w.slab == s.w.slab && NumFree(r.w) == NumFree(s.w)
      && |r.w.alloc.refs| == |s.w.alloc.refs|
      && |r.w.tables| == |s.w.tables| + 1 && r.w.tables[..|s.w.tables|] == s.w.tables
      && r.w.tables[|s.w.tables|].len == |HitKeys(c, s, ids)| * s.w.bs <= |ids| - 1
      && |r.w.tables[|s.w.tables|].blocks| == |HitKeys(c, s, ids)|
      && (!c.prefixOn ==> r.pc == s.pc)
  {
    OpenedOK(s);
    HitsUsable(c, s, ids);
    assert !c.prefixOn ==> HitKeys(c, s, ids) == [];
    assert !c.prefixOn ==> Seeded(c, s, ids).pc == s.pc;
    hide HitKeys, StoreOK, DistinctKeys, Reuse;
    ReuseOK(Opened(s), |s.w.tables|, HitKeys(c, s, ids));
    StoreInv(Seeded(c, s, ids));
  }

  // -- the stages, one by one -----------------------------------------------------

  lemma SameSlabCarries<K, H>(m: Model<K, H>, w: World<seq<K>>, w': World<seq<K>>, x: nat)
    requires x < |w.tables| && x < |w'.tables| && w'.tables[x] == w.tables[x] && w'.slab == w.slab
    ensures Carries(m, w, w', x)
  {
    forall toks | TableRight(m, w, x, toks) ensures TableRight(m, w', x, toks) {
      forall j | 0 <= j < |toks| ensures EntryRight(m, w', x, toks, j) {
        assert EntryRight(m, w, x, toks, j);
      }
    }
  }

  lemma SameIndexRight<K, H>(m: Model<K, H>, s: Store<seq<K>>, r: Store<seq<K>>)
    requires CacheRight(m, s) && SameIndex(s.pc, r.pc) && r.w.bs == s.w.bs && r.w.slab == s.w.slab
    ensures CacheRight(m, r)
  {
    hide BlockRight;
    forall k | k in r.pc.entries ensures BlockRight(m, r.w.bs, r.w.slab, r.pc.entries[k].block, Span(k)) {
      assert k in s.pc.entries;
    }
  }

  /** A seeded table needs exactly its cached blocks. */
  lemma SeededTight<K, H>(c: Config<K, H>, s: Store<seq<K>>, ids: seq<Token>)
    requires StoreOK(s) && AllTight(s.w) && ids != []
    ensures AllTight(Seeded(c, s, ids).w)
  {
    hide Seeded, HitKeys, StoreOK, Inv;
    SeededOK(c, s, ids);
    StoreInv(s);
    var n, bs := |HitKeys(c, s, ids)|, s.w.bs;
    assert n > 0 ==> (n - 1) * bs == n * bs - bs;
    CeilUnique(n * bs, bs, n);
    var w' := Seeded(c, s, ids).w;
    forall x | 0 <= x < |w'.tables| ensures Tight(bs, w'.tables[x]) {
      assert x < |s.w.tables| ==> w'.tables[x] == w'.tables[..|s.w.tables|][x];
    }
  }

  /** After seeding, the new table is right for the cached part of the prompt. */
  lemma SeededRight<K, H>(c: Config<K, H>, s: Store<seq<K>>, ids: seq<Token>)
    requires StoreOK(s) && CacheRight(c.m, s) && ids != []
    ensures |HitKeys(c, s, ids)| * s.w.bs <= |ids| - 1
    ensures TableRight(c.m, Seeded(c, s, ids).w, |s.w.tables|, ids[..|HitKeys(c, s, ids)| * s.w.bs])
  {
    hide StoreOK, Inv, CacheRight, HashChain, TableRight, Reuse, HitKeys;
    StoreInv(s);
    OpenedOK(s);
    HitsUsable(c, s, ids);
    var keys, toks, bs := HitKeys(c, s, ids), ids[..|ids| - 1], s.w.bs;
    assert CacheRight(c.m, Opened(s)) by { SameIndexRight(c.m, s, Opened(s)); }
    assert toks[..|keys| * bs] == ids[..|keys| * bs];
    assert forall d :: 0 <= d < |keys| ==> HashChain(bs, toks)[d] == keys[d];
    ReuseRight(c.m, Opened(s), |s.w.tables|, toks, |keys|);
  }

  lemma EntryPrefix<K, H>(m: Model<K, H>, w: World<seq<K>>, w': World<seq<K>>, i: nat, ids: seq<Token>, n: nat)
    requires n <= |ids| && TableRight(m, w, i, ids[..n]) && Kept(w, w')
    ensures forall j :: 0 <= j < n ==> EntryRight(m, w', i, ids, j)
  {
    forall j | 0 <= j < n ensures EntryRight(m, w', i, ids, j) {
      assert EntryRight(m, w, i, ids[..n], j);
      assert SameAt(w, w', i, j);
      assert ids[..n][..j + 1] == ids[..j + 1];
    }
  }

  lemma KeptCarries<K, H>(m: Model<K, H>, w: World<seq<K>>, w': World<seq<K>>, x: nat)
    requires Kept(w, w') && x < |w.tables| && w'.tables[x].len == w.tables[x].len
    ensures Carries(m, w, w', x)
  {
    forall toks | TableRight(m, w, x, toks) ensures TableRight(m, w', x, toks) {
      TableKept(m, w, w', x, toks);
    }
  }

  /** Growing a table that ends on a block boundary takes no copy, only the missing blocks. */
  lemma AlignedCost<E>(w: World<E>, i: nat, n: nat, total: nat)
    requires Inv(w) && i < |w.tables| && w.tables[i].len == n * w.bs <= total && |w.tables[i].blocks| == n
    ensures w.bs >= 1 && Cost(w, i, total - w.tables[i].len) + n == CeilDiv(total, w.bs)
  {
    assert w.bs >= 1;
    hide Inv, SharedTail, CeilDiv;
    SlotDivMod(w.bs, n, 0);
    AlignedCeil(w.bs, n, total);
  }

  lemma AlignedCeil(bs: nat, n: nat, total: nat)
    requires bs >= 1 && n * bs <= total
    ensures n <= CeilDiv(total, bs)
  {
    assert n > 0 ==> (n - 1) * bs == n * bs - bs;
    CeilUnique(n * bs, bs, n);
    CeilMono(n * bs, total, bs);
  }

  /** What the rest of a prompt costs after its cached part: the blocks the cache did not supply. */
  lemma SeededCost<K, H>(c: Config<K, H>, s: Store<seq<K>>, ids: seq<Token>)
    requires StoreOK(s) && ids != []
    ensures var w, i := Seeded(c, s, ids).w, |s.w.tables|;
      && Inv(w) && i < |w.tables| && w.tables[i].len <= |ids| && w.bs == s.w.bs >= 1
      && Cost(w, i, |ids| - w.tables[i].len) + |HitKeys(c, s, ids)| == CeilDiv(|ids|, s.w.bs)
  {
    hide *;
    StoreInv(s);
    SeededOK(c, s, ids);
    AlignedCost(Seeded(c, s, ids).w, |s.w.tables|, |HitKeys(c, s, ids)|, |ids|);
  }

  lemma ReservedReady<K, H>(m: Model<K, H>, w: World<seq<K>>, r: World<seq<K>>, i: nat, n: nat, ids: seq<Token>)
    requires Inv(w) && i < |w.tables| && w.tables[i].len == n <= |ids| && TableRight(m, w, i, ids[..n])
    requires Reserved(w, r, i, |ids| - n) && SlabOK(m.layers, r.slab)
    ensures ReadyFrom(m, r, i, n, ids)
  {
    EntryPrefix(m, w, r, i, ids, n);
  }

  /** The forward pass over a reserved table leaves the pool right and every other table alone. */
  lemma PassStage<K, H>(m: Model<K, H>, s: Store<seq<K>>, i: nat, n: nat, ids: seq<Token>)
    requires PoolRight(m, s) && n < |ids| && ReadyFrom(m, s.w, i, n, ids)
    ensures var y := PrefillPass(m, s.w, i, n, ids);
      var r := s.(w := s.w.(slab := y.slab));
      && PoolRight(m, r) && TableRight(m, r.w, i, ids)
      && (forall x :: 0 <= x < |s.w.tables| && x != i ==> Carries(m, s.w, r.w, x))
      && y.hs != [] && m.head(y.hs[|y.hs| - 1]) == Next(m, ids)
  {
    var y := PrefillPass(m, s.w, i, n, ids);
    var r, p := s.(w := s.w.(slab := y.slab)), PrefillPlan(s.w.tables[i], n);
    PrefillRight(m, s.w, i, n, ids);
    PrefillOwned(m, s.w, i, n, ids);
    PassIsolated(s.w, p.writes, Owners(i, n, |ids|), y.slab);
    CacheKept(m, s, r.w);
    hide PrefillPass, PrefillPlan, AllOwned, OnlyAt, CacheRight, TableRight, Inv, SameBlock, SameAt;
    forall x | 0 <= x < |s.w.tables| && x != i ensures Carries(m, s.w, r.w, x) {
      OtherCarries(m, s.w, r.w, x);
    }
  }

  lemma OtherCarries<K, H>(m: Model<K, H>, w: World<seq<K>>, w': World<seq<K>>, x: nat)
    requires x < |w.tables| && w'.tables == w.tables
             && (forall j :: 0 <= j < |w.tables[x].slots| ==> SameAt(w, w', x, j))
    ensures Carries(m, w, w', x)
  {
    forall toks | TableRight(m, w, x, toks) ensures TableRight(m, w', x, toks) {
      forall j | 0 <= j < |toks| ensures EntryRight(m, w', x, toks, j) {
        assert EntryRight(m, w, x, toks, j);
        assert SameAt(w, w', x, j);
      }
    }
  }

  lemma CarriesTrans<K, H>(m: Model<K, H>, u: World<seq<K>>, v: World<seq<K>>, w: World<seq<K>>, x: nat)
    requires Carries(m, u, v, x) && Carries(m, v, w, x)
    ensures Carries(m, u, w, x)
  {
  }

  lemma SeededExtends<K, H>(c: Config<K, H>, s: Store<seq<K>>, ids: seq<Token>)
    requires PoolRight(c.m, s) && ids != []
    ensures Extends(c.m, s, Seeded(c, s, ids))
  {
    hide Seeded, StoreOK, CacheRight, Inv;
    var r := Seeded(c, s, ids);
    SeededOK(c, s, ids);
    SeededTight(c, s, ids);
    SameIndexRight(c.m, s, r);
    forall x | 0 <= x < |s.w.tables| ensures Carries(c.m, s.w, r.w, x) {
      assert r.w.tables[..|s.w.tables|][x] == s.w.tables[x];
      SameSlabCarries(c.m, s.w, r.w, x);
    }
  }

  lemma ReserveStage<K, H>(m: Model<K, H>, s: Store<seq<K>>, r: World<seq<K>>, i: nat, k: nat)
    requires PoolRight(m, s) && i < |s.w.tables| && Reserved(s.w, r, i, k) && SlabOK(m.layers, r.slab)
    ensures PoolRight(m, s.(w := r))
    ensures forall x :: 0 <= x < |s.w.tables| && x != i ==> Carries(m, s.w, r, x)
  {
    CacheKept(m, s, r);
    hide CacheRight, Inv, Tight, SameAt, SameBlock;
    forall x | 0 <= x < |s.w.tables| && x != i ensures Carries(m, s.w, r, x) {
      KeptCarries(m, s.w, r, x);
    }
  }

  lemma ExtendsBy<K, H>(m: Model<K, H>, s: Store<seq<K>>, s1: Store<seq<K>>, r: Store<seq<K>>)
    requires Extends(m, s, s1) && PoolRight(m, r) && r.w.bs == s1.w.bs && |r.w.alloc.refs| == |s1.w.alloc.refs|
    requires |r.w.tables| == |s1.w.tables| && (forall x :: 0 <= x < |s.w.tables| ==> r.w.tables[x] == s1.w.tables[x])
    requires forall x :: 0 <= x < |s.w.tables| ==> Carries(m, s1.w, r.w, x)
    ensures Extends(m, s, r)
  {
    hide PoolRight, Carries;
    assert forall x :: 0 <= x < |s.w.tables| ==> s1.w.tables[..|s.w.tables|][x] == s1.w.tables[x];
    assert r.w.tables[..|s.w.tables|] == s.w.tables;
    forall x | 0 <= x < |s.w.tables| ensures Carries(m, s.w, r.w, x) {
      CarriesTrans(m, s.w, s1.w, r.w, x);
    }
  }

  lemma InsertStage<K, H>(m: Model<K, H>, s: Store<seq<K>>, i: nat, ids: seq<Token>)
    requires PoolRight(m, s) && i < |s.w.tables| && TableRight(m, s.w, i, ids)
    ensures var r := InsertUpTo(s, i, HashChain(s.w.bs, ids), |ids| / s.w.bs);
      && PoolRight(m, r) && SamePool(s, r) && |r.w.alloc.refs| == |s.w.alloc.refs|
      && TableRight(m, r.w, i, ids)
      && (forall x :: 0 <= x < |s.w.tables| ==> Carries(m, s.w, r.w, x))
  {
    StoreInv(s);
    var keys, n := HashChain(s.w.bs, ids), |ids| / s.w.bs;
    InsertOK(s, i, keys, n);
    InsertRight(m, s, i, ids, n);
    var r := InsertUpTo(s, i, keys, n);
    SamePoolRight(m, s, r, i, ids);
    InsertBlocks(s, r);
    hide StoreOK, Inv, CacheRight, TableRight, HashChain, Tight;
    forall x | 0 <= x < |s.w.tables| ensures Carries(m, s.w, r.w, x) {
      SameSlabCarries(m, s.w, r.w, x);
    }
  }

  /** Equal slabs of equal blocks: the pool has not changed size. */
  lemma InsertBlocks<E>(s: Store<E>, r: Store<E>)
    requires StoreOK(s) && StoreOK(r) && r.w.slab == s.w.slab && r.w.bs == s.w.bs
    ensures |r.w.alloc.refs| == |s.w.alloc.refs|
  {
    MulCancel(|s.w.alloc.refs|, |r.w.alloc.refs|, s.w.bs);
  }

  /**
    A prompt whose blocks fit the free list never runs out during its prefill. Whatever part
    of it was served from the cache, the table ends up right for the whole prompt, the token
    sampled is the one a cold run samples, no older table can tell, and at most the prompt's
    own blocks are taken.
   */
  lemma PrefillFacts<K, H>(c: Config<K, H>, s: Store<seq<K>>, ids: seq<Token>)
    requires PoolRight(c.m, s) && ids != [] && s.w.bs >= 1 && CeilDiv(|ids|, s.w.bs) <= NumFree(s.w)
    ensures var p := Prefill(c, s, ids);
      && p.ok && Extends(c.m, s, p.s) && TableRight(c.m, p.s.w, |s.w.tables|, ids)
      && p.token == Next(c.m, ids)
      && NumFree(p.s.w) + CeilDiv(|ids|, s.w.bs) >= NumFree(s.w)
      && (!c.prefixOn ==> p.s.pc == s.pc)
  {
    hide *;
    var m, i := c.m, |s.w.tables|;
    assert StoreOK(s) by { PoolStore(m, s); }
    PrefillCore(c, s, ids);
    var s2 := Computed(c, s, ids).s;
    PrefillUnfold(c, s, ids);
    if c.prefixOn {
      assert |s2.w.tables| == i + 1 && s2.w.bs == s.w.bs && PoolRight(m, s2) by { ExtendsShape(m, s, s2); }
      InsertStage(m, s2, i, ids);
      var r := InsertUpTo(s2, i, HashChain(s.w.bs, ids), |ids| / s.w.bs);
      SamePoolShape(s2, r);
      ExtendsBy(m, s, s2, r);
    }
  }

  lemma PoolStore<K, H>(m: Model<K, H>, s: Store<seq<K>>)
    requires PoolRight(m, s)
    ensures StoreOK(s) && Inv(s.w) && CacheRight(m, s) && s.w.bs >= 1
  {
  }

  lemma ExtendsShape<K, H>(m: Model<K, H>, s: Store<seq<K>>, r: Store<seq<K>>)
    requires Extends(m, s, r)
    ensures |r.w.tables| == |s.w.tables| + 1 && r.w.bs == s.w.bs && |r.w.alloc.refs| == |s.w.alloc.refs|
            && PoolRight(m, r)
  {
  }

  lemma SamePoolShape<E>(s: Store<E>, r: Store<E>)
    requires SamePool(s, r)
    ensures r.w.tables == s.w.tables && NumFree(r.w) == NumFree(s.w) && r.w.bs == s.w.bs
  {
  }

  lemma ReservedShape<E>(w: World<E>, r: World<E>, i: nat, k: nat)
    requires i < |w.tables| && Reserved(w, r, i, k)
    ensures r.bs == w.bs && |r.alloc.refs| == |w.alloc.refs| && |r.tables| == |w.tables|
    ensures forall x :: 0 <= x < |w.tables| && x != i ==> r.tables[x] == w.tables[x]
  {
  }

  lemma PrefillUnfold<K, H>(c: Config<K, H>, s: Store<seq<K>>, ids: seq<Token>)
    requires StoreOK(s) && ids != [] && s.w.bs >= 1
    ensures var p := Computed(c, s, ids);
      Prefill(c, s, ids) == if p.ok && c.prefixOn
                            then p.(s := InsertUpTo(p.s, |s.w.tables|, HashChain(s.w.bs, ids), |ids| / s.w.bs)) else p
  {
  }

  lemma ComputedUnfold<K, H>(
    c: Config<K, H>, s: Store<seq<K>>, ids: seq<Token>, n: nat, r: Outcome<seq<K>>, y: Pass<K, H>)
    requires StoreOK(s) && ids != [] && n == |HitKeys(c, s, ids)| * s.w.bs <= |ids|
    requires Inv(Seeded(c, s, ids).w) && |s.w.tables| < |Seeded(c, s, ids).w.tables|
    requires r == Reserve(Seeded(c, s, ids).w, |s.w.tables|, |ids| - n) && r.ok && |s.w.tables| < |r.w.tables|
    requires y == PrefillPass(c.m, r.w, |s.w.tables|, n, ids)
    ensures Computed(c, s, ids) == Prefilled(true, Seeded(c, s, ids).(w := r.w.(slab := y.slab)),
                                             if y.hs == [] then 0 else c.m.head(y.hs[|y.hs| - 1]))
  {
    hide Reserve, PrefillPass, Seeded, StoreOK, Inv;
  }

  lemma PrefillCore<K, H>(c: Config<K, H>, s: Store<seq<K>>, ids: seq<Token>)
    requires PoolRight(c.m, s) && StoreOK(s) && ids != [] && s.w.bs >= 1 && CeilDiv(|ids|, s.w.bs) <= NumFree(s.w)
    ensures var p := Computed(c, s, ids);
      && p.ok && Extends(c.m, s, p.s) && TableRight(c.m, p.s.w, |s.w.tables|, ids)
      && p.token == Next(c.m, ids)
      && NumFree(p.s.w) + CeilDiv(|ids|, s.w.bs) >= NumFree(s.w)
      && (!c.prefixOn ==> p.s.pc == s.pc)
  {
    hide *;
    var m, i := c.m, |s.w.tables|;
    PoolStore(m, s);
    SeededExtends(c, s, ids);
    SeededOK(c, s, ids);
    SeededRight(c, s, ids);
    SeededCost(c, s, ids);
    var s1, n := Seeded(c, s, ids), |HitKeys(c, s, ids)| * s.w.bs;
    ExtendsShape(m, s, s1);
    ReserveStart(m, s1, i, n, ids);
    var o := Reserve(s1.w, i, |ids| - n);
    var r := o.w;
    ReserveStage(m, s1, r, i, |ids| - n);
    ReservedShape(s1.w, r, i, |ids| - n);
    ExtendsBy(m, s, s1, s1.(w := r));
    var y := PrefillPass(m, r, i, n, ids);
    PassStage(m, s1.(w := r), i, n, ids);
    ExtendsBy(m, s, s1.(w := r), s1.(w := r.(slab := y.slab)));
    ComputedUnfold(c, s, ids, n, o, y);
    SameFree(r, r.(slab := y.slab));
  }

  lemma SameFree<E>(w: World<E>, w': World<E>)
    requires w'.alloc == w.alloc
    ensures NumFree(w') == NumFree(w)
  {
  }

  lemma ReserveStart<K, H>(m: Model<K, H>, s: Store<seq<K>>, i: nat, n: nat, ids: seq<Token>)
    requires PoolRight(m, s) && i < |s.w.tables| && s.w.tables[i].len == n <= |ids|
    requires TableRight(m, s.w, i, ids[..n]) && Inv(s.w) && Cost(s.w, i, |ids| - n) <= NumFree(s.w)
    ensures var r := Reserve(s.w, i, |ids| - n);
      && r.ok && Reserved(s.w, r.w, i, |ids| - n) && SlabOK(m.layers, r.w.slab)
      && ReadyFrom(m, r.w, i, n, ids) && NumFree(r.w) == NumFree(s.w) - Cost(s.w, i, |ids| - n)
  {
    hide CacheRight, PrefixOK, Reserve, Reserved, TableRight, ReadyFrom, Cost;
    ReserveFacts(s.w, i, |ids| - n);
    ReserveSlabOK(m.layers, s.w, i, |ids| - n);
    ReservedReady(m, s.w, Reserve(s.w, i, |ids| - n).w, i, n, ids);
  }
}
