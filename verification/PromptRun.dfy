/** Running a prompt over the pool (engine/scheduler.py, `_prefill`), step by step. */
module PromptRun {
  import opened Paging
  import opened Transformer
  import opened PrefixCaching
  import opened Content
  import opened Requests
  import opened Prefilling
  import opened PagedPool
  import opened PrefixIndex

  /** What `_prefill` of `ids` makes of the store `s`. */
  ghost predicate PrefillsTo<K, H>(
    c: Config<K, H>, s: Store<seq<K>>, ids: seq<Token>, ok: bool, st: Store<seq<K>>, token: Token)
  {
    StoreOK(s) && ids != [] && Prefill(c, s, ids) == Prefilled(ok, st, token)
  }

  /** The new sequence holds the cached part of the prompt: `n` tokens. */
  ghost predicate SeedsTo<K, H>(c: Config<K, H>, s: Store<seq<K>>, ids: seq<Token>, st: Store<seq<K>>, n: nat)
  {
    PoolRight(c.m, s) && ids != [] && st == Seeded(c, s, ids) && n == |HitKeys(c, s, ids)| * s.w.bs
  }

  /** From the seeded store `st0`, room was made for the rest of the prompt. */
  ghost predicate MakesRoom<K, H>(
    c: Config<K, H>, s: Store<seq<K>>, ids: seq<Token>, st0: Store<seq<K>>, n: nat, st: Store<seq<K>>)
  {
    SeedsTo(c, s, ids, st0, n) && n < |ids| && st.pc == st0.pc && Reserves(st0.w, |s.w.tables|, |ids| - n, true, st.w)
  }

  /** `match` and `attach` for a prompt, its last token left out. */
  method SeedPrompt<K, H>(c: Config<K, H>, prefix: PrefixCache<K>, ids: seq<Token>, cache: PagedKVCache<K>,
                          ghost i: nat, ghost s: Store<seq<K>>) returns (n: nat)
    requires prefix.Valid() && cache.pool == prefix.pool && cache.At(i) && cache.AsTable() == EmptyTable
    requires PoolRight(c.m, s) && prefix.st == Opened(s) && i == |s.w.tables| && ids != []
    modifies prefix, prefix.pool, prefix.pool.alloc, cache
    ensures prefix.Valid() && prefix.pool.SameSeqs()
    ensures SeedsTo(c, s, ids, prefix.st, n)
  {
    hide PoolRight, SeedsTo, HitsAre, Reused, Covered, Inv, StoreOK;
    n := 0;
    if c.prefixOn {
      ghost var keys;
      n, keys := prefix.Reuse(cache, i, ids[..|ids| - 1]);
      SeededBy(c, s, ids, prefix.st, keys, n);
    } else {
      SeededOff(c, s, ids);
    }
  }

  /** The forward pass over the prompt's suffix. */
  method PassPrompt<K, H>(c: Config<K, H>, pool: PagedCachePool<K>, ids: seq<Token>, cache: PagedKVCache<K>,
                          n: nat, ghost i: nat) returns (token: Token)
    requires pool.Valid() && cache.pool == pool && cache.At(i) && n < |ids| && ReadyFrom(c.m, pool.w, i, n, ids)
    modifies pool, pool.slab
    ensures pool.Valid() && pool.SameSeqs()
    ensures var y := PrefillPass(c.m, old(pool.w), i, n, ids);
      pool.w == old(pool.w).(slab := y.slab) && y.hs != [] && token == c.m.head(y.hs[|y.hs| - 1])
  {
    ghost var w := pool.w;
    PassReady(c.m, w, i, n, ids);
    var p := Plan(cache.slots[n..cache.len],
                  PrefixSlots(cache.slots, n, cache.len));
    assert p == PrefillPlan(w.tables[i], n);
    var hs := SuffixEmbeds(c.m, ids, n);
    hide Inv, ReadyFrom, PlanOK, RunPlan, PrefillPlan;
    var out := pool.Forward(c.m, p, hs);
    ghost var y := PrefillPass(c.m, w, i, n, ids);
    assert y == Pass(pool.slab[..], out);
    pool.w := w.(slab := pool.slab[..]);
    token := c.m.head(out[|out| - 1]);
  }

  function PrefixSlots(slots: seq<nat>, n: nat, len: nat): (r: seq<seq<nat>>)
    requires n <= len <= |slots|
    ensures r == seq(len - n, q requires 0 <= q < len - n => slots[..n + q + 1])
  {
    seq(len - n, q requires 0 <= q < len - n => slots[..n + q + 1])
  }

  function SuffixEmbeds<K, H>(m: Model<K, H>, ids: seq<Token>, n: nat): (r: seq<H>)
    requires n <= |ids|
    ensures r == Embeds(m, ids, n)
  {
    seq(|ids| - n, q requires 0 <= q < |ids| - n => m.embed(ids[n + q], n + q))
  }

  /** `_prefill`; not ok is `OutOfBlocks`. */
  method RunPrompt<K, H>(c: Config<K, H>, prefix: PrefixCache<K>, ids: seq<Token>, cache: PagedKVCache<K>,
                         ghost i: nat, ghost s: Store<seq<K>>) returns (ok: bool, token: Token)
    requires prefix.Valid() && cache.pool == prefix.pool && cache.At(i) && cache.AsTable() == EmptyTable
    requires PoolRight(c.m, s) && prefix.st == Opened(s) && i == |s.w.tables| && ids != []
    modifies prefix, prefix.pool, prefix.pool.alloc, prefix.pool.slab, cache
    ensures prefix.Valid() && prefix.pool.SameSeqs()
    ensures PrefillsTo(c, s, ids, ok, prefix.st, token)
  {
    hide PoolRight, SeedsTo, Inv, StoreOK, Reserves, MakesRoom, PrefillsTo, ReadyFrom, PrefillPass;
    var n := SeedPrompt(c, prefix, ids, cache, i, s);
    SeedsBound(c, s, ids, prefix.st, n);
    ghost var st0 := prefix.st;
    ok := cache.Advance(|ids| - n, i);
    RoomMade(c, s, ids, st0, n, ok, prefix.pool.w);
    prefix.st := prefix.st.(w := prefix.pool.w);
    token := 0;
    if ok {
      token := FillPrompt(c, prefix, ids, cache, n, i, s, st0);
    }
  }

  /** With room made: the pass, then the prompt's full blocks are registered. */
  method FillPrompt<K, H>(c: Config<K, H>, prefix: PrefixCache<K>, ids: seq<Token>, cache: PagedKVCache<K>,
                          n: nat, ghost i: nat, ghost s: Store<seq<K>>, ghost st0: Store<seq<K>>) returns (token: Token)
    requires prefix.Valid() && cache.pool == prefix.pool && cache.At(i) && n < |ids| && i == |s.w.tables|
             && s.w.bs == prefix.pool.bs
    requires MakesRoom(c, s, ids, st0, n, prefix.st) && ReadyFrom(c.m, prefix.pool.w, i, n, ids)
    modifies prefix, prefix.pool, prefix.pool.alloc, prefix.pool.slab
    ensures prefix.Valid() && prefix.pool.SameSeqs()
    ensures PrefillsTo(c, s, ids, true, prefix.st, token)
  {
    hide PoolRight, Inv, StoreOK, MakesRoom, PrefillsTo, ReadyFrom, PrefillPass, InsertUpTo, HashChain;
    ghost var st := prefix.st;
    token := PassPrompt(c, prefix.pool, ids, cache, n, i);
    Passed(c, s, ids, st0, n, st, prefix.pool.w, token);
    prefix.st := st.(w := prefix.pool.w);
    ghost var done := prefix.st;
    if c.prefixOn {
      prefix.Insert(ids, cache, i);
    }
    Finished(c, s, ids, done, prefix.st, token);
  }

  // -- the stages ----------------------------------------------------------------------------

  lemma SeededBy<K, H>(c: Config<K, H>, s: Store<seq<K>>, ids: seq<Token>, st: Store<seq<K>>, keys: seq<Key>, n: nat)
    requires PoolRight(c.m, s) && ids != [] && c.prefixOn && HitsAre(Opened(s), ids[..|ids| - 1], keys)
    requires Reused(Opened(s), |s.w.tables|, keys, st) && n == Covered(keys, s.w.bs)
    ensures SeedsTo(c, s, ids, st, n)
  {
    PoolStore(c.m, s);
    OpenedOK(s);
    hide PoolRight, StoreOK, Reuse, HashChain;
    assert keys == HitKeys(c, s, ids);
  }

  lemma SeededOff<K, H>(c: Config<K, H>, s: Store<seq<K>>, ids: seq<Token>)
    requires PoolRight(c.m, s) && ids != [] && !c.prefixOn
    ensures SeedsTo(c, s, ids, Opened(s), 0)
  {
    PoolStore(c.m, s);
    OpenedOK(s);
    HitsUsable(c, s, ids);
    var i, w := |s.w.tables|, Open(s.w);
    assert HitKeys(c, s, ids) == [] && BlocksOf(s.pc, []) == [];
    assert w.tables[i := EmptyTable] == w.tables;
    hide PoolRight, StoreOK, Inv;
    assert Seeded(c, s, ids) == Reuse(Opened(s), i, []);
    ReuseNone(Opened(s), i);
  }

  lemma ReuseNone<E>(s: Store<E>, i: nat)
    requires StoreOK(s) && i < |s.w.tables| && s.w.tables[i] == EmptyTable
    ensures Reuse(s, i, []) == s
  {
    BlocksDistinct(s, []);
    assert BlocksOf(s.pc, []) == [] && s.w.tables[i := EmptyTable] == s.w.tables;
  }

  lemma SeedsBound<K, H>(c: Config<K, H>, s: Store<seq<K>>, ids: seq<Token>, st: Store<seq<K>>, n: nat)
    requires SeedsTo(c, s, ids, st, n)
    ensures n < |ids|
  {
    PoolStore(c.m, s);
    SeededOK(c, s, ids);
  }

  lemma ReserveCached<E>(w: World<E>, i: nat, n: nat, ok: bool, r: World<E>)
    requires Reserves(w, i, n, ok, r)
    ensures r.cached == w.cached
  {
    UnshareFacts(w, i);
  }

  lemma StoreMoved<E>(s: Store<E>, w: World<E>)
    requires StoreOK(s) && Inv(w) && w.cached == s.w.cached
    ensures StoreOK(s.(w := w))
  {
  }

  lemma SeedsFacts<K, H>(c: Config<K, H>, s: Store<seq<K>>, ids: seq<Token>, st: Store<seq<K>>, n: nat)
    requires SeedsTo(c, s, ids, st, n)
    ensures StoreOK(s) && Inv(st.w) && |s.w.tables| < |st.w.tables| && st.w.bs >= 1 && n < |ids|
    ensures st.w.tables[|s.w.tables|].len == n && TableRight(c.m, st.w, |s.w.tables|, ids[..n])
    ensures Tight(st.w.bs, st.w.tables[|s.w.tables|]) && SlabOK(c.m.layers, st.w.slab)
  {
    PoolStore(c.m, s);
    SeededOK(c, s, ids);
    SeededRight(c, s, ids);
    SeededTight(c, s, ids);
    assert SlabOK(c.m.layers, s.w.slab);
    hide PoolRight, StoreOK, Inv, Seeded, HitKeys, TableRight, SlabOK;
    StoreInv(s);
  }

  lemma ReservesRight<K>(layers: nat, w: World<seq<K>>, i: nat, n: nat, r: World<seq<K>>)
    requires Reserves(w, i, n, true, r) && Tight(w.bs, w.tables[i]) && SlabOK(layers, w.slab)
    ensures Reserved(w, r, i, n) && SlabOK(layers, r.slab)
  {
    hide Inv, SlabOK, Reserve;
    ReserveFacts(w, i, n);
    ReserveSlabOK(layers, w, i, n);
  }

  /** Room made for the suffix: the table is right up to `n` and private from there. */
  lemma RoomReady<K, H>(c: Config<K, H>, s: Store<seq<K>>, ids: seq<Token>, st: Store<seq<K>>, n: nat, w: World<seq<K>>)
    requires SeedsTo(c, s, ids, st, n) && n < |ids| && Reserves(st.w, |s.w.tables|, |ids| - n, true, w)
    ensures ReadyFrom(c.m, w, |s.w.tables|, n, ids)
  {
    hide *;
    SeedsFacts(c, s, ids, st, n);
    ReservesRight(c.m.layers, st.w, |s.w.tables|, |ids| - n, w);
    ReservedReady(c.m, st.w, w, |s.w.tables|, n, ids);
  }

  lemma ComputedFails<K, H>(
    c: Config<K, H>, s: Store<seq<K>>, ids: seq<Token>, st: Store<seq<K>>, n: nat, w: World<seq<K>>)
    requires SeedsTo(c, s, ids, st, n) && n < |ids| && Reserves(st.w, |s.w.tables|, |ids| - n, false, w)
    ensures PrefillsTo(c, s, ids, false, st.(w := w), 0)
  {
    hide PoolRight, StoreOK, Inv, Seeded, HitKeys, Reserve, InsertUpTo, HashChain;
    SeedsFacts(c, s, ids, st, n);
    PrefillUnfold(c, s, ids) by { StoreInv(s); }
    hide Prefill;
    ComputedIs(c, s, ids, st, n);
  }

  lemma ComputedIs<K, H>(c: Config<K, H>, s: Store<seq<K>>, ids: seq<Token>, st: Store<seq<K>>, n: nat)
    requires SeedsTo(c, s, ids, st, n) && StoreOK(s) && Inv(st.w) && |s.w.tables| < |st.w.tables| && n < |ids|
    ensures !Reserve(st.w, |s.w.tables|, |ids| - n).ok ==>
      Computed(c, s, ids) == Prefilled(false, st.(w := Reserve(st.w, |s.w.tables|, |ids| - n).w), 0)
  {
    hide PoolRight, StoreOK, Inv, Seeded, HitKeys, Reserve, PrefillPass;
  }

  lemma RoomMade<K, H>(
    c: Config<K, H>, s: Store<seq<K>>, ids: seq<Token>, st: Store<seq<K>>, n: nat, ok: bool, w: World<seq<K>>)
    requires SeedsTo(c, s, ids, st, n) && StoreOK(st) && n < |ids| && Reserves(st.w, |s.w.tables|, |ids| - n, ok, w)
             && Inv(w)
    ensures StoreOK(st.(w := w))
    ensures ok ==> MakesRoom(c, s, ids, st, n, st.(w := w)) && ReadyFrom(c.m, w, |s.w.tables|, n, ids)
    ensures !ok ==> PrefillsTo(c, s, ids, false, st.(w := w), 0)
  {
    hide *;
    ReserveCached(st.w, |s.w.tables|, |ids| - n, ok, w);
    StoreMoved(st, w);
    if ok {
      RoomReady(c, s, ids, st, n, w);
      RoomIntro(c, s, ids, st, n, w);
    } else {
      ComputedFails(c, s, ids, st, n, w);
    }
  }

  lemma RoomIntro<K, H>(c: Config<K, H>, s: Store<seq<K>>, ids: seq<Token>, st: Store<seq<K>>, n: nat, w: World<seq<K>>)
    requires SeedsTo(c, s, ids, st, n) && n < |ids| && Reserves(st.w, |s.w.tables|, |ids| - n, true, w)
    ensures MakesRoom(c, s, ids, st, n, st.(w := w))
  {
    hide SeedsTo, Reserves;
  }

  lemma PassReady<K, H>(m: Model<K, H>, w: World<seq<K>>, i: nat, n: nat, ids: seq<Token>)
    requires ReadyFrom(m, w, i, n, ids) && n < |ids|
    ensures i < |w.tables| && n < w.tables[i].len == |ids| <= |w.tables[i].slots|
    ensures PlanOK(m.layers, w.slab, PrefillPlan(w.tables[i], n)) && |PrefillPlan(w.tables[i], n).writes| == |ids| - n
    ensures var y := PrefillPass(m, w, i, n, ids); Inv(w.(slab := y.slab)) && |y.hs| == |ids| - n
  {
    assert TableOK(w.bs, |w.alloc.refs|, w.tables[i]);
    PrefillSound(m, w, i, n, ids);
    PrefillRight(m, w, i, n, ids);
    PrefillOwned(m, w, i, n, ids);
    var y := PrefillPass(m, w, i, n, ids);
    PassIsolated(w, PrefillPlan(w.tables[i], n).writes, Owners(i, n, |ids|), y.slab);
  }

  ghost predicate ComputesTo<K, H>(c: Config<K, H>, s: Store<seq<K>>, ids: seq<Token>, st: Store<seq<K>>, token: Token)
  {
    StoreOK(s) && ids != [] && Computed(c, s, ids) == Prefilled(true, st, token)
  }

  lemma Passed<K, H>(c: Config<K, H>, s: Store<seq<K>>, ids: seq<Token>, st0: Store<seq<K>>, n: nat,
                     st: Store<seq<K>>, w: World<seq<K>>, token: Token)
    requires MakesRoom(c, s, ids, st0, n, st) && StoreOK(st) && Inv(w) && |s.w.tables| < |st.w.tables|
    requires var y := PrefillPass(c.m, st.w, |s.w.tables|, n, ids);
      w == st.w.(slab := y.slab) && y.hs != [] && token == c.m.head(y.hs[|y.hs| - 1])
    ensures StoreOK(st.(w := w)) && ComputesTo(c, s, ids, st.(w := w), token)
  {
    PoolStore(c.m, s);
    StoreMoved(st, w);
    SeededOK(c, s, ids);
    hide PoolRight, StoreOK, Inv, Seeded, HitKeys, Reserve, PrefillPass;
    var y := PrefillPass(c.m, st.w, |s.w.tables|, n, ids);
    ComputedUnfold(c, s, ids, n, Outcome(true, st.w), y);
  }

  lemma Finished<K, H>(
    c: Config<K, H>, s: Store<seq<K>>, ids: seq<Token>, st: Store<seq<K>>, r: Store<seq<K>>, token: Token)
    requires ComputesTo(c, s, ids, st, token) && s.w.bs >= 1
    requires r == if c.prefixOn then InsertUpTo(st, |s.w.tables|, HashChain(s.w.bs, ids), |ids| / s.w.bs) else st
    ensures PrefillsTo(c, s, ids, true, r, token)
  {
    PrefillUnfold(c, s, ids);
  }
}
