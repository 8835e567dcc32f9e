/**
  The content-addressed prefix cache (engine/prefix_cache.py), as values.

  A block's key chains the block's tokens onto the key of everything before it. Hashing is
  taken to be collision-free, which `Key` makes literal: a key is the chain itself.
 */
module PrefixCaching {
  import opened Allocator
  import opened Arith
  import opened Paging
  import opened Transformer

  datatype Key = Root | Chain(parent: Key, block: seq<Token>)

  datatype Entry = Entry(block: nat, parent: Key, lastUsed: nat, depth: nat)

  datatype Prefix = Prefix(entries: map<Key, Entry>, byBlock: map<nat, Key>, clock: nat)

  const NoPrefix := Prefix(map[], map[], 0)

  /** The pool and the cache over it. */
  datatype Store<E> = Store(w: World<E>, pc: Prefix)

  // -- keys ------------------------------------------------------------------

  /** Every token a key stands for, from the start of the sequence. */
  function Span(k: Key): seq<Token>
  {
    match k
    case Root => []
    case Chain(p, b) => Span(p) + b
  }

  function Depth(k: Key): nat
  {
    match k
    case Root => 0
    case Chain(p, _) => Depth(p) + 1
  }

  /** The key of the last full block of `toks`. */
  function KeyOf(bs: nat, toks: seq<Token>): Key
    requires bs >= 1
  {
    if |toks| < bs then Root
    else Chain(KeyOf(bs, toks[..|toks| - bs]), toks[|toks| - bs..])
  }

  /** `hash_chain`: one key per full block; the trailing partial block has none. */
  function HashChain(bs: nat, toks: seq<Token>): (r: seq<Key>)
    requires bs >= 1
    ensures |r| == |toks| / bs
  {
    seq(|toks| / bs, d requires 0 <= d < |toks| / bs => ChainFits(bs, |toks|, d); KeyOf(bs, toks[..(d + 1) * bs]))
  }

  lemma ChainFits(bs: nat, n: nat, d: nat)
    requires bs >= 1 && d < n / bs
    ensures (d + 1) * bs <= n && d * bs + bs == (d + 1) * bs
  {
    MulMono(d + 1, n / bs, bs);
  }

  /** Chained keys are faithful: a key determines its depth and its whole prefix. */
  lemma {:induction false} SpanKey(bs: nat, toks: seq<Token>, q: nat)
    requires bs >= 1 && |toks| == q * bs
    ensures Span(KeyOf(bs, toks)) == toks && Depth(KeyOf(bs, toks)) == q
  {
    if q > 0 {
      assert q * bs == (q - 1) * bs + bs;
      SpanKey(bs, toks[..|toks| - bs], q - 1);
      assert toks == toks[..|toks| - bs] + toks[|toks| - bs..];
    }
  }

  lemma ChainSpan(bs: nat, toks: seq<Token>, d: nat)
    requires bs >= 1 && d < |toks| / bs
    ensures (d + 1) * bs <= |toks|
    ensures var k := HashChain(bs, toks)[d];
      Span(k) == toks[..(d + 1) * bs] && Depth(k) == d + 1 && k.Chain? && |k.block| == bs
  {
    ChainFits(bs, |toks|, d);
    SpanKey(bs, toks[..(d + 1) * bs], d + 1);
  }

  lemma KeyOfStep(bs: nat, toks: seq<Token>, n: nat)
    requires 1 <= bs <= n <= |toks|
    ensures KeyOf(bs, toks[..n]) == Chain(KeyOf(bs, toks[..n - bs]), toks[n - bs..n])
  {
    assert toks[..n][..n - bs] == toks[..n - bs];
    assert toks[..n][n - bs..] == toks[n - bs..n];
  }

  /** The loop's own recurrence: each key hashes the previous key with the next block. */
  lemma ChainStep(bs: nat, toks: seq<Token>, d: nat)
    requires bs >= 1 && d < |toks| / bs
    ensures d * bs + bs <= |toks|
    ensures HashChain(bs, toks)[d]
         == Chain(if d == 0 then Root else HashChain(bs, toks)[d - 1], toks[d * bs..d * bs + bs])
  {
    ChainFits(bs, |toks|, d);
    assert HashChain(bs, toks)[d] == KeyOf(bs, toks[..d * bs + bs]);
    assert d > 0 ==> HashChain(bs, toks)[d - 1] == KeyOf(bs, toks[..d * bs]);
    assert d == 0 ==> d * bs == 0 && KeyOf(bs, toks[..0]) == Root;
    hide HashChain;
    KeyOfStep(bs, toks, d * bs + bs);
  }

  lemma ChainDistinct(bs: nat, toks: seq<Token>, d: nat, d': nat)
    requires bs >= 1 && d < d' < |toks| / bs
    ensures HashChain(bs, toks)[d] != HashChain(bs, toks)[d']
  {
    ChainSpan(bs, toks, d);
    ChainSpan(bs, toks, d');
  }

  lemma ChainUsable(bs: nat, toks: seq<Token>, n: nat)
    requires bs >= 1 && n <= |toks| / bs
    ensures n * bs <= |toks| && DistinctKeys(HashChain(bs, toks)[..n])
  {
    MulMono(n, |toks| / bs, bs);
    hide HashChain;
    forall x, y | 0 <= x < y < n ensures HashChain(bs, toks)[x] != HashChain(bs, toks)[y] {
      ChainDistinct(bs, toks, x, y);
    }
  }

  // -- the index -------------------------------------------------------------

  /** Entries and `_by_block` are inverse, and no two entries were last used at the same tick. */
  ghost predicate PrefixOK(pc: Prefix)
  {
    && (forall k :: k in pc.entries ==> EntryOK(pc, k))
    && (forall b :: b in pc.byBlock ==> pc.byBlock[b] in pc.entries && pc.entries[pc.byBlock[b]].block == b)
    && (forall k, k' :: k in pc.entries && k' in pc.entries && k != k' ==>
          pc.entries[k].lastUsed != pc.entries[k'].lastUsed)
  }

  ghost predicate EntryOK(pc: Prefix, k: Key)
    requires k in pc.entries
  {
    var e := pc.entries[k];
    && k.Chain? && e.parent == k.parent && e.depth + 1 == Depth(k) && 1 <= e.lastUsed <= pc.clock
    && e.block in pc.byBlock && pc.byBlock[e.block] == k
  }

  ghost predicate StoreOK<E>(s: Store<E>)
  {
    Inv(s.w) && PrefixOK(s.pc) && s.w.cached == s.pc.byBlock.Keys
  }

  /** Touching an entry stamps it with a fresh tick. */
  function Touch(pc: Prefix, k: Key): Prefix
    requires k in pc.entries
  {
    pc.(entries := pc.entries[k := pc.entries[k].(lastUsed := pc.clock + 1)], clock := pc.clock + 1)
  }

  ghost predicate SameIndex(pc: Prefix, r: Prefix)
  {
    && r.entries.Keys == pc.entries.Keys && r.byBlock == pc.byBlock
    && forall k :: k in pc.entries ==> r.entries[k].block == pc.entries[k].block
  }

  lemma TouchOK(pc: Prefix, k: Key)
    requires PrefixOK(pc) && k in pc.entries
    ensures PrefixOK(Touch(pc, k)) && SameIndex(pc, Touch(pc, k))
  {
    var r := Touch(pc, k);
    assert r.entries.Keys == pc.entries.Keys;
    forall x | x in r.entries ensures EntryOK(r, x) {
      assert EntryOK(pc, x);
    }
  }

  function TouchAll(pc: Prefix, keys: seq<Key>): (r: Prefix)
    requires PrefixOK(pc) && forall x :: 0 <= x < |keys| ==> keys[x] in pc.entries
    ensures PrefixOK(r) && SameIndex(pc, r)
  {
    if keys == [] then pc else
      var n := |keys| - 1;
      var p := TouchAll(pc, keys[..n]);
      TouchOK(p, keys[n]);
      Touch(p, keys[n])
  }

  // -- lookup ----------------------------------------------------------------

  /** How many leading keys are cached; the loop of `match` stops at the first miss. */
  function Hits(pc: Prefix, keys: seq<Key>, d: nat): (n: nat)
    requires d <= |keys|
    ensures d <= n <= |keys|
    ensures forall x :: d <= x < n ==> keys[x] in pc.entries
    ensures n < |keys| ==> keys[n] !in pc.entries
    decreases |keys| - d
  {
    if d < |keys| && keys[d] in pc.entries then Hits(pc, keys, d + 1) else d
  }

  function BlocksOf(pc: Prefix, keys: seq<Key>): seq<nat>
    requires forall x :: 0 <= x < |keys| ==> keys[x] in pc.entries
  {
    seq(|keys|, x requires 0 <= x < |keys| => pc.entries[keys[x]].block)
  }

  ghost predicate DistinctKeys(keys: seq<Key>)
  {
    forall x, y :: 0 <= x < y < |keys| ==> keys[x] != keys[y]
  }

  lemma BlocksDistinct<E>(s: Store<E>, keys: seq<Key>)
    requires StoreOK(s) && DistinctKeys(keys) && forall x :: 0 <= x < |keys| ==> keys[x] in s.pc.entries
    ensures Distinct(BlocksOf(s.pc, keys))
    ensures forall x :: 0 <= x < |keys| ==> BlocksOf(s.pc, keys)[x] in s.w.cached
    ensures Live(s.w.alloc, BlocksOf(s.pc, keys))
  {
    forall x | 0 <= x < |keys| ensures EntryOK(s.pc, keys[x]) {}
    CachedAllLive(s.w, BlocksOf(s.pc, keys));
  }

  /** `match` followed by `attach` onto the fresh table `i`, for the keys that hit. */
  ghost function Reuse<E>(s: Store<E>, i: nat, keys: seq<Key>): Store<E>
    requires StoreOK(s) && i < |s.w.tables| && DistinctKeys(keys)
    requires forall x :: 0 <= x < |keys| ==> keys[x] in s.pc.entries
  {
    BlocksDistinct(s, keys);
    Store(Seed(s.w, i, BlocksOf(s.pc, keys)), TouchAll(s.pc, keys))
  }

  lemma ReuseOK<E>(s: Store<E>, i: nat, keys: seq<Key>)
    requires StoreOK(s) && i < |s.w.tables| && s.w.tables[i] == EmptyTable && DistinctKeys(keys)
    requires forall x :: 0 <= x < |keys| ==> keys[x] in s.pc.entries
    ensures var r := Reuse(s, i, keys);
      && StoreOK(r) && SameIndex(s.pc, r.pc)
      && r.w.bs == s.w.bs && r.w.slab == s.w.slab && r.w.alloc.free == s.w.alloc.free && r.w.cached == s.w.cached
      && |r.w.alloc.refs| == |s.w.alloc.refs|
      && r.w.tables == s.w.tables[i := r.w.tables[i]]
      && r.w.tables[i].blocks == BlocksOf(s.pc, keys) && r.w.tables[i].len == |keys| * s.w.bs
  {
    BlocksDistinct(s, keys);
    SeedInv(s.w, i, BlocksOf(s.pc, keys));
  }

  // -- insertion -------------------------------------------------------------

  /** One iteration of `insert`: table `i`'s block at depth `d` under key `k`. */
  ghost function InsertAt<E>(s: Store<E>, i: nat, d: nat, k: Key): Store<E>
  {
    if !StoreOK(s) || i >= |s.w.tables| || d >= |s.w.tables[i].blocks| || !k.Chain? then s else
    var t := s.w.tables[i];
    if k in s.pc.entries then s.(pc := Touch(s.pc, k))
    else if t.blocks[d] in s.pc.byBlock then s
    else
      RegisterInv(s.w, i, t.blocks[d]);
      Store(Register(s.w, t.blocks[d]),
            Prefix(s.pc.entries[k := Entry(t.blocks[d], k.parent, s.pc.clock + 1, Depth(k) - 1)],
                   s.pc.byBlock[t.blocks[d] := k], s.pc.clock + 1))
  }

  /** Tables, slab and free list are untouched. */
  ghost predicate SamePool<E>(s: Store<E>, r: Store<E>)
  {
    r.w.tables == s.w.tables && r.w.slab == s.w.slab && r.w.bs == s.w.bs && r.w.alloc.free == s.w.alloc.free
  }

  lemma InsertAtOK<E>(s: Store<E>, i: nat, d: nat, k: Key)
    requires StoreOK(s) && i < |s.w.tables|
    ensures StoreOK(InsertAt(s, i, d, k)) && SamePool(s, InsertAt(s, i, d, k))
  {
    var t := s.w.tables[i];
    if d < |t.blocks| && k.Chain? {
      if k in s.pc.entries {
        TouchOK(s.pc, k);
      } else if t.blocks[d] !in s.pc.byBlock {
        RegisterInv(s.w, i, t.blocks[d]);
        EntryAdded(s.pc, k, t.blocks[d]);
      }
    }
  }

  lemma EntryAdded(pc: Prefix, k: Key, b: nat)
    requires PrefixOK(pc) && k !in pc.entries && b !in pc.byBlock && k.Chain?
    ensures PrefixOK(Prefix(pc.entries[k := Entry(b, k.parent, pc.clock + 1, Depth(k) - 1)],
                            pc.byBlock[b := k], pc.clock + 1))
  {
    var r := Prefix(pc.entries[k := Entry(b, k.parent, pc.clock + 1, Depth(k) - 1)], pc.byBlock[b := k], pc.clock + 1);
    forall x | x in r.entries ensures EntryOK(r, x) {
      assert x != k ==> EntryOK(pc, x);
    }
    forall x, y | x in r.entries && y in r.entries && x != y ensures r.entries[x].lastUsed != r.entries[y].lastUsed {
      assert x != k ==> EntryOK(pc, x);
      assert y != k ==> EntryOK(pc, y);
    }
  }

  /** `insert` after its first `n` iterations. */
  ghost function InsertUpTo<E>(s: Store<E>, i: nat, keys: seq<Key>, n: nat): (r: Store<E>)
    requires n <= |keys|
  {
    if n == 0 then s else InsertAt(InsertUpTo(s, i, keys, n - 1), i, n - 1, keys[n - 1])
  }

  lemma InsertUnfold<E>(s: Store<E>, i: nat, keys: seq<Key>, n: nat)
    requires n <= |keys|
    ensures n == 0 ==> InsertUpTo(s, i, keys, n) == s
    ensures n > 0 ==> InsertUpTo(s, i, keys, n) == InsertAt(InsertUpTo(s, i, keys, n - 1), i, n - 1, keys[n - 1])
  {
  }

  lemma {:induction false} InsertOK<E>(s: Store<E>, i: nat, keys: seq<Key>, n: nat)
    requires StoreOK(s) && i < |s.w.tables| && n <= |keys|
    ensures StoreOK(InsertUpTo(s, i, keys, n)) && SamePool(s, InsertUpTo(s, i, keys, n))
  {
    hide StoreOK, InsertAt;
    if n > 0 {
      InsertOK(s, i, keys, n - 1);
      InsertAtOK(InsertUpTo(s, i, keys, n - 1), i, n - 1, keys[n - 1]);
    }
  }

  // -- eviction --------------------------------------------------------------

  /** Only a block whose sole reference is the cache's own may go. */
  ghost predicate Evictable<E>(s: Store<E>, k: Key)
    requires StoreOK(s)
  {
    k in s.pc.entries && (assert EntryOK(s.pc, k); s.w.alloc.refs[s.pc.entries[k].block] == 1)
  }

  function DropEntry(pc: Prefix, k: Key): Prefix
    requires k in pc.entries
  {
    Prefix(pc.entries - {k}, pc.byBlock - {pc.entries[k].block}, pc.clock)
  }

  lemma DropEntryOK(pc: Prefix, k: Key)
    requires PrefixOK(pc) && k in pc.entries
    ensures PrefixOK(DropEntry(pc, k))
    ensures DropEntry(pc, k).byBlock.Keys == pc.byBlock.Keys - {pc.entries[k].block}
  {
    var r := DropEntry(pc, k);
    assert EntryOK(pc, k);
    forall x | x in r.entries ensures EntryOK(r, x) {
      assert EntryOK(pc, x);
    }
  }

  /** One entry leaves the cache, by `evict` or `clear`. */
  ghost function Drop<E>(s: Store<E>, k: Key): Store<E>
    requires StoreOK(s) && k in s.pc.entries
  {
    assert EntryOK(s.pc, k);
    CachedLive(s.w, s.pc.entries[k].block);
    Store(Unregister(s.w, s.pc.entries[k].block), DropEntry(s.pc, k))
  }

  lemma DropOK<E>(s: Store<E>, k: Key)
    requires StoreOK(s) && k in s.pc.entries
    ensures StoreOK(Drop(s, k)) && Drop(s, k).w.tables == s.w.tables && Drop(s, k).w.slab == s.w.slab
    ensures Drop(s, k).w.bs == s.w.bs
    ensures Drop(s, k).pc == DropEntry(s.pc, k)
    ensures NumFree(Drop(s, k).w) == NumFree(s.w) + if Evictable(s, k) then 1 else 0
  {
    assert EntryOK(s.pc, k);
    UnregisterInv(s.w, s.pc.entries[k].block);
    DropEntryOK(s.pc, k);
  }

  ghost predicate Coldest<E>(s: Store<E>, k: Key)
    requires StoreOK(s)
  {
    Evictable(s, k) && forall x :: Evictable(s, x) ==> s.pc.entries[k].lastUsed <= s.pc.entries[x].lastUsed
  }

  lemma {:induction false} ColdestAmong(es: map<Key, Entry>, ks: set<Key>) returns (k: Key)
    requires ks != {} && ks <= es.Keys
    ensures k in ks && forall x :: x in ks ==> es[k].lastUsed <= es[x].lastUsed
  {
    k :| k in ks;
    if ks != {k} {
      var x := ColdestAmong(es, ks - {k});
      k := if es[x].lastUsed < es[k].lastUsed then x else k;
    }
  }

  lemma ColdestExists<E>(s: Store<E>, x: Key)
    requires StoreOK(s) && Evictable(s, x)
    ensures exists k :: Coldest(s, k)
  {
    var ks := set k | k in s.pc.entries && Evictable(s, k);
    assert x in ks;
    var k := ColdestAmong(s.pc.entries, ks);
    assert Coldest(s, k);
  }

  ghost predicate AnyEvictable<E>(s: Store<E>)
    requires StoreOK(s)
  {
    exists k :: Evictable(s, k)
  }

  ghost function ColdestKey<E>(s: Store<E>): (k: Key)
    requires StoreOK(s) && AnyEvictable(s)
    ensures Coldest(s, k)
  {
    var x :| Evictable(s, x);
    ColdestExists(s, x);
    var k :| Coldest(s, k);
    k
  }

  /** `evict(n)`: release up to `n` evictable blocks, coldest first. */
  ghost function Evict<E>(s: Store<E>, n: nat): (r: Store<E>)
    requires StoreOK(s)
    ensures StoreOK(r) && r.w.tables == s.w.tables && r.w.slab == s.w.slab && r.w.bs == s.w.bs
    decreases n
  {
    if n == 0 || !AnyEvictable(s) then s else
      DropOK(s, ColdestKey(s));
      Evict(Drop(s, ColdestKey(s)), n - 1)
  }

  /** Ticks are unique, so the coldest evictable entry is strictly colder than every other. */
  lemma ColdestIn<E>(s: Store<E>, k: Key)
    requires StoreOK(s) && Coldest(s, k)
    ensures Evictable(s, k) && k in s.pc.entries
    ensures forall x :: Evictable(s, x) && x != k ==>
      x in s.pc.entries && s.pc.entries[k].lastUsed < s.pc.entries[x].lastUsed
  {
  }

  /** Evicting one entry changes no other entry's eligibility. */
  lemma EvictableAfter<E>(s: Store<E>, k: Key, x: Key)
    requires StoreOK(s) && Evictable(s, k)
    ensures StoreOK(Drop(s, k)) && (Evictable(Drop(s, k), x) <==> Evictable(s, x) && x != k)
  {
    DropOK(s, k);
    assert EntryOK(s.pc, k);
    if x in s.pc.entries {
      assert EntryOK(s.pc, x);
    }
  }

  /**
    What `evict(n)` promises: only evictable entries go, coldest first and one free block
    each, and fewer than `n` go only when nothing evictable is left.
   */
  ghost predicate Evicted<E>(s: Store<E>, r: Store<E>, n: nat)
    requires StoreOK(s) && StoreOK(r)
  {
    && r.pc.entries.Keys <= s.pc.entries.Keys
    && (forall k :: k in r.pc.entries ==> r.pc.entries[k] == s.pc.entries[k])
    && NumFree(s.w) <= NumFree(r.w) <= NumFree(s.w) + n
    && (NumFree(r.w) < NumFree(s.w) + n ==> !AnyEvictable(r))
    && (forall k :: k in s.pc.entries && k !in r.pc.entries ==> Evictable(s, k))
    && (forall k, x | k in s.pc.entries && k !in r.pc.entries && x in r.pc.entries && Evictable(s, x) ::
          s.pc.entries[k].lastUsed < s.pc.entries[x].lastUsed)
  }

  lemma EvictStep<E>(s: Store<E>, k: Key, d: Store<E>, r: Store<E>, n: nat)
    requires StoreOK(s) && StoreOK(d) && StoreOK(r) && Coldest(s, k) && Evicted(d, r, n)
    requires d.pc.entries == s.pc.entries - {k} && NumFree(d.w) == NumFree(s.w) + 1
    requires forall x :: Evictable(d, x) <==> Evictable(s, x) && x != k
    ensures Evicted(s, r, n + 1)
  {
    hide StoreOK, Evictable, AnyEvictable, Coldest;
    ColdestIn(s, k);
  }

  lemma {:induction false} EvictFacts<E>(s: Store<E>, n: nat)
    requires StoreOK(s)
    ensures Evicted(s, Evict(s, n), n)
    decreases n
  {
    hide StoreOK, Evictable, Coldest, Drop;
    if n > 0 && AnyEvictable(s) {
      var k := ColdestKey(s);
      assert Evictable(s, k) && k in s.pc.entries by { ColdestIn(s, k); }
      DropOK(s, k);
      hide Evicted;
      EvictFacts(Drop(s, k), n - 1);
      forall x ensures Evictable(Drop(s, k), x) <==> Evictable(s, x) && x != k {
        EvictableAfter(s, k, x);
      }
      EvictStep(s, k, Drop(s, k), Evict(s, n), n - 1);
    }
  }

  datatype Freed<E> = Freed(ok: bool, s: Store<E>)

  /** `ensure_free`: evict until `n` blocks are free, or until nothing evictable is left. */
  ghost function EnsureFree<E>(s: Store<E>, n: nat): (r: Freed<E>)
    requires StoreOK(s)
  {
    var r := if NumFree(s.w) < n then Evict(s, n - NumFree(s.w)) else s;
    Freed(NumFree(r.w) >= n, r)
  }
}
