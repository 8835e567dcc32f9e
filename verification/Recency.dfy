/**
  Least recently used, said outright (engine/prefix_cache.py `match`, `insert`, `evict`): what a
  lookup or an insertion does to the ticks, and that over every run eviction follows the order in
  which keys were last used.
 */
module Recency {
  import opened Arith
  import opened Allocator
  import opened Paging
  import opened Transformer
  import opened PrefixCaching
  import opened Content
  import opened Isolation

  // -- one use ------------------------------------------------------------------------------

  /**
    `used` were used, in this order, and nothing else: each is now younger than everything before
    and than those used before it; every other entry is as it was; none is lost.
   */
  ghost predicate Refreshed(pc: Prefix, r: Prefix, used: seq<Key>)
  {
    && pc.entries.Keys <= r.entries.Keys && pc.clock <= r.clock
    && (forall d :: 0 <= d < |used| ==> used[d] in r.entries && pc.clock < r.entries[used[d]].lastUsed <= r.clock)
    && (forall d, d' :: 0 <= d < d' < |used| ==> r.entries[used[d]].lastUsed < r.entries[used[d']].lastUsed)
    && (forall k :: k in r.entries && k !in used ==> k in pc.entries && r.entries[k] == pc.entries[k])
  }

  lemma RefreshedNone(pc: Prefix)
    ensures Refreshed(pc, pc, [])
  {
  }

  /** One more use, of a key not used yet. */
  lemma RefreshedMore(pc: Prefix, p: Prefix, r: Prefix, used: seq<Key>, k: Key)
    requires Refreshed(pc, p, used) && k !in used && r.clock == p.clock + 1
    requires r.entries.Keys == p.entries.Keys + {k} && r.entries[k].lastUsed == r.clock
    requires forall x :: x in p.entries && x != k ==> r.entries[x] == p.entries[x]
    ensures Refreshed(pc, r, used + [k])
  {
    var more := used + [k];
    forall d | 0 <= d < |more| ensures more[d] in r.entries && pc.clock < r.entries[more[d]].lastUsed <= r.clock {
      if d < |used| { assert used[d] in used; }
    }
    forall d, d' | 0 <= d < d' < |more| ensures r.entries[more[d]].lastUsed < r.entries[more[d']].lastUsed {
      assert used[d] in used;
      if d' < |used| { assert used[d'] in used; }
    }
    assert forall x :: x in used ==> x in more;
  }

  lemma {:induction false} TouchAllRefreshes(pc: Prefix, keys: seq<Key>)
    requires PrefixOK(pc) && DistinctKeys(keys) && forall x :: 0 <= x < |keys| ==> keys[x] in pc.entries
    ensures Refreshed(pc, TouchAll(pc, keys), keys)
  {
    hide Refreshed, PrefixOK, Touch;
    if keys == [] {
      RefreshedNone(pc);
    } else {
      var n := |keys| - 1;
      TouchAllRefreshes(pc, keys[..n]);
      var p := TouchAll(pc, keys[..n]);
      assert keys == keys[..n] + [keys[n]];
      TouchUse(p, keys[n]);
      RefreshedMore(pc, p, Touch(p, keys[n]), keys[..n], keys[n]);
    }
  }

  lemma TouchUse(pc: Prefix, k: Key)
    requires k in pc.entries
    ensures var r := Touch(pc, k);
            && r.entries.Keys == pc.entries.Keys + {k} && r.clock == pc.clock + 1 && r.entries[k].lastUsed == r.clock
            && forall x :: x in pc.entries && x != k ==> r.entries[x] == pc.entries[x]
  {
  }

  /** A lookup refreshes exactly the keys that hit, in chain order. */
  lemma ReuseRefreshes<E>(s: Store<E>, i: nat, keys: seq<Key>)
    requires StoreOK(s) && i < |s.w.tables| && DistinctKeys(keys)
    requires forall x :: 0 <= x < |keys| ==> keys[x] in s.pc.entries
    ensures Refreshed(s.pc, Reuse(s, i, keys).pc, keys) && Reuse(s, i, keys).pc.entries.Keys == s.pc.entries.Keys
  {
    TouchAllRefreshes(s.pc, keys);
  }

  /** Those of `keys` that are cached, in order. */
  function Cached(pc: Prefix, keys: seq<Key>): seq<Key>
  {
    if keys == [] then []
    else
      var n := |keys| - 1;
      Cached(pc, keys[..n]) + if keys[n] in pc.entries then [keys[n]] else []
  }

  lemma {:induction false} CachedAre(pc: Prefix, keys: seq<Key>, k: Key)
    ensures k in Cached(pc, keys) <==> k in keys && k in pc.entries
  {
    if keys != [] {
      var n := |keys| - 1;
      CachedAre(pc, keys[..n], k);
      assert keys == keys[..n] + [keys[n]];
    }
  }

  lemma {:induction false} CachedSame(pc: Prefix, r: Prefix, keys: seq<Key>)
    requires forall x :: 0 <= x < |keys| ==> (keys[x] in pc.entries <==> keys[x] in r.entries)
    ensures Cached(pc, keys) == Cached(r, keys)
  {
    if keys != [] { CachedSame(pc, r, keys[..|keys| - 1]); }
  }

  /** What one iteration of an insertion does to the index, for key `k` and block `b`. */
  ghost predicate Entered(p: Prefix, r: Prefix, k: Key, b: nat)
  {
    && (k in r.entries <==> k in p.entries || b !in p.byBlock)
    && (k !in r.entries ==> r == p)
    && (k in r.entries ==>
          && r.entries.Keys == p.entries.Keys + {k} && r.clock == p.clock + 1 && r.entries[k].lastUsed == r.clock
          && r.entries[k].block == (if k in p.entries then p.entries[k].block else b)
          && r.byBlock.Keys == p.byBlock.Keys + (if k in p.entries then {} else {b})
          && forall x :: x in p.entries && x != k ==> r.entries[x] == p.entries[x])
  }

  lemma InsertAtUse<E>(s: Store<E>, i: nat, d: nat, k: Key)
    requires StoreOK(s) && i < |s.w.tables| && d < |s.w.tables[i].blocks| && k.Chain?
    ensures Entered(s.pc, InsertAt(s, i, d, k).pc, k, s.w.tables[i].blocks[d])
  {
    hide StoreOK;
  }

  /** How many keys an insertion looks at: one for each block the table has. */
  function Looked<E>(s: Store<E>, i: nat, n: nat): nat
    requires i < |s.w.tables|
  {
    if n <= |s.w.tables[i].blocks| then n else |s.w.tables[i].blocks|
  }

  /** An insertion that has looked at `keys`, each beside a block of `blocks`. */
  ghost predicate Inserted(pc: Prefix, r: Prefix, blocks: seq<nat>, keys: seq<Key>)
    requires |keys| <= |blocks|
  {
    && Refreshed(pc, r, Cached(r, keys))
    && (forall b :: b in r.byBlock ==> b in pc.byBlock || b in blocks[..|keys|])
    && forall d :: 0 <= d < |keys| ==> keys[d] in r.entries || blocks[d] in pc.byBlock
  }

  lemma InsertedMore(pc: Prefix, p: Prefix, r: Prefix, blocks: seq<nat>, keys: seq<Key>, k: Key)
    requires |keys| < |blocks| && Distinct(blocks) && Inserted(pc, p, blocks, keys)
    requires DistinctKeys(keys + [k]) && Entered(p, r, k, blocks[|keys|])
    ensures Inserted(pc, r, blocks, keys + [k])
  {
    var n := |keys|;
    KeyUsed(pc, p, r, keys, k);
    NotBefore(blocks, n);
    OwnersMore(pc.byBlock.Keys, p.byBlock.Keys, r.byBlock.Keys, blocks, n);
    KeysMore(pc.byBlock.Keys, p.entries.Keys, r.entries.Keys, blocks, keys, k);
    hide Refreshed, Cached, Distinct, DistinctKeys;
  }

  lemma OwnersMore(pc: set<nat>, p: set<nat>, r: set<nat>, blocks: seq<nat>, n: nat)
    requires n < |blocks| && r <= p + {blocks[n]} && forall b :: b in p ==> b in pc || b in blocks[..n]
    ensures forall b :: b in r ==> b in pc || b in blocks[..n + 1]
  {
    assert blocks[..n + 1] == blocks[..n] + [blocks[n]];
  }

  lemma KeysMore(pc: set<nat>, p: set<Key>, r: set<Key>, blocks: seq<nat>, keys: seq<Key>, k: Key)
    requires |keys| < |blocks| && p <= r && (k in r || blocks[|keys|] in pc)
    requires forall d :: 0 <= d < |keys| ==> keys[d] in p || blocks[d] in pc
    ensures var more := keys + [k]; forall d :: 0 <= d < |more| ==> more[d] in r || blocks[d] in pc
  {
    var more := keys + [k];
    forall d | 0 <= d < |more| ensures more[d] in r || blocks[d] in pc { assert d < |keys| ==> more[d] == keys[d]; }
  }

  lemma KeyUsed(pc: Prefix, p: Prefix, r: Prefix, keys: seq<Key>, k: Key)
    requires Refreshed(pc, p, Cached(p, keys)) && DistinctKeys(keys + [k])
    requires exists b :: Entered(p, r, k, b)
    ensures Refreshed(pc, r, Cached(r, keys + [k]))
  {
    var more := keys + [k];
    assert more[..|keys|] == keys;
    assert k !in keys by { assert forall d :: 0 <= d < |keys| ==> more[d] != more[|keys|]; }
    CachedSame(p, r, keys);
    CachedAre(p, keys, k);
    hide Refreshed;
    if k in r.entries { RefreshedMore(pc, p, r, Cached(p, keys), k); }
  }

  lemma NotBefore(s: seq<nat>, n: nat)
    requires Distinct(s) && n < |s|
    ensures s[n] !in s[..n]
  {
  }

  lemma BlocksAreDistinct<E>(s: Store<E>, i: nat)
    requires StoreOK(s) && i < |s.w.tables|
    ensures Distinct(s.w.tables[i].blocks)
  {
    assert TableOK(s.w.bs, |s.w.alloc.refs|, s.w.tables[i]);
  }

  lemma {:induction false} InsertRun<E>(s: Store<E>, i: nat, keys: seq<Key>, n: nat)
    requires StoreOK(s) && i < |s.w.tables| && n <= |keys| && n <= |s.w.tables[i].blocks|
    requires DistinctKeys(keys) && forall d :: 0 <= d < |keys| ==> keys[d].Chain?
    ensures Inserted(s.pc, InsertUpTo(s, i, keys, n).pc, s.w.tables[i].blocks, keys[..n])
  {
    hide StoreOK, InsertAt, Inserted;
    if n == 0 {
      InsertedNone(s.pc, s.w.tables[i].blocks);
      assert keys[..0] == [];
    } else {
      InsertRun(s, i, keys, n - 1);
      InsertOK(s, i, keys, n - 1);
      InsertUnfold(s, i, keys, n);
      assert keys[..n] == keys[..n - 1] + [keys[n - 1]];
      var p := InsertUpTo(s, i, keys, n - 1);
      InsertAtUse(p, i, n - 1, keys[n - 1]);
      BlocksAreDistinct(p, i);
      hide InsertUpTo, Entered, Distinct;
      InsertedMore(s.pc, p.pc, InsertUpTo(s, i, keys, n).pc, s.w.tables[i].blocks, keys[..n - 1], keys[n - 1]);
    }
  }

  lemma {:induction false} InsertPast<E>(s: Store<E>, i: nat, keys: seq<Key>, n: nat)
    requires StoreOK(s) && i < |s.w.tables| && |s.w.tables[i].blocks| <= n <= |keys|
    ensures InsertUpTo(s, i, keys, n) == InsertUpTo(s, i, keys, |s.w.tables[i].blocks|)
  {
    hide StoreOK, InsertAt;
    if n > |s.w.tables[i].blocks| {
      InsertPast(s, i, keys, n - 1);
      InsertOK(s, i, keys, n - 1);
      InsertAtPast(InsertUpTo(s, i, keys, n - 1), i, n - 1, keys[n - 1]);
    }
  }

  lemma InsertAtPast<E>(s: Store<E>, i: nat, d: nat, k: Key)
    requires i < |s.w.tables| && d >= |s.w.tables[i].blocks|
    ensures InsertAt(s, i, d, k) == s
  {
  }

  lemma InsertedNone(pc: Prefix, blocks: seq<nat>)
    ensures Inserted(pc, pc, blocks, [])
  {
    RefreshedNone(pc);
  }

  /**
    An insertion uses exactly the cached keys among those it looks at, in chain order: afterwards a
    key looked at is cached unless its block is already cached under another.
   */
  lemma InsertRefreshes<E>(s: Store<E>, i: nat, keys: seq<Key>, n: nat)
    requires StoreOK(s) && i < |s.w.tables| && n <= |keys|
    requires DistinctKeys(keys) && forall d :: 0 <= d < |keys| ==> keys[d].Chain?
    ensures Inserted(s.pc, InsertUpTo(s, i, keys, n).pc, s.w.tables[i].blocks, keys[..Looked(s, i, n)])
  {
    hide StoreOK, InsertUpTo, Inserted;
    InsertRun(s, i, keys, Looked(s, i, n));
    if n > |s.w.tables[i].blocks| { InsertPast(s, i, keys, n); }
  }

  // -- the order of last use -------------------------------------------------------------------

  /** Where `k` was last used, or -1. */
  function LastUse(log: seq<Key>, k: Key): (p: int)
    ensures -1 <= p < |log| && (p >= 0 ==> log[p] == k) && forall d :: p < d < |log| ==> log[d] != k
  {
    if log == [] then -1
    else if log[|log| - 1] == k then |log| - 1
    else LastUse(log[..|log| - 1], k)
  }

  lemma LastUseIs(log: seq<Key>, k: Key, p: int)
    requires -1 <= p < |log| && (p >= 0 ==> log[p] == k) && forall d :: p < d < |log| ==> log[d] != k
    ensures LastUse(log, k) == p
  {
  }

  lemma LastUseAppend(log: seq<Key>, used: seq<Key>, k: Key)
    ensures k !in used ==> LastUse(log + used, k) == LastUse(log, k)
    ensures forall d :: 0 <= d < |used| && used[d] == k && k !in used[d + 1..] ==> LastUse(log + used, k) == |log| + d
  {
    var all := log + used;
    if k !in used {
      assert forall d :: |log| <= d < |all| ==> all[d] == used[d - |log|];
      LastUseIs(all, k, LastUse(log, k));
    }
    forall d | 0 <= d < |used| && used[d] == k && k !in used[d + 1..] ensures LastUse(all, k) == |log| + d {
      assert forall x :: d < x < |used| ==> used[x] == used[d + 1..][x - d - 1];
      assert forall x :: |log| + d < x < |all| ==> all[x] == used[x - |log|];
      LastUseIs(all, k, |log| + d);
    }
  }

  /** The ticks of the entries are in the order of their last uses. */
  ghost predicate Aged(pc: Prefix, log: seq<Key>)
  {
    && (forall k :: k in pc.entries ==> LastUse(log, k) >= 0 && pc.entries[k].lastUsed <= pc.clock)
    && (forall k, k' :: k in pc.entries && k' in pc.entries && LastUse(log, k) < LastUse(log, k') ==>
          pc.entries[k].lastUsed < pc.entries[k'].lastUsed)
  }

  lemma UsedAt(pc: Prefix, r: Prefix, log: seq<Key>, used: seq<Key>, k: Key) returns (d: nat)
    requires Refreshed(pc, r, used) && k in used
    ensures d < |used| && used[d] == k && LastUse(log + used, k) == |log| + d
  {
    d :| 0 <= d < |used| && used[d] == k;
    assert k !in used[d + 1..] by {
      forall x | d < x < |used| ensures used[x] != k {
        assert r.entries[used[d]].lastUsed < r.entries[used[x]].lastUsed;
      }
    }
    LastUseAppend(log, used, k);
  }

  lemma AgedUse(pc: Prefix, r: Prefix, log: seq<Key>, used: seq<Key>)
    requires Aged(pc, log) && Refreshed(pc, r, used)
    ensures Aged(r, log + used)
  {
    hide LastUse;
    forall k | k in r.entries ensures LastUse(log + used, k) >= 0 && r.entries[k].lastUsed <= r.clock {
      if k in used { var d := UsedAt(pc, r, log, used, k); } else { LastUseAppend(log, used, k); }
    }
    forall k, k' | k in r.entries && k' in r.entries && LastUse(log + used, k) < LastUse(log + used, k')
      ensures r.entries[k].lastUsed < r.entries[k'].lastUsed
    {
      AgedPair(pc, r, log, used, k, k');
    }
  }

  lemma AgedPair(pc: Prefix, r: Prefix, log: seq<Key>, used: seq<Key>, k: Key, k': Key)
    requires Aged(pc, log) && Refreshed(pc, r, used) && k in r.entries && k' in r.entries
    requires LastUse(log + used, k) < LastUse(log + used, k')
    ensures r.entries[k].lastUsed < r.entries[k'].lastUsed
  {
    hide LastUse;
    LastUseAppend(log, used, k);
    LastUseAppend(log, used, k');
    if k in used { var d := UsedAt(pc, r, log, used, k); }
    if k' in used { var d := UsedAt(pc, r, log, used, k'); }
  }

  /** The keys one operation uses. */
  ghost function Uses<E>(s: Store<E>, op: Op<E>): seq<Key>
    requires PoolOK(s)
  {
    match op
    case DoAttach(i, toks) =>
      if i >= |s.w.tables| || s.w.tables[i] != EmptyTable then []
      else
        var keys := HashChain(s.w.bs, toks);
        keys[..Hits(s.pc, keys, 0)]
    case DoInsert(i, toks) =>
      if i >= |s.w.tables| || |toks| > s.w.tables[i].len then []
      else Cached(Perform(s, op).pc, HashChain(s.w.bs, toks)[..Looked(s, i, |toks| / s.w.bs)])
    case _ => []
  }

  /** The keys a run used, in order. */
  ghost function LogOf<E>(s: Store<E>, ops: seq<Op<E>>): seq<Key>
    requires PoolOK(s)
  {
    if ops == [] then []
    else
      var n := |ops| - 1;
      LogOf(s, ops[..n]) + Uses(After(s, ops[..n]), ops[n])
  }

  /** An attach that hits looks up `keys`, all of them cached. */
  lemma AttachIs<E>(s: Store<E>, i: nat, toks: seq<Token>) returns (keys: seq<Key>)
    requires PoolOK(s) && i < |s.w.tables| && s.w.tables[i] == EmptyTable
    ensures keys == Uses(s, DoAttach(i, toks)) && StoreOK(s) && DistinctKeys(keys)
    ensures forall x :: 0 <= x < |keys| ==> keys[x] in s.pc.entries
    ensures Attach(s, i, toks) == Reuse(s, i, keys)
  {
    var all := HashChain(s.w.bs, toks);
    var n := Hits(s.pc, all, 0);
    ChainUsable(s.w.bs, toks, n);
    hide HashChain;
    keys := all[..n];
  }

  lemma AttachUses<E>(s: Store<E>, i: nat, toks: seq<Token>)
    requires PoolOK(s)
    ensures Refreshed(s.pc, Attach(s, i, toks).pc, Uses(s, DoAttach(i, toks)))
  {
    if i < |s.w.tables| && s.w.tables[i] == EmptyTable {
      hide *;
      var keys := AttachIs(s, i, toks);
      ReuseRefreshes(s, i, keys);
    } else {
      RefreshedNone(s.pc);
    }
  }

  lemma ChainsAreChains(bs: nat, toks: seq<Token>)
    requires bs >= 1
    ensures DistinctKeys(HashChain(bs, toks)) && forall d :: 0 <= d < |toks| / bs ==> HashChain(bs, toks)[d].Chain?
  {
    hide HashChain;
    ChainUsable(bs, toks, |toks| / bs);
    assert HashChain(bs, toks)[..|toks| / bs] == HashChain(bs, toks);
    forall d | 0 <= d < |toks| / bs ensures HashChain(bs, toks)[d].Chain? { ChainSpan(bs, toks, d); }
  }

  lemma InsertUses<E>(s: Store<E>, i: nat, toks: seq<Token>)
    requires PoolOK(s)
    ensures Refreshed(s.pc, Insert(s, i, toks).pc, Uses(s, DoInsert(i, toks)))
  {
    if i < |s.w.tables| && |toks| <= s.w.tables[i].len {
      assert StoreOK(s);
      StoreInv(s);
      ChainsAreChains(s.w.bs, toks);
      hide Refreshed, HashChain, StoreOK, InsertUpTo, Cached;
      InsertRefreshes(s, i, HashChain(s.w.bs, toks), |toks| / s.w.bs);
    } else {
      RefreshedNone(s.pc);
    }
  }

  lemma AgedLess(pc: Prefix, r: Prefix, log: seq<Key>)
    requires Aged(pc, log) && r.entries.Keys <= pc.entries.Keys && pc.clock <= r.clock
    requires forall k :: k in r.entries ==> r.entries[k] == pc.entries[k]
    ensures Aged(r, log)
  {
    hide LastUse;
  }

  lemma EvictClock<E>(s: Store<E>, n: nat)
    requires StoreOK(s)
    ensures Evict(s, n).pc.clock == s.pc.clock
    decreases n
  {
    hide StoreOK, Evictable, Coldest;
    if n > 0 && AnyEvictable(s) {
      ColdestIn(s, ColdestKey(s));
      DropOK(s, ColdestKey(s));
      EvictClock(Drop(s, ColdestKey(s)), n - 1);
    }
  }

  /** An operation that uses nothing leaves every entry it keeps as it was. */
  lemma UnusedKeeps<E>(s: Store<E>, op: Op<E>)
    requires PoolOK(s) && !op.DoAttach? && !op.DoInsert? && !op.DoClear?
    ensures var r := Perform(s, op).pc;
            && r.entries.Keys <= s.pc.entries.Keys && r.clock == s.pc.clock
            && forall k :: k in r.entries ==> r.entries[k] == s.pc.entries[k]
  {
    if op.DoEvict? {
      EvictFacts(s, op.n);
      EvictClock(s, op.n);
    }
    hide StoreOK, Evict, Evictable;
  }

  lemma PerformAged<E>(s: Store<E>, op: Op<E>, log: seq<Key>)
    requires PoolOK(s) && Aged(s.pc, log)
    ensures Aged(Perform(s, op).pc, log + Uses(s, op))
  {
    match op
    case DoAttach(i, toks) => AttachUses(s, i, toks); AgedUse(s.pc, Perform(s, op).pc, log, Uses(s, op));
    case DoInsert(i, toks) => InsertUses(s, i, toks); AgedUse(s.pc, Perform(s, op).pc, log, Uses(s, op));
    case DoClear => ClearFacts(s);
    case _ => AgedOther(s, op, log);
  }

  lemma AgedOther<E>(s: Store<E>, op: Op<E>, log: seq<Key>)
    requires PoolOK(s) && Aged(s.pc, log) && !op.DoAttach? && !op.DoInsert? && !op.DoClear?
    ensures Aged(Perform(s, op).pc, log + Uses(s, op))
  {
    hide Aged, PoolOK, Perform;
    assert Uses(s, op) == [] && log + [] == log;
    UnusedKeeps(s, op);
    AgedLess(s.pc, Perform(s, op).pc, log);
  }

  lemma {:induction false} RunAged<E>(s: Store<E>, ops: seq<Op<E>>)
    requires PoolOK(s) && s.pc.entries == map[]
    ensures Aged(After(s, ops).pc, LogOf(s, ops))
  {
    hide PoolOK, Aged, Perform, Uses;
    if ops == [] {
      assert Aged(s.pc, []) by { AgedEmpty(s.pc); }
    } else {
      var n := |ops| - 1;
      RunAged(s, ops[..n]);
      PerformAged(After(s, ops[..n]), ops[n], LogOf(s, ops[..n]));
    }
  }

  lemma AgedEmpty(pc: Prefix)
    requires pc.entries == map[]
    ensures Aged(pc, [])
  {
  }

  lemma OlderUse(pc: Prefix, log: seq<Key>, k: Key, x: Key)
    requires Aged(pc, log) && k in pc.entries && x in pc.entries && pc.entries[k].lastUsed < pc.entries[x].lastUsed
    ensures 0 <= LastUse(log, k) < LastUse(log, x)
  {
    assert log[LastUse(log, x)] == x && log[LastUse(log, k)] == k;
  }

  /**
    Over every run from an empty cache: eviction takes an entry only if every evictable entry it
    leaves was used more recently, by a lookup that hit it or by an insertion of its key.
   */
  lemma EvictsLeastRecentlyUsed<E>(s: Store<E>, ops: seq<Op<E>>, n: nat, k: Key, x: Key)
    requires PoolOK(s) && s.pc.entries == map[]
    requires var p := After(s, ops); k in p.pc.entries && x in p.pc.entries && Evictable(p, x)
    requires k !in Evict(After(s, ops), n).pc.entries && x in Evict(After(s, ops), n).pc.entries
    ensures 0 <= LastUse(LogOf(s, ops), k) < LastUse(LogOf(s, ops), x)
  {
    var p, log := After(s, ops), LogOf(s, ops);
    RunAged(s, ops);
    EvictFacts(p, n);
    hide StoreOK, Evict, After, LogOf, Evictable, Aged;
    OlderUse(p.pc, log, k, x);
  }
}
