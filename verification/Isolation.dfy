/**
  The paged pool against the machine it imitates: one where every sequence owns a private,
  contiguous, append-only log and every cache entry owns a copy of its block. Sharing, copy on
  write, eviction and reallocation are invisible through every interleaving of operations.
 */
module Isolation {
  import opened Wrappers
  import opened Allocator
  import opened Arith
  import opened Paging
  import opened Batch
  import opened Transformer
  import opened PrefixCaching
  import opened Content

  /** What the pool stands for. */
  datatype Copies<E> = Copies(logs: seq<seq<E>>, cache: map<Key, seq<E>>)

  ghost function BlockData<E>(w: World<E>, b: nat): (d: seq<E>)
    requires b * w.bs + w.bs <= |w.slab|
    ensures |d| == w.bs
  {
    w.slab[b * w.bs..b * w.bs + w.bs]
  }

  ghost function Logs<E>(w: World<E>): (r: seq<seq<E>>)
    requires Inv(w)
    ensures |r| == |w.tables|
  {
    seq(|w.tables|, i requires 0 <= i < |w.tables| => Gather(w, i))
  }

  lemma EntryFits<E>(s: Store<E>, k: Key)
    requires StoreOK(s) && k in s.pc.entries
    ensures s.pc.entries[k].block in s.w.cached && s.pc.entries[k].block < |s.w.alloc.refs|
    ensures s.pc.entries[k].block * s.w.bs + s.w.bs <= |s.w.slab|
  {
    assert EntryOK(s.pc, k);
    BlockFits(s.w, s.pc.entries[k].block);
  }

  ghost function Cache<E>(s: Store<E>): (r: map<Key, seq<E>>)
    requires StoreOK(s)
    ensures r.Keys == s.pc.entries.Keys
  {
    map k | k in s.pc.entries :: (EntryFits(s, k); BlockData(s.w, s.pc.entries[k].block))
  }

  ghost function Abs<E>(s: Store<E>): Copies<E>
    requires StoreOK(s)
  {
    Copies(Logs(s.w), Cache(s))
  }

  /** Between two operations: counts exact, index consistent, every table just big enough. */
  ghost predicate PoolOK<E>(s: Store<E>)
  {
    StoreOK(s) && AllTight(s.w)
  }

  // -- scattered writes ------------------------------------------------------------------------

  /** `slab[writes] = es`. */
  function Put<E>(slab: seq<E>, writes: seq<nat>, es: seq<E>): (r: seq<E>)
    ensures |r| == |slab|
  {
    if writes == [] || |es| != |writes| then slab
    else
      var n := |writes| - 1;
      var r := Put(slab, writes[..n], es[..n]);
      if writes[n] < |slab| then r[writes[n] := es[n]] else r
  }

  lemma {:induction false} PutAt<E>(slab: seq<E>, writes: seq<nat>, es: seq<E>)
    requires |es| == |writes| && Distinct(writes) && forall q :: 0 <= q < |writes| ==> writes[q] < |slab|
    ensures forall x :: 0 <= x < |slab| && x !in writes ==> Put(slab, writes, es)[x] == slab[x]
    ensures forall q :: 0 <= q < |writes| ==> Put(slab, writes, es)[writes[q]] == es[q]
  {
    if writes != [] {
      var n := |writes| - 1;
      var ws, vs := writes[..n], es[..n];
      PutAt(slab, ws, vs);
      var was := Put(slab, ws, vs);
      var r := was[writes[n] := es[n]];
      assert Put(slab, writes, es) == r && writes[n] !in ws;
      hide Put;
      forall x | 0 <= x < |slab| && x !in writes ensures r[x] == slab[x] { assert x !in ws; }
      forall q | 0 <= q < |writes| ensures r[writes[q]] == es[q] {
        if q < n { assert ws[q] == writes[q] && vs[q] == es[q]; }
      }
    }
  }

  ghost predicate DistinctOwners(owner: seq<(nat, nat)>)
  {
    forall p, q :: 0 <= p < q < |owner| ==> owner[p] != owner[q]
  }

  lemma OwnedDistinct<E>(w: World<E>, writes: seq<nat>, owner: seq<(nat, nat)>)
    requires Inv(w) && AllOwned(w, writes, owner) && DistinctOwners(owner)
    ensures Distinct(writes) && forall q :: 0 <= q < |writes| ==> writes[q] < |w.slab|
  {
    forall q | 0 <= q < |writes| ensures writes[q] < |w.slab| {
      assert Owned(w, writes, owner, q);
      SlotBounds(w, owner[q].0, owner[q].1);
    }
    forall p, q | 0 <= p < q < |writes| ensures writes[p] != writes[q] {
      assert Owned(w, writes, owner, p) && Owned(w, writes, owner, q);
      if writes[p] == writes[q] {
        PrivateSlot(w, owner[p].0, owner[p].1, owner[q].0, owner[q].1);
      }
    }
  }

  /** Entries scattered to private positions are read back there and change nothing else. */
  lemma PutIsolated<E>(w: World<E>, writes: seq<nat>, owner: seq<(nat, nat)>, es: seq<E>)
    requires Inv(w) && AllOwned(w, writes, owner) && DistinctOwners(owner) && |es| == |writes|
    ensures var w' := w.(slab := Put(w.slab, writes, es));
      && Inv(w')
      && (forall q :: 0 <= q < |writes| ==>
            owner[q].0 < |w.tables| && Reads(w'.slab, w.tables[owner[q].0], owner[q].1, es[q]))
      && (forall i, j | 0 <= i < |w.tables| && 0 <= j < |w.tables[i].slots| && (i, j) !in owner :: SameAt(w, w', i, j))
      && (forall b :: b in w.cached ==> SameBlock(w, w', b))
  {
    OwnedDistinct(w, writes, owner);
    PutAt(w.slab, writes, es);
    var slab := Put(w.slab, writes, es);
    PassIsolated(w, writes, owner, slab);
    hide Inv, Put, SameAt, SameBlock;
    forall q | 0 <= q < |writes|
      ensures owner[q].0 < |w.tables| && Reads(slab, w.tables[owner[q].0], owner[q].1, es[q])
    {
      assert Owned(w, writes, owner, q);
    }
  }

  // -- reading the logs back ------------------------------------------------------------------------

  lemma GatherAt<E>(w: World<E>, i: nat, j: nat)
    requires Inv(w) && i < |w.tables| && j < w.tables[i].len
    ensures j < |w.tables[i].slots| && w.tables[i].slots[j] < |w.slab|
    ensures Gather(w, i)[j] == w.slab[w.tables[i].slots[j]]
  {
    assert TableOK(w.bs, |w.alloc.refs|, w.tables[i]);
    SlotBounds(w, i, j);
  }

  /** Table `i` now reads its old log followed by `es`. */
  ghost predicate Appends<E>(w: World<E>, w': World<E>, i: nat, es: seq<E>)
    requires i < |w.tables| && i < |w'.tables|
  {
    && w'.tables[i].len == w.tables[i].len + |es|
    && (forall j :: 0 <= j < w.tables[i].len && j < |w.tables[i].slots| ==> SameAt(w, w', i, j))
    && (forall q :: 0 <= q < |es| ==> Reads(w'.slab, w'.tables[i], w.tables[i].len + q, es[q]))
  }

  lemma GatherAppends<E>(w: World<E>, w': World<E>, i: nat, es: seq<E>)
    requires Inv(w) && Inv(w') && i < |w.tables| && i < |w'.tables| && Appends(w, w', i, es)
    ensures Gather(w', i) == Gather(w, i) + es
  {
    hide Inv, Gather;
    var n := w.tables[i].len;
    forall j | 0 <= j < n + |es| ensures Gather(w', i)[j] == (Gather(w, i) + es)[j] {
      GatherAt(w', i, j);
      if j < n {
        GatherAt(w, i, j);
        assert SameAt(w, w', i, j);
      } else {
        assert Reads(w'.slab, w'.tables[i], n + (j - n), es[j - n]);
      }
    }
  }

  lemma LogsAppend<E>(w: World<E>, w': World<E>, ess: seq<seq<E>>)
    requires Inv(w) && Inv(w') && |w.tables| == |w'.tables| == |ess|
    requires forall i :: 0 <= i < |ess| ==> Appends(w, w', i, ess[i])
    ensures forall i :: 0 <= i < |ess| ==> Logs(w')[i] == Logs(w)[i] + ess[i]
  {
    hide Inv, Gather, Appends;
    forall i | 0 <= i < |ess| ensures Logs(w')[i] == Logs(w)[i] + ess[i] {
      GatherAppends(w, w', i, ess[i]);
    }
  }

  lemma SlotsCover<E>(w: World<E>, i: nat)
    requires Inv(w) && i < |w.tables|
    ensures w.tables[i].len <= |w.tables[i].slots|
  {
    assert TableOK(w.bs, |w.alloc.refs|, w.tables[i]);
  }

  /** Untouched views are untouched logs. */
  lemma KeptLogs<E>(w: World<E>, w': World<E>)
    requires Inv(w) && Inv(w') && Kept(w, w')
    requires forall i :: 0 <= i < |w.tables| ==> w'.tables[i].len == w.tables[i].len
    ensures Logs(w') == Logs(w)
  {
    var ess: seq<seq<E>> := seq(|w.tables|, i => []);
    LogsAppend(w, w', ess);
    assert forall i :: 0 <= i < |w.tables| ==> Logs(w)[i] + [] == Logs(w)[i];
  }

  /** Same tables and slab, same logs, whatever the counts and the cache do. */
  lemma SameLogs<E>(w: World<E>, w': World<E>)
    requires Inv(w) && Inv(w') && w'.tables == w.tables && w'.slab == w.slab
    ensures Logs(w') == Logs(w)
  {
    hide Inv, Gather;
    forall i | 0 <= i < |w.tables| ensures Gather(w', i) == Gather(w, i) {
      forall j | 0 <= j < w.tables[i].len ensures Gather(w', i)[j] == Gather(w, i)[j] {
        GatherAt(w, i, j);
        GatherAt(w', i, j);
      }
    }
  }

  lemma KeptCache<E>(s: Store<E>, w': World<E>)
    requires StoreOK(s) && StoreOK(s.(w := w')) && forall b :: b in s.w.cached ==> SameBlock(s.w, w', b)
    ensures Cache(s.(w := w')) == Cache(s)
  {
    hide StoreOK, Cache;
    var r := s.(w := w');
    forall k | k in s.pc.entries ensures Cache(r)[k] == Cache(s)[k] {
      EntryFits(s, k);
      CacheIs(s, k);
      CacheIs(r, k);
      assert SameBlock(s.w, w', s.pc.entries[k].block);
    }
  }

  /** Entry `q` for table `x` is the one written for its `q`-th new position. */
  ghost predicate Routed<E>(
    w: World<E>, owner: seq<(nat, nat)>, es: seq<E>, ess: seq<seq<E>>, at: (nat, nat) -> nat, x: nat, q: nat)
    requires x < |w.tables| && x < |ess| && q < |ess[x]|
  {
    var k := at(x, q);
    k < |owner| && k < |es| && owner[k] == (x, w.tables[x].len + q) && es[k] == ess[x][q]
  }

  /** Only new positions are written. */
  ghost predicate Beyond<E>(w: World<E>, owner: seq<(nat, nat)>)
  {
    forall q :: 0 <= q < |owner| ==> owner[q].0 < |w.tables| && owner[q].1 >= w.tables[owner[q].0].len
  }

  lemma PutAppendsAt<E>(w: World<E>, r: World<E>, w': World<E>, owner: seq<(nat, nat)>, es: seq<E>,
                        ess: seq<seq<E>>, at: (nat, nat) -> nat, x: nat)
    requires Kept(w, r) && Beyond(w, owner) && |es| == |owner| && x < |ess| == |w.tables| && w' == r.(slab := w'.slab)
    requires r.tables[x].len == w.tables[x].len + |ess[x]|
    requires forall q :: 0 <= q < |owner| ==>
               owner[q].0 < |r.tables| && Reads(w'.slab, r.tables[owner[q].0], owner[q].1, es[q])
    requires forall i, j | 0 <= i < |r.tables| && 0 <= j < |r.tables[i].slots|
             && (i, j) !in owner :: SameAt(r, w', i, j)
    requires forall q :: 0 <= q < |ess[x]| ==> Routed(w, owner, es, ess, at, x, q)
    ensures Appends(w, w', x, ess[x])
  {
    forall j | 0 <= j < w.tables[x].len && j < |w.tables[x].slots| ensures SameAt(w, w', x, j) {
      assert SameAt(w, r, x, j);
      assert (x, j) !in owner;
      assert SameAt(r, w', x, j);
    }
    forall q | 0 <= q < |ess[x]| ensures Reads(w'.slab, w'.tables[x], w.tables[x].len + q, ess[x][q]) {
      assert Routed(w, owner, es, ess, at, x, q);
      var k := at(x, q);
      assert Reads(w'.slab, r.tables[owner[k].0], owner[k].1, es[k]);
    }
  }

  lemma BlocksStay<E>(w: World<E>, r: World<E>, w': World<E>)
    requires Kept(w, r) && forall b :: b in r.cached ==> SameBlock(r, w', b)
    ensures forall b :: b in w.cached ==> SameBlock(w, w', b)
  {
    forall b | b in w.cached ensures SameBlock(w, w', b) {
      assert SameBlock(w, r, b) && SameBlock(r, w', b);
    }
  }

  /**
    A reservation followed by a scatter into the new positions: every table reads its old log
    followed by its own new entries, and every cached block reads as before.
   */
  lemma PutAppends<E>(w: World<E>, r: World<E>, writes: seq<nat>, owner: seq<(nat, nat)>, es: seq<E>,
                      ess: seq<seq<E>>, at: (nat, nat) -> nat)
    requires Inv(w) && Inv(r) && Kept(w, r) && |ess| == |w.tables|
    requires AllOwned(r, writes, owner) && DistinctOwners(owner) && |es| == |writes| && Beyond(w, owner)
    requires forall x :: 0 <= x < |ess| ==> r.tables[x].len == w.tables[x].len + |ess[x]|
    requires forall x, q :: 0 <= x < |ess| && 0 <= q < |ess[x]| ==> Routed(w, owner, es, ess, at, x, q)
    ensures var w' := r.(slab := Put(r.slab, writes, es)); Inv(w') && Grew(w, w', ess)
  {
    assert |w.tables| == |r.tables| && w.cached == r.cached && |owner| == |writes|;
    var w' := r.(slab := Put(r.slab, writes, es));
    hide Inv, Put, AllOwned, DistinctOwners, Kept, Beyond, Routed, Appends, SameBlock, SameAt, Reads;
    PutIsolated(r, writes, owner, es);
    BlocksStay(w, r, w');
    forall x | 0 <= x < |ess| ensures Appends(w, w', x, ess[x]) {
      PutAppendsAt(w, r, w', owner, es, ess, at, x);
    }
  }

  // -- the operations ------------------------------------------------------------------------------------

  /** `update` over all layers: append `es`, or `OutOfBlocks` and the caller frees the sequence. */
  ghost function Extend<E>(s: Store<E>, i: nat, es: seq<E>): Store<E>
  {
    if !PoolOK(s) || i >= |s.w.tables| then s
    else
      var r := Reserve(s.w, i, |es|);
      if r.ok then s.(w := Filled(s.w, r.w, i, es)) else s.(w := Dropped(r.w, i))
  }

  /** The entries written at the positions the reservation opened. */
  ghost function Filled<E>(w: World<E>, r: World<E>, i: nat, es: seq<E>): World<E>
    requires i < |w.tables|
  {
    if i >= |r.tables| || w.tables[i].len + |es| > |r.tables[i].slots| then r
    else r.(slab := Put(r.slab, r.tables[i].slots[w.tables[i].len..w.tables[i].len + |es|], es))
  }

  ghost function Dropped<E>(w: World<E>, i: nat): World<E>
  {
    if !Inv(w) || i >= |w.tables| then w else TableLive(w, i); Close(w, i)
  }

  /** A batched decode step over the first `|es|` sequences. */
  ghost function BatchStep<E>(s: Store<E>, es: seq<E>): Store<E>
  {
    if !PoolOK(s) || |es| > |s.w.tables| then s
    else
      var r := Prepare(s.w, |es|);
      if r.ok then s.(w := Stepped(s.w, r.w, es)) else s
  }

  ghost function Stepped<E>(w: World<E>, r: World<E>, es: seq<E>): World<E>
    requires |es| <= |w.tables|
  {
    if |r.tables| != |w.tables| || exists x :: 0 <= x < |es| && w.tables[x].len >= |r.tables[x].slots| then r
    else r.(slab := Put(r.slab, seq(|es|, x requires 0 <= x < |es| => r.tables[x].slots[w.tables[x].len]), es))
  }

  lemma ExtendOwned<E>(w: World<E>, r: World<E>, i: nat, n: nat)
    requires Inv(w) && i < |w.tables| && Reserved(w, r, i, n)
    ensures w.tables[i].len + n == r.tables[i].len <= |r.tables[i].slots|
    ensures AllOwned(r, r.tables[i].slots[w.tables[i].len..w.tables[i].len + n],
            Owners(i, w.tables[i].len, w.tables[i].len + n))
  {
    SlotsCover(r, i);
    hide PrivateAt, Kept;
  }

  /** Nothing for anybody but `i`. */
  ghost function Only<E>(n: nat, i: nat, es: seq<E>): (r: seq<seq<E>>)
    ensures |r| == n && forall x :: 0 <= x < n ==> r[x] == if x == i then es else []
  {
    seq(n, x => if x == i then es else [])
  }

  lemma ReservedParts<E>(w: World<E>, r: World<E>, i: nat, n: nat)
    requires i < |w.tables| && Reserved(w, r, i, n)
    ensures Inv(r) && Kept(w, r) && r.bs == w.bs && r.cached == w.cached && |r.tables| == |w.tables|
    ensures forall x :: 0 <= x < |w.tables| ==> r.tables[x].len == w.tables[x].len + if x == i then n else 0
  {
  }

  function First(): (nat, nat) -> nat { (x: nat, q: nat) => x }

  function Second(): (nat, nat) -> nat { (x: nat, q: nat) => q }

  lemma RowOwners<E>(w: World<E>, i: nat, es: seq<E>)
    requires i < |w.tables|
    ensures var owner := Owners(i, w.tables[i].len, w.tables[i].len + |es|);
      && |owner| == |es| && DistinctOwners(owner) && Beyond(w, owner)
      && forall x, q :: 0 <= x < |w.tables| && 0 <= q < |Only(|w.tables|, i, es)[x]| ==>
           Routed(w, owner, es, Only(|w.tables|, i, es), Second(), x, q)
  {
  }

  /** What an appending operation leaves: logs grown by `ess`, cached blocks as they were. */
  ghost predicate Grew<E>(w: World<E>, w': World<E>, ess: seq<seq<E>>)
  {
    && |ess| == |w.tables| == |w'.tables|
    && (forall x :: 0 <= x < |ess| ==> Appends(w, w', x, ess[x]))
    && (forall b :: b in w.cached ==> SameBlock(w, w', b))
  }

  lemma ExtendFacts<E>(w: World<E>, r: World<E>, i: nat, es: seq<E>)
    requires Inv(w) && i < |w.tables| && Reserved(w, r, i, |es|)
    ensures var w' := Filled(w, r, i, es);
      && Inv(w') && w'.tables == r.tables && w'.cached == w.cached && w'.bs == w.bs
      && Grew(w, w', Only(|w.tables|, i, es))
  {
    hide Inv, Kept, AllOwned, Reserved, Only, Owners, DistinctOwners, Beyond, Routed;
    var n, ess := w.tables[i].len, Only(|w.tables|, i, es);
    var at: (nat, nat) -> nat := Second();
    ReservedParts(w, r, i, |es|);
    ExtendOwned(w, r, i, |es|);
    RowOwners(w, i, es);
    var writes, owner := r.tables[i].slots[n..n + |es|], Owners(i, n, n + |es|);
    PutAppends(w, r, writes, owner, es, ess, at);
  }

  /** One entry for each of the first `|es|`. */
  ghost function Each<E>(n: nat, es: seq<E>): (r: seq<seq<E>>)
    ensures |r| == n && forall x :: 0 <= x < n ==> r[x] == if x < |es| then [es[x]] else []
  {
    seq(n, x requires 0 <= x < n => if x < |es| then [es[x]] else [])
  }

  ghost function ColumnOwners<E>(w: World<E>, n: nat): (r: seq<(nat, nat)>)
    requires n <= |w.tables|
    ensures |r| == n && forall x :: 0 <= x < n ==> r[x] == (x, w.tables[x].len)
  {
    seq(n, x requires 0 <= x < n => (x, w.tables[x].len))
  }

  ghost function Column<E>(w: World<E>, r: World<E>, n: nat): (ws: seq<nat>)
    requires n <= |w.tables| == |r.tables| && forall x :: 0 <= x < n ==> w.tables[x].len < |r.tables[x].slots|
    ensures |ws| == n && forall x :: 0 <= x < n ==> ws[x] == r.tables[x].slots[w.tables[x].len]
  {
    seq(n, x requires 0 <= x < n => r.tables[x].slots[w.tables[x].len])
  }

  lemma CommittedParts<E>(w: World<E>, r: World<E>, n: nat)
    requires Inv(w) && n <= |w.tables| && Committed(w, r, n) && WritesDistinct(w, r, n)
    ensures Inv(r) && Kept(w, r) && r.bs == w.bs >= 1 && r.cached == w.cached && |r.tables| == |w.tables| && AllTight(r)
    ensures forall x :: 0 <= x < |w.tables| ==> r.tables[x].len == w.tables[x].len + if x < n then 1 else 0
    ensures forall x :: 0 <= x < n ==> w.tables[x].len < |r.tables[x].slots| && PrivateAt(r, x, w.tables[x].len)
  {
  }

  lemma ColumnRouted<E>(w: World<E>, es: seq<E>)
    requires |es| <= |w.tables|
    ensures DistinctOwners(ColumnOwners(w, |es|)) && Beyond(w, ColumnOwners(w, |es|))
    ensures forall x, q :: 0 <= x < |w.tables| && 0 <= q < |Each(|w.tables|, es)[x]| ==>
      Routed(w, ColumnOwners(w, |es|), es, Each(|w.tables|, es), First(), x, q)
  {
  }

  lemma StepFacts<E>(w: World<E>, r: World<E>, es: seq<E>)
    requires Inv(w) && |es| <= |w.tables| && Committed(w, r, |es|) && WritesDistinct(w, r, |es|)
    ensures var w' := Stepped(w, r, es);
      && Inv(w') && w'.tables == r.tables && w'.cached == w.cached && w'.bs == w.bs
      && Grew(w, w', Each(|w.tables|, es))
  {
    var n := |es|;
    CommittedParts(w, r, n);
    hide Committed, WritesDistinct, Inv, Kept, PrivateAt;
    var ws, owner := Column(w, r, n), ColumnOwners(w, n);
    assert seq(n, x requires 0 <= x < n => r.tables[x].slots[w.tables[x].len]) == ws;
    assert AllOwned(r, ws, owner) by {
      forall q | 0 <= q < n ensures Owned(r, ws, owner, q) {}
    }
    ColumnRouted(w, es);
    hide AllOwned, DistinctOwners, Beyond, Routed, Each, ColumnOwners, Column;
    PutAppends(w, r, ws, owner, es, Each(|w.tables|, es), First());
  }

  // -- operations that move tables about -------------------------------------------------------------------

  lemma SameTable<E>(w: World<E>, w': World<E>, i: nat, i': nat)
    requires Inv(w) && Inv(w') && w'.slab == w.slab && i < |w.tables| && i' < |w'.tables|
             && w'.tables[i'] == w.tables[i]
    ensures Gather(w', i') == Gather(w, i)
  {
    hide Inv, Gather;
    forall j | 0 <= j < w.tables[i].len ensures Gather(w', i')[j] == Gather(w, i)[j] {
      GatherAt(w, i, j);
      GatherAt(w', i', j);
    }
  }

  lemma OpenLogs<E>(w: World<E>)
    requires Inv(w)
    ensures Inv(Open(w)) && Logs(Open(w)) == Logs(w) + [[]]
  {
    OpenInv(w);
    hide Inv, Gather;
    forall i | 0 <= i < |w.tables| ensures Gather(Open(w), i) == Gather(w, i) { SameTable(w, Open(w), i, i); }
  }

  lemma ForkLogs<E>(w: World<E>, i: nat)
    requires Inv(w) && i < |w.tables|
    ensures Live(w.alloc, w.tables[i].blocks) && Distinct(w.tables[i].blocks) && Inv(Fork(w, i))
    ensures Logs(Fork(w, i)) == Logs(w) + [Logs(w)[i]]
  {
    ForkInv(w, i);
    var w' := Fork(w, i);
    hide Inv, Gather, Fork;
    assert w'.tables == w.tables + [w.tables[i]] && w'.slab == w.slab by { ForkShape(w, i); }
    forall x | 0 <= x < |w.tables| ensures Gather(w', x) == Gather(w, x) { SameTable(w, w', x, x); }
    SameTable(w, w', i, |w.tables|);
  }

  lemma ForkShape<E>(w: World<E>, i: nat)
    requires Inv(w) && i < |w.tables| && Live(w.alloc, w.tables[i].blocks)
    ensures Fork(w, i).tables == w.tables + [w.tables[i]] && Fork(w, i).slab == w.slab
    ensures Fork(w, i).cached == w.cached && Fork(w, i).bs == w.bs
  {
  }

  lemma DroppedFacts<E>(w: World<E>, i: nat)
    requires Inv(w) && i < |w.tables|
    ensures var w' := Dropped(w, i);
      && Inv(w') && w'.tables == RemoveAt(w.tables, i) && w'.slab == w.slab && w'.cached == w.cached && w'.bs == w.bs
      && Logs(w') == RemoveAt(Logs(w), i)
  {
    CloseInv(w, i);
    var w' := Dropped(w, i);
    assert w'.tables == RemoveAt(w.tables, i) && w'.slab == w.slab;
    hide Inv, Gather, Dropped;
    forall x | 0 <= x < |w'.tables| ensures Gather(w', x) == Gather(w, if x < i then x else x + 1) {
      SameTable(w, w', if x < i then x else x + 1, x);
    }
  }

  /** Reordering the list of live tables renames sequences and does nothing else. */
  ghost function Swapped<T>(s: seq<T>, i: nat, j: nat): (r: seq<T>)
    requires i < |s| && j < |s|
    ensures |r| == |s| && forall x :: 0 <= x < |s| ==> r[x] == if x == j then s[i] else if x == i then s[j] else s[x]
  {
    s[i := s[j]][j := s[i]]
  }

  lemma SwapInv<E>(w: World<E>, i: nat, j: nat)
    requires Inv(w) && i < |w.tables| && j < |w.tables|
    ensures Inv(w.(tables := Swapped(w.tables, i, j)))
    ensures Logs(w.(tables := Swapped(w.tables, i, j))) == Swapped(Logs(w), i, j)
  {
    var ts := w.tables;
    var w' := w.(tables := Swapped(ts, i, j));
    forall b | 0 <= b < |w.alloc.refs| ensures w'.alloc.refs[b] == Owed(w', b) {
      HoldersUpdate(ts, i, ts[j], b);
      HoldersUpdate(ts[i := ts[j]], j, ts[i], b);
      assert w.alloc.refs[b] == Owed(w, b);
    }
    assert Inv(w');
    hide Inv, Gather;
    forall x | 0 <= x < |ts| ensures Gather(w', x) == Gather(w, if x == j then i else if x == i then j else x) {
      SameTable(w, w', if x == j then i else if x == i then j else x, x);
    }
  }

  lemma OthersRefl<E>(w: World<E>, i: nat)
    requires Inv(w) && i < |w.tables|
    ensures OthersKept(w, w, i)
  {
    KeptRefl(w);
    assert w.tables == w.tables[i := w.tables[i]];
  }

  /** A failed reservation has changed nothing anybody can read. */
  lemma ReserveFailed<E>(w: World<E>, i: nat, n: nat)
    requires Inv(w) && i < |w.tables| && !Reserve(w, i, n).ok
    ensures var r := Reserve(w, i, n).w; OthersKept(w, r, i) && r.tables[i].len == w.tables[i].len
  {
    hide Kept, Unshare;
    var u := if w.tables[i].len % w.bs != 0 then Unshare(w, i) else Outcome(true, w);
    UnshareFacts(w, i);
    OthersRefl(w, i);
    assert OthersKept(w, u.w, i);
    if u.ok {
      var k := NumFree(u.w);
      var g := GrowBy(u.w, i, k);
      GrownKept(u.w, g, i, k);
      OthersTrans(w, u.w, g, i);
    }
  }

  lemma KeptParts<E>(w: World<E>, r: World<E>, i: nat)
    requires i < |w.tables| && OthersKept(w, r, i)
    ensures Inv(r) && Kept(w, r) && r.bs == w.bs && r.cached == w.cached && |r.tables| == |w.tables|
    ensures r.tables == w.tables[i := r.tables[i]]
    ensures forall b :: b in w.cached ==> SameBlock(w, r, b)
  {
  }

  // -- operations of the prefix cache ------------------------------------------------------------------------

  /** The blocks one after another. */
  ghost function Flat<E>(ds: seq<seq<E>>): seq<E>
  {
    if ds == [] then [] else Flat(ds[..|ds| - 1]) + ds[|ds| - 1]
  }

  lemma {:induction false} FlatLen<E>(bs: nat, ds: seq<seq<E>>)
    requires forall d :: 0 <= d < |ds| ==> |ds[d]| == bs
    ensures |Flat(ds)| == |ds| * bs
  {
    if ds != [] {
      FlatLen(bs, ds[..|ds| - 1]);
      assert |ds| * bs == (|ds| - 1) * bs + bs;
    }
  }

  lemma {:induction false} FlatAt<E>(bs: nat, ds: seq<seq<E>>, d: nat, o: nat)
    requires (forall x :: 0 <= x < |ds| ==> |ds[x]| == bs) && d < |ds| && o < bs
    ensures d * bs + o < |Flat(ds)| && Flat(ds)[d * bs + o] == ds[d][o]
  {
    var n := |ds| - 1;
    FlatLen(bs, ds[..n]);
    if d < n { FlatAt(bs, ds[..n], d, o); }
  }

  lemma FlatIndex<E>(bs: nat, ds: seq<seq<E>>, j: nat)
    requires bs >= 1 && (forall x :: 0 <= x < |ds| ==> |ds[x]| == bs) && j < |ds| * bs
    ensures j / bs < |ds| && j < |Flat(ds)| && Flat(ds)[j] == ds[j / bs][j % bs]
  {
    hide Flat;
    DivBound(bs, j, |ds|);
    var d, o := DivMod(bs, j);
    FlatAt(bs, ds, d, o);
  }

  lemma CacheLen<E>(s: Store<E>, k: Key)
    requires StoreOK(s) && k in s.pc.entries
    ensures s.w.bs >= 1 && |Cache(s)[k]| == s.w.bs
  {
    EntryFits(s, k);
  }

  /** The cached copies under these keys. */
  ghost function Lookup<E>(cache: map<Key, seq<E>>, keys: seq<Key>): (r: seq<seq<E>>)
    requires forall d :: 0 <= d < |keys| ==> keys[d] in cache
    ensures |r| == |keys| && forall d :: 0 <= d < |keys| ==> r[d] == cache[keys[d]]
  {
    seq(|keys|, d requires 0 <= d < |keys| => cache[keys[d]])
  }

  /** `match` and `attach`: sequence `i`, still empty, takes over the longest cached prefix of `toks`. */
  ghost function Attach<E>(s: Store<E>, i: nat, toks: seq<Token>): Store<E>
  {
    if !PoolOK(s) || i >= |s.w.tables| || s.w.tables[i] != EmptyTable then s
    else
      var keys := HashChain(s.w.bs, toks);
      var n := Hits(s.pc, keys, 0);
      ChainUsable(s.w.bs, toks, n);
      Reuse(s, i, keys[..n])
  }

  /** `insert` for sequence `i`, whose log covers `toks`. */
  ghost function Insert<E>(s: Store<E>, i: nat, toks: seq<Token>): Store<E>
  {
    if !PoolOK(s) || i >= |s.w.tables| || |toks| > s.w.tables[i].len then s
    else InsertUpTo(s, i, HashChain(s.w.bs, toks), |toks| / s.w.bs)
  }

  /** `clear`. */
  ghost function Clear<E>(s: Store<E>): (r: Store<E>)
    decreases |s.pc.entries|
  {
    if !StoreOK(s) || s.pc.entries == map[] then s
    else
      var k :| k in s.pc.entries;
      DropOK(s, k);
      Clear(Drop(s, k))
  }

  lemma AttachedAt<E>(s: Store<E>, w: World<E>, i: nat, keys: seq<Key>, j: nat)
    requires StoreOK(s) && Inv(w) && i < |w.tables| && w.bs == s.w.bs && w.slab == s.w.slab
    requires forall d :: 0 <= d < |keys| ==> keys[d] in s.pc.entries
    requires w.tables[i].blocks == BlocksOf(s.pc, keys) && w.tables[i].len == |keys| * s.w.bs && j < w.tables[i].len
    ensures j / s.w.bs < |keys| && |Cache(s)[keys[j / s.w.bs]]| == s.w.bs
    ensures Gather(w, i)[j] == Cache(s)[keys[j / s.w.bs]][j % s.w.bs]
  {
    GatherAt(w, i, j);
    SlotBounds(w, i, j);
    assert |w.tables[i].blocks| == |keys|;
    var d, o := DivMod(w.bs, j);
    hide StoreOK, Inv, Gather, Cache;
    assert w.tables[i].blocks[d] == s.pc.entries[keys[d]].block;
    CacheIs(s, keys[d]);
    DataAt(s.w, w.tables[i].blocks[d], o);
  }

  lemma DataAt<E>(w: World<E>, b: nat, o: nat)
    requires b * w.bs + w.bs <= |w.slab| && o < w.bs
    ensures b * w.bs + o < |w.slab| && BlockData(w, b)[o] == w.slab[b * w.bs + o]
  {
  }

  lemma AttachedLog<E>(s: Store<E>, w: World<E>, i: nat, keys: seq<Key>)
    requires StoreOK(s) && Inv(w) && i < |w.tables| && w.bs == s.w.bs && w.slab == s.w.slab
    requires forall d :: 0 <= d < |keys| ==> keys[d] in s.pc.entries
    requires w.tables[i].blocks == BlocksOf(s.pc, keys) && w.tables[i].len == |keys| * s.w.bs
    ensures Gather(w, i) == Flat(Lookup(Cache(s), keys))
  {
    hide *;
    var bs, ds := s.w.bs, Lookup(Cache(s), keys);
    forall d | 0 <= d < |keys| ensures |ds[d]| == bs { CacheLen(s, keys[d]); }
    FlatLen(bs, ds);
    forall j | 0 <= j < |keys| * bs ensures Gather(w, i)[j] == Flat(ds)[j] {
      AttachedAt(s, w, i, keys, j);
      CacheLen(s, keys[j / bs]);
      FlatIndex(bs, ds, j);
    }
  }

  lemma BlockIsLog<E>(w: World<E>, i: nat, d: nat)
    requires Inv(w) && i < |w.tables| && d < |w.tables[i].blocks| && d * w.bs + w.bs <= w.tables[i].len
    ensures w.tables[i].blocks[d] * w.bs + w.bs <= |w.slab|
    ensures BlockData(w, w.tables[i].blocks[d]) == Gather(w, i)[d * w.bs..d * w.bs + w.bs]
  {
    var bs, b := w.bs, w.tables[i].blocks[d];
    BlockFits(w, b);
    var data, log := BlockData(w, b), Gather(w, i)[d * bs..d * bs + bs];
    forall o | 0 <= o < bs ensures data[o] == log[o] {
      SlotDivMod(bs, d, o);
      GatherAt(w, i, d * bs + o);
      SlotBounds(w, i, d * bs + o);
    }
  }

  /** Key `k` was registered for table `i`'s block at some depth below `n`. */
  ghost predicate AddedAt<E>(s: Store<E>, r: Store<E>, i: nat, keys: seq<Key>, n: nat, k: Key)
    requires i < |s.w.tables| && k in r.pc.entries
  {
    exists d :: 0 <= d < n && d < |keys| && d < |s.w.tables[i].blocks| && keys[d] == k
      && r.pc.entries[k].block == s.w.tables[i].blocks[d]
  }

  ghost predicate Adds<E>(s: Store<E>, r: Store<E>, i: nat, keys: seq<Key>, n: nat)
    requires i < |s.w.tables|
  {
    && (forall k :: k in s.pc.entries ==> k in r.pc.entries && r.pc.entries[k].block == s.pc.entries[k].block)
    && (forall k :: k in r.pc.entries && k !in s.pc.entries ==> AddedAt(s, r, i, keys, n, k))
  }

  lemma InsertAtEntries<E>(p: Store<E>, i: nat, d: nat, k: Key)
    ensures var r := InsertAt(p, i, d, k);
            && (forall x :: x in p.pc.entries ==> x in r.pc.entries && r.pc.entries[x].block == p.pc.entries[x].block)
            && (forall x :: x in r.pc.entries && x !in p.pc.entries ==>
                  && x == k && i < |p.w.tables| && d < |p.w.tables[i].blocks|
                  && r.pc.entries[x].block == p.w.tables[i].blocks[d])
  {
    hide StoreOK;
  }

  lemma AddsStep<E>(s: Store<E>, p: Store<E>, i: nat, keys: seq<Key>, n: nat)
    requires i < |s.w.tables| && n < |keys| && StoreOK(p) && p.w.tables == s.w.tables && Adds(s, p, i, keys, n)
    ensures Adds(s, InsertAt(p, i, n, keys[n]), i, keys, n + 1)
  {
    hide StoreOK, InsertAt;
    var r := InsertAt(p, i, n, keys[n]);
    InsertAtEntries(p, i, n, keys[n]);
    forall x | x in r.pc.entries && x !in s.pc.entries ensures AddedAt(s, r, i, keys, n + 1, x) {
      if x in p.pc.entries {
        assert AddedAt(s, p, i, keys, n, x);
        var d :| 0 <= d < n && d < |keys| && d < |s.w.tables[i].blocks| && keys[d] == x
          && p.pc.entries[x].block == s.w.tables[i].blocks[d];
        assert r.pc.entries[x].block == p.pc.entries[x].block;
      }
    }
  }

  lemma {:induction false} InsertAdds<E>(s: Store<E>, i: nat, keys: seq<Key>, n: nat)
    requires StoreOK(s) && i < |s.w.tables| && n <= |keys|
    ensures Adds(s, InsertUpTo(s, i, keys, n), i, keys, n)
  {
    hide StoreOK, InsertAt;
    if n > 0 {
      InsertAdds(s, i, keys, n - 1);
      InsertOK(s, i, keys, n - 1);
      AddsStep(s, InsertUpTo(s, i, keys, n - 1), i, keys, n - 1);
    }
  }

  /** Everything cached stays, and what is new is a block of `log` under its chained key. */
  ghost predicate Learned<E>(cache: map<Key, seq<E>>, cache': map<Key, seq<E>>, log: seq<E>, keys: seq<Key>, bs: nat)
  {
    && (forall k :: k in cache ==> k in cache' && cache'[k] == cache[k])
    && (forall k :: k in cache' && k !in cache ==> FromLog(cache'[k], log, keys, bs, k))
  }

  ghost predicate FromLog<E>(data: seq<E>, log: seq<E>, keys: seq<Key>, bs: nat, k: Key)
  {
    exists d :: 0 <= d < |keys| && keys[d] == k && PieceOf(data, log, bs, d)
  }

  ghost predicate PieceOf<E>(data: seq<E>, log: seq<E>, bs: nat, d: nat)
  {
    d * bs + bs <= |log| && data == log[d * bs..d * bs + bs]
  }

  lemma SameData<E>(s: Store<E>, r: Store<E>, k: Key)
    requires StoreOK(s) && StoreOK(r) && r.w.slab == s.w.slab && r.w.bs == s.w.bs
    requires k in s.pc.entries && k in r.pc.entries && r.pc.entries[k].block == s.pc.entries[k].block
    ensures Cache(r)[k] == Cache(s)[k]
  {
    EntryFits(s, k);
  }

  lemma NewData<E>(s: Store<E>, r: Store<E>, i: nat, toks: seq<Token>, k: Key)
    requires StoreOK(s) && StoreOK(r) && SamePool(s, r) && i < |s.w.tables| && |toks| <= s.w.tables[i].len
    requires k in r.pc.entries && AddedAt(s, r, i, HashChain(s.w.bs, toks), |toks| / s.w.bs, k)
    ensures FromLog(Cache(r)[k], Logs(s.w)[i], HashChain(s.w.bs, toks), s.w.bs, k)
  {
    hide *;
    StoreInv(s);
    var bs, keys := s.w.bs, HashChain(s.w.bs, toks);
    var d := AddedDepth(s, r, i, keys, |toks| / bs, k);
    ChainFits(bs, |toks|, d);
    BlockIsLog(s.w, i, d);
    CacheIs(r, k);
    LogIs(s.w, i);
    SamePoolData(s, r, s.w.tables[i].blocks[d]);
    FromLogIntro(Cache(r)[k], Logs(s.w)[i], keys, bs, k, d);
  }

  lemma AddedDepth<E>(s: Store<E>, r: Store<E>, i: nat, keys: seq<Key>, n: nat, k: Key) returns (d: nat)
    requires i < |s.w.tables| && k in r.pc.entries && AddedAt(s, r, i, keys, n, k)
    ensures d < n && d < |keys| && d < |s.w.tables[i].blocks| && keys[d] == k
            && r.pc.entries[k].block == s.w.tables[i].blocks[d]
  {
    d :| 0 <= d < n && d < |keys| && d < |s.w.tables[i].blocks| && keys[d] == k
      && r.pc.entries[k].block == s.w.tables[i].blocks[d];
  }

  lemma CacheIs<E>(s: Store<E>, k: Key)
    requires StoreOK(s) && k in s.pc.entries
    ensures s.pc.entries[k].block * s.w.bs + s.w.bs <= |s.w.slab|
            && Cache(s)[k] == BlockData(s.w, s.pc.entries[k].block)
  {
    EntryFits(s, k);
  }

  lemma LogIs<E>(w: World<E>, i: nat)
    requires Inv(w) && i < |w.tables|
    ensures Logs(w)[i] == Gather(w, i)
  {
  }

  lemma SamePoolData<E>(s: Store<E>, r: Store<E>, b: nat)
    requires SamePool(s, r) && b * s.w.bs + s.w.bs <= |s.w.slab|
    ensures b * r.w.bs + r.w.bs <= |r.w.slab| && BlockData(r.w, b) == BlockData(s.w, b)
  {
  }

  lemma FromLogIntro<E>(data: seq<E>, log: seq<E>, keys: seq<Key>, bs: nat, k: Key, d: nat)
    requires d < |keys| && keys[d] == k && d * bs + bs <= |log| && data == log[d * bs..d * bs + bs]
    ensures FromLog(data, log, keys, bs, k)
  {
    assert PieceOf(data, log, bs, d);
  }

  lemma InsertLearns<E>(s: Store<E>, i: nat, toks: seq<Token>)
    requires PoolOK(s) && i < |s.w.tables| && |toks| <= s.w.tables[i].len
    ensures var r := Insert(s, i, toks);
      && PoolOK(r) && r.w.bs == s.w.bs && Logs(r.w) == Logs(s.w)
      && Learned(Cache(s), Cache(r), Logs(s.w)[i], HashChain(s.w.bs, toks), s.w.bs)
  {
    var r := Insert(s, i, toks);
    InsertKeeps(s, i, toks);
    hide PoolOK, InsertUpTo, Insert, Cache, Logs, Learned;
    LearnedBy(s, r, i, toks);
  }

  lemma InsertKeeps<E>(s: Store<E>, i: nat, toks: seq<Token>)
    requires PoolOK(s) && i < |s.w.tables| && |toks| <= s.w.tables[i].len
    ensures var r := Insert(s, i, toks);
      && PoolOK(r) && r.w.bs == s.w.bs && Logs(r.w) == Logs(s.w)
      && StoreOK(s) && StoreOK(r) && SamePool(s, r) && Adds(s, r, i, HashChain(s.w.bs, toks), |toks| / s.w.bs)
  {
    var r := Insert(s, i, toks);
    InsertOK(s, i, HashChain(s.w.bs, toks), |toks| / s.w.bs);
    InsertAdds(s, i, HashChain(s.w.bs, toks), |toks| / s.w.bs);
    assert AllTight(r.w);
    assert Logs(r.w) == Logs(s.w) by { StoreInv(s); StoreInv(r); SameLogs(s.w, r.w); }
  }

  lemma LearnedBy<E>(s: Store<E>, r: Store<E>, i: nat, toks: seq<Token>)
    requires StoreOK(s) && StoreOK(r) && i < |s.w.tables| && |toks| <= s.w.tables[i].len
    requires SamePool(s, r) && Adds(s, r, i, HashChain(s.w.bs, toks), |toks| / s.w.bs)
    ensures Learned(Cache(s), Cache(r), Logs(s.w)[i], HashChain(s.w.bs, toks), s.w.bs)
  {
    var keys := HashChain(s.w.bs, toks);
    hide StoreOK, HashChain, Cache, Logs, FromLog, AddedAt;
    forall k | k in s.pc.entries ensures k in Cache(r) && Cache(r)[k] == Cache(s)[k] {
      SameData(s, r, k);
    }
    forall k | k in r.pc.entries && k !in s.pc.entries ensures FromLog(Cache(r)[k], Logs(s.w)[i], keys, s.w.bs, k) {
      NewData(s, r, i, toks, k);
    }
  }

  /** Some entries are gone; the others are as they were. */
  ghost predicate Forgets<E>(cache: map<Key, seq<E>>, cache': map<Key, seq<E>>)
  {
    forall k :: k in cache' ==> k in cache && cache'[k] == cache[k]
  }

  lemma DroppedEntries<E>(s: Store<E>, r: Store<E>)
    requires StoreOK(s) && StoreOK(r) && AllTight(s.w)
    requires r.w.tables == s.w.tables && r.w.slab == s.w.slab && r.w.bs == s.w.bs
    requires forall k :: k in r.pc.entries ==> k in s.pc.entries && r.pc.entries[k] == s.pc.entries[k]
    ensures PoolOK(r) && Logs(r.w) == Logs(s.w) && Forgets(Cache(s), Cache(r))
  {
    assert AllTight(r.w);
    assert Logs(r.w) == Logs(s.w) by { StoreInv(s); StoreInv(r); SameLogs(s.w, r.w); }
    hide StoreOK, Cache, Logs, AllTight;
    forall k | k in r.pc.entries ensures k in Cache(s) && Cache(r)[k] == Cache(s)[k] {
      SameData(s, r, k);
    }
  }

  lemma {:induction false} ClearFacts<E>(s: Store<E>)
    requires StoreOK(s)
    ensures var r := Clear(s);
      && StoreOK(r) && r.w.tables == s.w.tables && r.w.slab == s.w.slab && r.w.bs == s.w.bs && r.pc.entries == map[]
    decreases |s.pc.entries|
  {
    if s.pc.entries != map[] {
      var k :| k in s.pc.entries && Clear(s) == Clear(Drop(s, k));
      DropOK(s, k);
      assert Drop(s, k).pc.entries == s.pc.entries - {k};
      hide StoreOK, Drop;
      ClearFacts(Drop(s, k));
    }
  }

  // -- runs ------------------------------------------------------------------------------------------------------

  datatype Op<E> =
    | DoOpen
    | DoExtend(i: nat, es: seq<E>)
    | DoStep(es: seq<E>)
    | DoFork(i: nat)
    | DoFree(i: nat)
    | DoSwap(i: nat, j: nat)
    | DoAttach(i: nat, toks: seq<Token>)
    | DoInsert(i: nat, toks: seq<Token>)
    | DoEvict(n: nat)
    | DoClear

  /** One operation on the paged pool. */
  ghost function Perform<E>(s: Store<E>, op: Op<E>): Store<E>
    requires PoolOK(s)
  {
    var w := s.w;
    match op
    case DoOpen => s.(w := Open(w))
    case DoExtend(i, es) => Extend(s, i, es)
    case DoStep(es) => BatchStep(s, es)
    case DoFork(i) => if i < |w.tables| then TableLive(w, i); s.(w := Fork(w, i)) else s
    case DoFree(i) => s.(w := Dropped(w, i))
    case DoSwap(i, j) => if i < |w.tables| && j < |w.tables| then s.(w := w.(tables := Swapped(w.tables, i, j))) else s
    case DoAttach(i, toks) => Attach(s, i, toks)
    case DoInsert(i, toks) => Insert(s, i, toks)
    case DoEvict(n) => Evict(s, n)
    case DoClear => Clear(s)
  }

  /** The longest prefix of `keys` that is cached has `n` of them. */
  ghost predicate LongestHit<E>(cache: map<Key, seq<E>>, keys: seq<Key>, n: nat)
  {
    n <= |keys| && (forall d :: 0 <= d < n ==> keys[d] in cache) && (n < |keys| ==> keys[n] !in cache)
  }

  /** The same operation where every sequence has a log and every entry a copy of its own. */
  ghost predicate CopyStep<E>(bs: nat, op: Op<E>, a: Copies<E>, a': Copies<E>)
    requires bs >= 1
  {
    match op
    case DoOpen => a' == Copies(a.logs + [[]], a.cache)
    case DoExtend(i, es) =>
      if i >= |a.logs| then a' == a
      else a' == Copies(a.logs[i := a.logs[i] + es], a.cache) || a' == Copies(RemoveAt(a.logs, i), a.cache)
    case DoStep(es) =>
      || a' == a
      || (|es| <= |a.logs| == |a'.logs| && a'.cache == a.cache
          && forall x :: 0 <= x < |a.logs| ==> a'.logs[x] == a.logs[x] + if x < |es| then [es[x]] else [])
    case DoFork(i) => a' == if i < |a.logs| then Copies(a.logs + [a.logs[i]], a.cache) else a
    case DoFree(i) => a' == if i < |a.logs| then Copies(RemoveAt(a.logs, i), a.cache) else a
    case DoSwap(i, j) =>
      a' == if i < |a.logs| && j < |a.logs| then Copies(Swapped(a.logs, i, j), a.cache) else a
    case DoAttach(i, toks) =>
      if i < |a.logs| && a.logs[i] == [] then
        exists n: nat :: LongestHit(a.cache, HashChain(bs, toks), n)
                    && a' == Copies(a.logs[i := Flat(Lookup(a.cache, HashChain(bs, toks)[..n]))], a.cache)
      else a' == a
    case DoInsert(i, toks) =>
      if i < |a.logs| && |toks| <= |a.logs[i]| then
        a'.logs == a.logs && Learned(a.cache, a'.cache, a.logs[i], HashChain(bs, toks), bs)
      else a' == a
    case DoEvict(n) => a'.logs == a.logs && Forgets(a.cache, a'.cache)
    case DoClear => a' == Copies(a.logs, map[])
  }

  /** What one operation owes: the invariant, and the same step on the copies. */
  ghost predicate Faithful<E>(s: Store<E>, op: Op<E>, s': Store<E>)
    requires PoolOK(s)
  {
    PoolOK(s') && s'.w.bs == s.w.bs && CopyStep(s.w.bs, op, Abs(s), Abs(s'))
  }

  lemma StoreWith<E>(s: Store<E>, w': World<E>)
    requires StoreOK(s) && Inv(w') && w'.cached == s.w.cached
    ensures StoreOK(s.(w := w'))
  {
  }

  lemma SlabKept<E>(s: Store<E>, w': World<E>)
    requires StoreOK(s) && Inv(w') && w'.cached == s.w.cached && w'.slab == s.w.slab && w'.bs == s.w.bs
    ensures StoreOK(s.(w := w')) && Cache(s.(w := w')) == Cache(s)
  {
    StoreWith(s, w');
    assert forall b :: b in s.w.cached ==> SameBlock(s.w, w', b) by {
      forall b | b in s.w.cached ensures SameBlock(s.w, w', b) { BlockFits(s.w, b); }
    }
    KeptCache(s, w');
  }

  lemma OpenFaithful<E>(s: Store<E>)
    requires PoolOK(s)
    ensures Faithful(s, DoOpen, Perform(s, DoOpen))
  {
    StoreInv(s);
    OpenLogs(s.w);
    SlabKept(s, Open(s.w));
    assert AllTight(Open(s.w));
  }

  lemma ForkFaithful<E>(s: Store<E>, i: nat)
    requires PoolOK(s)
    ensures Faithful(s, DoFork(i), Perform(s, DoFork(i)))
  {
    StoreInv(s);
    if i < |s.w.tables| {
      ForkLogs(s.w, i);
      ForkShape(s.w, i);
      SlabKept(s, Fork(s.w, i));
      assert AllTight(Fork(s.w, i));
    }
  }

  lemma FreeFaithful<E>(s: Store<E>, i: nat)
    requires PoolOK(s)
    ensures Faithful(s, DoFree(i), Perform(s, DoFree(i)))
  {
    StoreInv(s);
    if i < |s.w.tables| {
      DroppedFacts(s.w, i);
      SlabKept(s, Dropped(s.w, i));
      assert AllTight(Dropped(s.w, i));
    }
  }

  lemma SwapFaithful<E>(s: Store<E>, i: nat, j: nat)
    requires PoolOK(s)
    ensures Faithful(s, DoSwap(i, j), Perform(s, DoSwap(i, j)))
  {
    StoreInv(s);
    if i < |s.w.tables| && j < |s.w.tables| {
      var w' := s.w.(tables := Swapped(s.w.tables, i, j));
      SwapInv(s.w, i, j);
      SlabKept(s, w');
      assert AllTight(w');
    }
  }

  lemma GrewFaithful<E>(s: Store<E>, w': World<E>, ess: seq<seq<E>>)
    requires StoreOK(s) && Inv(w') && w'.cached == s.w.cached && Grew(s.w, w', ess)
    ensures StoreOK(s.(w := w')) && Cache(s.(w := w')) == Cache(s)
    ensures |Logs(w')| == |Logs(s.w)| == |ess| && forall x :: 0 <= x < |ess| ==> Logs(w')[x] == Logs(s.w)[x] + ess[x]
  {
    StoreInv(s);
    StoreWith(s, w');
    hide StoreOK, Inv, Appends, SameBlock, Cache, Logs;
    KeptCache(s, w');
    LogsAppend(s.w, w', ess);
  }

  lemma ExtendFaithful<E>(s: Store<E>, i: nat, es: seq<E>)
    requires PoolOK(s)
    ensures Faithful(s, DoExtend(i, es), Perform(s, DoExtend(i, es)))
  {
    StoreInv(s);
    if i < |s.w.tables| {
      var r := Reserve(s.w, i, |es|);
      ReserveFacts(s.w, i, |es|);
      if r.ok {
        ExtendOk(s, r.w, i, es);
      } else {
        ExtendFails(s, i, es);
      }
    }
  }

  lemma ReservedTight<E>(w: World<E>, r: World<E>, i: nat, n: nat)
    requires w.bs >= 1 && i < |w.tables| && AllTight(w) && Reserved(w, r, i, n)
    ensures r.bs >= 1 && AllTight(r)
  {
  }

  lemma ExtendOk<E>(s: Store<E>, r: World<E>, i: nat, es: seq<E>)
    requires PoolOK(s) && s.w.bs >= 1 && i < |s.w.tables| && Reserved(s.w, r, i, |es|)
    ensures Faithful(s, DoExtend(i, es), s.(w := Filled(s.w, r, i, es)))
  {
    var w', ess := Filled(s.w, r, i, es), Only(|s.w.tables|, i, es);
    StoreInv(s);
    ReservedTight(s.w, r, i, |es|);
    hide StoreOK, Reserved, Inv, Grew, Filled, Only, Logs, Cache;
    ExtendFacts(s.w, r, i, es);
    assert AllTight(w');
    hide AllTight;
    GrewFaithful(s, w', ess);
    var a := Logs(s.w);
    assert forall x :: 0 <= x < |a| && x != i ==> a[x] + [] == a[x];
    assert Logs(w') == a[i := a[i] + es];
  }

  lemma ExtendFails<E>(s: Store<E>, i: nat, es: seq<E>)
    requires PoolOK(s) && Inv(s.w) && i < |s.w.tables| && !Reserve(s.w, i, |es|).ok
    ensures Faithful(s, DoExtend(i, es), s.(w := Dropped(Reserve(s.w, i, |es|).w, i)))
  {
    var r := Reserve(s.w, i, |es|).w;
    ReserveFailed(s.w, i, |es|);
    KeptParts(s.w, r, i);
    KeptLogs(s.w, r);
    StoreWith(s, r);
    KeptCache(s, r);
    DroppedFacts(r, i);
    var w' := Dropped(r, i);
    SlabKept(s.(w := r), w');
    assert AllTight(w');
  }

  lemma StepFaithful<E>(s: Store<E>, es: seq<E>)
    requires PoolOK(s)
    ensures Faithful(s, DoStep(es), Perform(s, DoStep(es)))
  {
    StoreInv(s);
    if |es| <= |s.w.tables| {
      var r := Prepare(s.w, |es|);
      PrepareAtomic(s.w, |es|);
      if r.ok { StepOk(s, r.w, es); }
    }
  }

  lemma StepOk<E>(s: Store<E>, r: World<E>, es: seq<E>)
    requires PoolOK(s) && Inv(s.w) && |es| <= |s.w.tables| && Committed(s.w, r, |es|) && WritesDistinct(s.w, r, |es|)
    ensures Faithful(s, DoStep(es), s.(w := Stepped(s.w, r, es)))
  {
    hide StoreOK, Committed, WritesDistinct, Inv, Grew, Stepped, Each, Logs, Cache;
    var w', ess := Stepped(s.w, r, es), Each(|s.w.tables|, es);
    StepFacts(s.w, r, es);
    CommittedParts(s.w, r, |es|);
    assert AllTight(w');
    GrewFaithful(s, w', ess);
  }

  lemma FreshIff<E>(s: Store<E>, i: nat)
    requires PoolOK(s) && i < |s.w.tables|
    ensures s.w.tables[i] == EmptyTable <==> Logs(s.w)[i] == []
  {
    var t := s.w.tables[i];
    assert TableOK(s.w.bs, |s.w.alloc.refs|, t) && Tight(s.w.bs, t);
  }

  lemma AttachFaithful<E>(s: Store<E>, i: nat, toks: seq<Token>)
    requires PoolOK(s)
    ensures Faithful(s, DoAttach(i, toks), Perform(s, DoAttach(i, toks)))
  {
    StoreInv(s);
    if i < |s.w.tables| {
      FreshIff(s, i);
      if s.w.tables[i] == EmptyTable {
        var keys := HashChain(s.w.bs, toks);
        var n := Hits(s.pc, keys, 0);
        ChainUsable(s.w.bs, toks, n);
        AttachOk(s, i, keys, n);
      }
    }
  }

  lemma AttachOk<E>(s: Store<E>, i: nat, keys: seq<Key>, n: nat)
    requires PoolOK(s) && s.w.bs >= 1 && i < |s.w.tables| && s.w.tables[i] == EmptyTable && n <= |keys|
             && DistinctKeys(keys[..n])
    requires (forall d :: 0 <= d < n ==> keys[d] in s.pc.entries) && (n < |keys| ==> keys[n] !in s.pc.entries)
    ensures var r := Reuse(s, i, keys[..n]);
      && PoolOK(r) && r.w.bs == s.w.bs && LongestHit(Cache(s), keys, n)
      && Abs(r) == Copies(Logs(s.w)[i := Flat(Lookup(Cache(s), keys[..n]))], Cache(s))
  {
    var ks := keys[..n];
    var r := Reuse(s, i, ks);
    ReuseOK(s, i, ks);
    ReuseTight(s, r, i, n);
    StoreInv(s);
    StoreInv(r);
    hide *;
    AttachedLogs(s, r.w, i, ks);
    SameIndexCache(s, r);
    AbsIs(r);
    LongestHere(s, keys, n);
    PoolIntro(r);
  }

  lemma PoolIntro<E>(s: Store<E>)
    requires StoreOK(s) && s.w.bs >= 1 && AllTight(s.w)
    ensures PoolOK(s)
  {
  }

  lemma AbsIs<E>(s: Store<E>)
    requires StoreOK(s)
    ensures Inv(s.w) && Abs(s) == Copies(Logs(s.w), Cache(s))
  {
  }

  lemma LongestHere<E>(s: Store<E>, keys: seq<Key>, n: nat)
    requires StoreOK(s) && n <= |keys| && (forall d :: 0 <= d < n ==> keys[d] in s.pc.entries)
             && (n < |keys| ==> keys[n] !in s.pc.entries)
    ensures LongestHit(Cache(s), keys, n)
  {
    hide StoreOK, Cache;
  }

  lemma SameIndexCache<E>(s: Store<E>, r: Store<E>)
    requires StoreOK(s) && StoreOK(r) && r.w.slab == s.w.slab && r.w.bs == s.w.bs && SameIndex(s.pc, r.pc)
    ensures Cache(r) == Cache(s)
  {
    hide StoreOK, Cache;
    forall k | k in s.pc.entries ensures k in r.pc.entries && Cache(r)[k] == Cache(s)[k] {
      SameData(s, r, k);
    }
  }

  lemma AttachedLogs<E>(s: Store<E>, w: World<E>, i: nat, keys: seq<Key>)
    requires StoreOK(s) && Inv(s.w) && Inv(w) && i < |w.tables| == |s.w.tables| && w.bs == s.w.bs && w.slab == s.w.slab
    requires (forall d :: 0 <= d < |keys| ==> keys[d] in s.pc.entries) && w.tables == s.w.tables[i := w.tables[i]]
    requires w.tables[i].blocks == BlocksOf(s.pc, keys) && w.tables[i].len == |keys| * s.w.bs
    ensures Logs(w) == Logs(s.w)[i := Flat(Lookup(Cache(s), keys))]
  {
    hide StoreOK, Inv, Gather, Cache, Lookup, Flat, BlocksOf;
    AttachedLog(s, w, i, keys);
    forall x | 0 <= x < |s.w.tables| && x != i ensures Gather(w, x) == Gather(s.w, x) {
      SameTable(s.w, w, x, x);
    }
  }

  lemma ReuseTight<E>(s: Store<E>, r: Store<E>, i: nat, n: nat)
    requires s.w.bs >= 1 && AllTight(s.w) && i < |s.w.tables| && i < |r.w.tables| && r.w.bs == s.w.bs
    requires r.w.tables == s.w.tables[i := r.w.tables[i]]
    requires |r.w.tables[i].blocks| == n && r.w.tables[i].len == n * s.w.bs
    ensures AllTight(r.w)
  {
    CeilUnique(n * s.w.bs, s.w.bs, n);
  }

  lemma EvictFaithful<E>(s: Store<E>, n: nat)
    requires PoolOK(s)
    ensures Faithful(s, DoEvict(n), Perform(s, DoEvict(n)))
  {
    EvictFacts(s, n);
    DroppedEntries(s, Evict(s, n));
  }

  lemma ClearFaithful<E>(s: Store<E>)
    requires PoolOK(s)
    ensures Faithful(s, DoClear, Perform(s, DoClear))
  {
    ClearFacts(s);
    DroppedEntries(s, Clear(s));
  }

  lemma InsertFaithful<E>(s: Store<E>, i: nat, toks: seq<Token>)
    requires PoolOK(s)
    ensures Faithful(s, DoInsert(i, toks), Perform(s, DoInsert(i, toks)))
  {
    StoreInv(s);
    if i < |s.w.tables| && |toks| <= s.w.tables[i].len {
      InsertLearns(s, i, toks);
    }
  }

  /** Every operation keeps the counts exact and is, on the copies, just what it says. */
  lemma PerformFaithful<E>(s: Store<E>, op: Op<E>)
    requires PoolOK(s)
    ensures Faithful(s, op, Perform(s, op))
  {
    hide *;
    match op
    case DoOpen => OpenFaithful(s);
    case DoExtend(i, es) => ExtendFaithful(s, i, es);
    case DoStep(es) => StepFaithful(s, es);
    case DoFork(i) => ForkFaithful(s, i);
    case DoFree(i) => FreeFaithful(s, i);
    case DoSwap(i, j) => SwapFaithful(s, i, j);
    case DoAttach(i, toks) => AttachFaithful(s, i, toks);
    case DoInsert(i, toks) => InsertFaithful(s, i, toks);
    case DoEvict(n) => EvictFaithful(s, n);
    case DoClear => ClearFaithful(s);
  }

  /** The pool after a run. */
  ghost function After<E>(s: Store<E>, ops: seq<Op<E>>): (r: Store<E>)
    requires PoolOK(s)
    ensures PoolOK(r) && r.w.bs == s.w.bs
  {
    if ops == [] then s
    else
      var n := |ops| - 1;
      PerformFaithful(After(s, ops[..n]), ops[n]);
      Perform(After(s, ops[..n]), ops[n])
  }

  /**
    Over every run, each operation of the paged pool is that operation on private logs and
    copies, and the reference counts stay exact: `PoolOK` holds after every prefix of the run.
   */
  lemma RunRefinesCopies<E>(s: Store<E>, ops: seq<Op<E>>, n: nat)
    requires PoolOK(s) && n < |ops|
    ensures var p, r := After(s, ops[..n]), After(s, ops[..n + 1]);
      && PoolOK(p) && PoolOK(r) && RefsExact(r.w) && AllocOK(r.w.alloc)
      && CopyStep(s.w.bs, ops[n], Abs(p), Abs(r))
  {
    assert ops[..n + 1][..n] == ops[..n];
    PerformFaithful(After(s, ops[..n]), ops[n]);
  }

  /** A fresh pool of `n` blocks, nothing cached. */
  function NewPool<E>(bs: nat, n: nat, slab: seq<E>): Store<E>
  {
    Store(World(bs, Fresh(n), slab, [], {}), NoPrefix)
  }

  lemma NewPoolOK<E>(bs: nat, n: nat, slab: seq<E>)
    requires bs >= 1 && |slab| == n * bs
    ensures PoolOK(NewPool(bs, n, slab)) && Abs(NewPool(bs, n, slab)) == Copies([], map[])
  {
    FreshOK(n);
  }

  // -- tables with blocks to spare ------------------------------------------------------------------------------------

  /**
    Appending `n` entries to table `i` writes to no shared block: every block it will write to
    is held by this table alone, or is its last one and about to be copied.
   */
  ghost predicate SafeToWrite<E>(w: World<E>, i: nat, n: nat)
    requires Inv(w) && i < |w.tables|
  {
    forall x :: 0 <= x < |w.tables[i].blocks| ==> SafeBlock(w, i, n, x)
  }

  ghost predicate SafeBlock<E>(w: World<E>, i: nat, n: nat, x: nat)
    requires Inv(w) && i < |w.tables| && x < |w.tables[i].blocks|
  {
    var t := w.tables[i];
    n > 0 && t.len / w.bs <= x && x * w.bs < t.len + n ==>
      w.alloc.refs[t.blocks[x]] == 1 || (x == |t.blocks| - 1 && t.len % w.bs != 0)
  }

  /** Block `x` of table `i` after a reservation: private if it was the tail to copy, else as it was. */
  ghost predicate BlockAfter<E>(w: World<E>, r: World<E>, i: nat, x: nat)
    requires Inv(w) && Inv(r) && i < |w.tables| && i < |r.tables| && x < |w.tables[i].blocks|
  {
    var t := w.tables[i];
    && x < |r.tables[i].blocks|
    && if x == |t.blocks| - 1 && t.len % w.bs != 0 then r.alloc.refs[r.tables[i].blocks[x]] == 1
       else r.tables[i].blocks[x] == t.blocks[x] && r.alloc.refs[t.blocks[x]] == w.alloc.refs[t.blocks[x]]
  }

  lemma CowBlock<E>(w: World<E>, i: nat, x: nat)
    requires CanCow(w, i) && x < |w.tables[i].blocks| - 1
    ensures var r := Cow(w, i);
      && Inv(r) && r.tables[i].blocks[x] == w.tables[i].blocks[x]
      && r.alloc.refs[w.tables[i].blocks[x]] == w.alloc.refs[w.tables[i].blocks[x]]
  {
    CowInv(w, i);
    TableLive(w, i);
    assert Last(w.alloc) in w.alloc.free;
  }

  lemma UnshareBlock<E>(w: World<E>, i: nat, x: nat)
    requires Inv(w) && i < |w.tables| && x < |w.tables[i].blocks| && w.tables[i].len % w.bs != 0 && Unshare(w, i).ok
    ensures Inv(Unshare(w, i).w) && i < |Unshare(w, i).w.tables| && BlockAfter(w, Unshare(w, i).w, i, x)
  {
    UnshareFacts(w, i);
    if SharedTail(w, i) && x < |w.tables[i].blocks| - 1 { CowBlock(w, i, x); }
  }

  lemma ReserveBlock<E>(w: World<E>, i: nat, n: nat, x: nat)
    requires Inv(w) && i < |w.tables| && x < |w.tables[i].blocks| && Reserve(w, i, n).ok
    ensures var r := Reserve(w, i, n).w;
            && Inv(r) && i < |r.tables| && BlockAfter(w, r, i, x)
  {
    var u := if w.tables[i].len % w.bs != 0 then Unshare(w, i) else Outcome(true, w);
    if w.tables[i].len % w.bs != 0 { UnshareBlock(w, i, x); UnshareFacts(w, i); }
    assert BlockAfter(w, u.w, i, x);
    TableLive(u.w, i);
    var k := Shortfall(u.w, i, n);
    var g := GrowBy(u.w, i, k);
    ReserveRoom(u.w, g, i, n);
    BumpInv(g, i, n);
  }

  lemma ReserveRoom<E>(u: World<E>, g: World<E>, i: nat, n: nat)
    requires Inv(u) && i < |u.tables| && Grown(u, g, i, Shortfall(u, i, n))
    ensures g.tables[i].len + n <= |g.tables[i].slots|
  {
    var want := CeilDiv(u.tables[i].len + n, u.bs);
    MulMono(want, |g.tables[i].blocks|, u.bs);
    assert TableOK(g.bs, |g.alloc.refs|, g.tables[i]);
  }

  /** Blocks a reservation adds are private. */
  lemma ReserveNew<E>(w: World<E>, i: nat, n: nat, x: nat)
    requires Inv(w) && i < |w.tables| && Reserve(w, i, n).ok
    ensures var r := Reserve(w, i, n).w;
      && i < |r.tables| && r.tables[i].len == w.tables[i].len + n
      && (|w.tables[i].blocks| <= x < |r.tables[i].blocks| ==> Private(r, r.tables[i].blocks[x]))
  {
    UnshareFacts(w, i);
  }

  /**
    Exactly when an append is isolated, for any table, also one that a failed append left with
    blocks to spare: the positions it opens are all in blocks of its own if and only if no block
    it will write to is shared, but for a last block about to be copied.
   */
  lemma AppendIsolatedIff<E>(w: World<E>, i: nat, n: nat)
    requires Inv(w) && i < |w.tables| && Reserve(w, i, n).ok
    ensures var r := Reserve(w, i, n).w;
      && Inv(r) && i < |r.tables| && r.bs == w.bs
      && (SafeToWrite(w, i, n) <==> forall j :: w.tables[i].len <= j < w.tables[i].len + n ==> PrivateAt(r, i, j))
  {
    var r, t := Reserve(w, i, n).w, w.tables[i];
    ReserveShape(w, i, n);
    hide Reserve, Inv, Unshare;
    if SafeToWrite(w, i, n) {
      forall j | t.len <= j < t.len + n ensures PrivateAt(r, i, j) {
        SafeThenPrivate(w, r, i, n, j);
      }
    }
    if forall j :: t.len <= j < t.len + n ==> PrivateAt(r, i, j) {
      forall x | 0 <= x < |t.blocks| ensures SafeBlock(w, i, n, x) {
        PrivateThenSafe(w, r, i, n, x);
      }
    }
  }

  lemma ReserveShape<E>(w: World<E>, i: nat, n: nat)
    requires Inv(w) && i < |w.tables| && Reserve(w, i, n).ok
    ensures var r := Reserve(w, i, n).w;
            && Inv(r) && i < |r.tables| && r.bs == w.bs
            && r.tables[i].len == w.tables[i].len + n
  {
    UnshareFacts(w, i);
    var u := if w.tables[i].len % w.bs != 0 then Unshare(w, i) else Outcome(true, w);
    var g := GrowBy(u.w, i, Shortfall(u.w, i, n));
    ReserveRoom(u.w, g, i, n);
    BumpInv(g, i, n);
  }

  lemma SafeThenPrivate<E>(w: World<E>, r: World<E>, i: nat, n: nat, j: nat)
    requires Inv(w) && i < |w.tables| && Reserve(w, i, n) == Outcome(true, r) && SafeToWrite(w, i, n)
    requires Inv(r) && r.bs == w.bs && i < |r.tables| && r.tables[i].len == w.tables[i].len + n
    requires w.tables[i].len <= j < w.tables[i].len + n
    ensures PrivateAt(r, i, j)
  {
    var t := w.tables[i];
    SlotsCover(r, i);
    SlotBounds(r, i, j);
    var x, o := DivMod(w.bs, j);
    hide Reserve, Inv;
    ReserveNew(w, i, n, x);
    if x < |t.blocks| {
      ReserveBlock(w, i, n, x);
      assert SafeBlock(w, i, n, x);
      DivOrder(w.bs, t.len, j);
    }
  }

  lemma DivOrder(bs: nat, a: nat, b: nat)
    requires bs >= 1 && a <= b
    ensures a / bs <= b / bs
  {
    var d, o := DivMod(bs, a);
    var d', o' := DivMod(bs, b);
    assert (d' + 1) * bs == d' * bs + bs;
    MulLess(d, d' + 1, bs);
  }

  lemma PrivateThenSafe<E>(w: World<E>, r: World<E>, i: nat, n: nat, x: nat)
    requires Inv(w) && i < |w.tables| && Reserve(w, i, n) == Outcome(true, r) && x < |w.tables[i].blocks|
    requires Inv(r) && r.bs == w.bs && i < |r.tables| && r.tables[i].len == w.tables[i].len + n
    requires forall j :: w.tables[i].len <= j < w.tables[i].len + n ==> PrivateAt(r, i, j)
    ensures SafeBlock(w, i, n, x)
  {
    hide Reserve, Inv, Private;
    ReserveBlock(w, i, n, x);
    var t := w.tables[i];
    if n > 0 && t.len / w.bs <= x && x * w.bs < t.len + n {
      var j := PositionIn(w.bs, t.len, n, x);
      assert PrivateAt(r, i, j);
      PrivateCount(r, i, j);
    }
  }

  lemma PrivateCount<E>(w: World<E>, i: nat, j: nat)
    requires Inv(w) && i < |w.tables| && PrivateAt(w, i, j)
    ensures w.alloc.refs[w.tables[i].blocks[j / w.bs]] == 1
  {
  }

  lemma PositionIn(bs: nat, len: nat, n: nat, x: nat) returns (j: nat)
    requires bs >= 1 && n > 0 && len / bs <= x && x * bs < len + n
    ensures len <= j < len + n && j / bs == x
  {
    if x * bs < len {
      j := len;
      var d, o := DivMod(bs, len);
      assert (d + 1) * bs == d * bs + bs;
      MulLess(x, d + 1, bs);
    } else {
      j := x * bs;
      SlotDivMod(bs, x, 0);
    }
  }

  /**
    A failed append can leave such a table. On a pool of one one-token block, appending two
    tokens fails holding the block; a fork of that sequence then writes to the block both hold.
   */
  lemma ForkAfterFailure<E>(e: E) returns (f: World<E>, g: World<E>)
    ensures var w := World(1, Fresh(1), [e], [EmptyTable], {}); Inv(w) && Reserve(w, 0, 2) == Outcome(false, f)
    ensures Inv(f) && f.tables == [Table([0], 0, [0])] && Live(f.alloc, [0]) && g == Fork(f, 0)
    ensures Inv(g) && |g.tables| == 2 && Reserve(g, 1, 1).ok && !SafeToWrite(g, 1, 1)
  {
    f := FailedAppend(e);
    hide Reserve, Inv;
    g := ForkSpare(f);
  }

  lemma FailedAppend<E>(e: E) returns (f: World<E>)
    ensures var w := World(1, Fresh(1), [e], [EmptyTable], {}); Inv(w) && Reserve(w, 0, 2) == Outcome(false, f)
    ensures Inv(f) && f.bs == 1 && f.tables == [Table([0], 0, [0])] && |f.alloc.refs| == 1
  {
    var w := World(1, Fresh(1), [e], [EmptyTable], {});
    FreshOK(1);
    OneEmpty(w);
    CeilUnique(2, 1, 2);
    f := GrowBy(w, 0, 1);
    GrowOnce(w, 0);
    assert Reserve(w, 0, 2) == Outcome(false, f) by { assert w.tables[0].len % 1 == 0; }
    hide Reserve, Inv, GrowBy;
    assert f.tables[0] == AppendBlock(1, EmptyTable, 0);
    assert f.tables[0].slots == [0] && f.tables[0].blocks == [0];
    assert f.tables[0] == Table([0], 0, [0]);
  }

  lemma GrowOnce<E>(w: World<E>, i: nat)
    requires Inv(w) && i < |w.tables| && NumFree(w) >= 1
    ensures GrowBy(w, i, 1) == Grow(w, i)
  {
    assert GrowBy(w, i, 0) == w;
  }

  lemma ForkSpare<E>(f: World<E>) returns (g: World<E>)
    requires Inv(f) && f.bs == 1 && f.tables == [Table([0], 0, [0])] && |f.alloc.refs| == 1
    ensures Live(f.alloc, [0]) && g == Fork(f, 0)
    ensures Inv(g) && |g.tables| == 2 && Reserve(g, 1, 1).ok && !SafeToWrite(g, 1, 1)
  {
    ForkInv(f, 0);
    g := Fork(f, 0);
    ForkShape(f, 0);
    assert g.tables[1] == Table([0], 0, [0]);
    HoldersTwo(g.tables, 0, 1, 0);
    assert g.alloc.refs[0] == Owed(g, 0) >= 2;
    hide Fork;
    assert Shortfall(g, 1, 1) == 0;
    assert !SafeBlock(g, 1, 1, 0);
  }

  lemma OneEmpty<E>(w: World<E>)
    requires w.bs >= 1 && AllocOK(w.alloc) && |w.slab| == |w.alloc.refs| * w.bs && w.tables == [EmptyTable]
             && w.cached == {}
    requires forall b :: 0 <= b < |w.alloc.refs| ==> w.alloc.refs[b] == 0
    ensures Inv(w)
  {
    forall b | 0 <= b < |w.alloc.refs| ensures w.alloc.refs[b] == Owed(w, b) {
      assert w.tables[..0] == [] && Holders(w.tables, b) == Holders([], b);
    }
  }
}
