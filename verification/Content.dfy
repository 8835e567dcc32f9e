/**
  What the slab holds. A table is right for a token sequence when every position it reads
  is the reference entry of the prefix ending there; the cache is right when every block it
  tracks holds the reference entries of exactly the prefix its key stands for.
 */
module Content {
  import opened Allocator
  import opened Arith
  import opened Paging
  import opened Batch
  import opened Transformer
  import opened PrefixCaching

  ghost predicate EntryRight<K, H>(m: Model<K, H>, w: World<seq<K>>, i: nat, toks: seq<Token>, j: nat)
    requires i < |w.tables| && j < |toks|
  {
    var t := w.tables[i];
    j < |t.slots| && t.slots[j] < |w.slab| && w.slab[t.slots[j]] == Ideal(m, toks[..j + 1])
  }

  /** Table `i` reads, at every position, what a cold run over `toks` would have stored. */
  ghost predicate TableRight<K, H>(m: Model<K, H>, w: World<seq<K>>, i: nat, toks: seq<Token>)
  {
    && i < |w.tables| && w.tables[i].len == |toks|
    && forall j :: 0 <= j < |toks| ==> EntryRight(m, w, i, toks, j)
  }

  ghost predicate SlabOK<K>(n: nat, slab: seq<seq<K>>)
  {
    forall s :: 0 <= s < |slab| ==> |slab[s]| == n
  }

  /** Block `b` holds the last block of a cold run over `span`. */
  ghost predicate BlockRight<K, H>(m: Model<K, H>, bs: nat, slab: seq<seq<K>>, b: nat, span: seq<Token>)
  {
    && 1 <= bs <= |span| && b * bs + bs <= |slab|
    && forall o :: 0 <= o < bs ==> OffsetRight(m, bs, slab, b, span, o)
  }

  ghost predicate OffsetRight<K, H>(m: Model<K, H>, bs: nat, slab: seq<seq<K>>, b: nat, span: seq<Token>, o: nat)
    requires bs <= |span| && o < bs && b * bs + bs <= |slab|
  {
    slab[b * bs + o] == Ideal(m, span[..|span| - bs + o + 1])
  }

  ghost predicate CacheRight<K, H>(m: Model<K, H>, s: Store<seq<K>>)
  {
    forall k :: k in s.pc.entries ==> BlockRight(m, s.w.bs, s.w.slab, s.pc.entries[k].block, Span(k))
  }

  lemma TableRightIntro<K, H>(m: Model<K, H>, w: World<seq<K>>, i: nat, toks: seq<Token>)
    requires i < |w.tables| && w.tables[i].len == |toks|
    requires forall j :: 0 <= j < |toks| ==> EntryRight(m, w, i, toks, j)
    ensures TableRight(m, w, i, toks)
  {
  }

  lemma StoreInv<E>(s: Store<E>)
    requires StoreOK(s)
    ensures Inv(s.w) && s.w.bs >= 1
  {
  }

  // -- moving facts along views that did not change ----------------------------

  lemma TableKept<K, H>(m: Model<K, H>, w: World<seq<K>>, w': World<seq<K>>, i: nat, toks: seq<Token>)
    requires Kept(w, w') && TableRight(m, w, i, toks) && w'.tables[i].len == |toks|
    ensures TableRight(m, w', i, toks)
  {
    forall j | 0 <= j < |toks| ensures EntryRight(m, w', i, toks, j) {
      assert EntryRight(m, w, i, toks, j);
      assert SameAt(w, w', i, j);
    }
  }

  lemma BlockKept<K, H>(m: Model<K, H>, w: World<seq<K>>, w': World<seq<K>>, b: nat, span: seq<Token>)
    requires SameBlock(w, w', b) && BlockRight(m, w.bs, w.slab, b, span)
    ensures BlockRight(m, w'.bs, w'.slab, b, span)
  {
    hide Ideal;
    var bs := w.bs;
    forall o | 0 <= o < bs ensures OffsetRight(m, bs, w'.slab, b, span, o) {
      assert OffsetRight(m, bs, w.slab, b, span, o);
      SliceAt(w.slab, w'.slab, b * bs, bs, o);
    }
  }

  lemma SliceAt<T>(x: seq<T>, y: seq<T>, lo: nat, n: nat, o: nat)
    requires o < n && lo + n <= |x| && lo + n <= |y| && x[lo..lo + n] == y[lo..lo + n]
    ensures x[lo + o] == y[lo + o]
  {
    assert x[lo..lo + n][o] == y[lo..lo + n][o];
  }

  lemma CacheKept<K, H>(m: Model<K, H>, s: Store<seq<K>>, w': World<seq<K>>)
    requires StoreOK(s) && CacheRight(m, s) && forall b :: b in s.w.cached ==> SameBlock(s.w, w', b)
    ensures CacheRight(m, s.(w := w'))
  {
    forall k | k in s.pc.entries ensures BlockRight(m, w'.bs, w'.slab, s.pc.entries[k].block, Span(k)) {
      assert EntryOK(s.pc, k);
      BlockKept(m, s.w, w', s.pc.entries[k].block, Span(k));
    }
  }

  // -- reuse -------------------------------------------------------------------

  /**
    A table seeded with the blocks of the hits is right for the tokens they cover: `match`
    hands out what a cold prefill of that prefix would have produced.
   */
  lemma ReuseRight<K, H>(m: Model<K, H>, s: Store<seq<K>>, i: nat, toks: seq<Token>, n: nat)
    requires StoreOK(s) && CacheRight(m, s) && i < |s.w.tables| && s.w.tables[i] == EmptyTable
    requires n <= |toks| / s.w.bs
    requires forall d :: 0 <= d < n ==> HashChain(s.w.bs, toks)[d] in s.pc.entries
    ensures n * s.w.bs <= |toks| && DistinctKeys(HashChain(s.w.bs, toks)[..n])
    ensures TableRight(m, Reuse(s, i, HashChain(s.w.bs, toks)[..n]).w, i, toks[..n * s.w.bs])
  {
    var bs := s.w.bs;
    hide *;
    assert bs >= 1 by { StoreInv(s); }
    ChainUsable(bs, toks, n);
    var keys := HashChain(bs, toks)[..n];
    ReuseOK(s, i, keys);
    var w := Reuse(s, i, keys).w;
    assert Inv(w) by { StoreInv(Reuse(s, i, keys)); }
    forall j | 0 <= j < n * bs ensures EntryRight(m, w, i, toks[..n * bs], j) {
      ReusedAt(m, s, w, i, toks, n, j);
    }
    TableRightIntro(m, w, i, toks[..n * bs]);
  }

  lemma ReusedAt<K, H>(m: Model<K, H>, s: Store<seq<K>>, w: World<seq<K>>, i: nat, toks: seq<Token>, n: nat, j: nat)
    requires StoreOK(s) && CacheRight(m, s) && Inv(w) && w.bs == s.w.bs && w.slab == s.w.slab && i < |w.tables|
    requires n <= |toks| / s.w.bs && j < n * s.w.bs <= |toks|
    requires forall d :: 0 <= d < n ==> HashChain(s.w.bs, toks)[d] in s.pc.entries
    requires w.tables[i].blocks == BlocksOf(s.pc, HashChain(s.w.bs, toks)[..n])
    ensures EntryRight(m, w, i, toks[..n * s.w.bs], j)
  {
    hide Inv, StoreOK, Ideal;
    var bs := w.bs;
    StoreInv(s);
    DivBound(bs, j, n);
    var d, o := DivMod(bs, j);
    var k := HashChain(bs, toks)[d];
    ChainSpan(bs, toks, d);
    ChainFits(bs, |toks|, d);
    var b := s.pc.entries[k].block;
    assert w.tables[i].blocks[d] == b && |w.tables[i].blocks| == n;
    SlotsOf(w, i);
    SlotBounds(w, i, j);
    assert BlockRight(m, bs, w.slab, b, Span(k));
    hide HashChain, BlocksOf, CacheRight;
    assert OffsetRight(m, bs, w.slab, b, Span(k), o);
    assert Span(k)[..|Span(k)| - bs + o + 1] == toks[..j + 1] == toks[..n * bs][..j + 1];
  }

  lemma SlotsOf<E>(w: World<E>, i: nat)
    requires Inv(w) && i < |w.tables|
    ensures |w.tables[i].slots| == |w.tables[i].blocks| * w.bs
  {
    assert TableOK(w.bs, |w.alloc.refs|, w.tables[i]);
  }

  // -- a pass over private slots ------------------------------------------------

  /** Query q writes position `owner[q].1` of table `owner[q].0`, which is private to it. */
  ghost predicate Owned<E>(w: World<E>, writes: seq<nat>, owner: seq<(nat, nat)>, q: nat)
    requires w.bs >= 1 && q < |writes| && q < |owner|
  {
    var (i, j) := owner[q];
    i < |w.tables| && j < |w.tables[i].slots| && w.tables[i].slots[j] == writes[q] && PrivateAt(w, i, j)
  }

  ghost predicate AllOwned<E>(w: World<E>, writes: seq<nat>, owner: seq<(nat, nat)>)
    requires w.bs >= 1
  {
    |owner| == |writes| && forall q :: 0 <= q < |writes| ==> Owned(w, writes, owner, q)
  }

  lemma Unwritten<E>(w: World<E>, writes: seq<nat>, owner: seq<(nat, nat)>, i: nat, j: nat)
    requires Inv(w) && AllOwned(w, writes, owner) && i < |w.tables| && j < |w.tables[i].slots| && (i, j) !in owner
    ensures w.tables[i].slots[j] !in writes
  {
    if w.tables[i].slots[j] in writes {
      var q :| 0 <= q < |writes| && writes[q] == w.tables[i].slots[j];
      assert Owned(w, writes, owner, q);
      PrivateSlot(w, owner[q].0, owner[q].1, i, j);
    }
  }

  lemma CacheUnwritten<E>(w: World<E>, writes: seq<nat>, owner: seq<(nat, nat)>, b: nat, s: nat)
    requires Inv(w) && AllOwned(w, writes, owner) && b in w.cached && b * w.bs <= s < b * w.bs + w.bs
    ensures s !in writes
  {
    if s in writes {
      var q :| 0 <= q < |writes| && writes[q] == s;
      assert Owned(w, writes, owner, q);
      CachedNotPrivate(w, owner[q].0, owner[q].1, b);
    }
  }

  /** `slab` is `w.slab` but for the slots in `writes`. */
  ghost predicate OnlyAt<E>(w: World<E>, writes: seq<nat>, slab: seq<E>)
  {
    |slab| == |w.slab| && forall s :: 0 <= s < |slab| && s !in writes ==> slab[s] == w.slab[s]
  }

  lemma SlabInv<E>(w: World<E>, slab: seq<E>)
    requires Inv(w) && |slab| == |w.slab|
    ensures Inv(w.(slab := slab))
  {
    var w' := w.(slab := slab);
    forall b | 0 <= b < |w.alloc.refs| ensures w'.alloc.refs[b] == Owed(w', b) {
      assert w.alloc.refs[b] == Owed(w, b);
    }
  }

  /**
    Isolation of a forward pass: whatever is scattered to private slots, every position that
    was not written, of every table, and every cached block read as before.
   */
  lemma PassIsolated<E>(w: World<E>, writes: seq<nat>, owner: seq<(nat, nat)>, slab: seq<E>)
    requires Inv(w) && AllOwned(w, writes, owner) && OnlyAt(w, writes, slab)
    ensures Inv(w.(slab := slab))
    ensures forall i, j | 0 <= i < |w.tables| && 0 <= j < |w.tables[i].slots| && (i, j) !in owner ::
              SameAt(w, w.(slab := slab), i, j)
    ensures forall b :: b in w.cached ==> SameBlock(w, w.(slab := slab), b)
  {
    hide Inv, AllOwned;
    var w' := w.(slab := slab);
    SlabInv(w, slab);
    forall i, j | 0 <= i < |w.tables| && 0 <= j < |w.tables[i].slots| && (i, j) !in owner
      ensures SameAt(w, w', i, j)
    {
      SlotBounds(w, i, j);
      Unwritten(w, writes, owner, i, j);
    }
    forall b | b in w.cached ensures SameBlock(w, w', b) {
      CachedLive(w, b);
      BlockFits(w, b);
      var lo := b * w.bs;
      forall s | lo <= s < lo + w.bs ensures slab[s] == w.slab[s] {
        CacheUnwritten(w, writes, owner, b, s);
      }
    }
  }

  lemma TableSlotsDistinct(bs: nat, n: nat, t: Table, j: nat, j': nat)
    requires TableOK(bs, n, t) && j < |t.slots| && j' < |t.slots| && t.slots[j] == t.slots[j']
    ensures j == j'
  {
    SharedSlot(bs, n, t, j, t, j');
    SameDivMod(bs, j, j');
  }

  // -- prefill -------------------------------------------------------------------

  /** Positions `c..len` of a table are written; each reads everything up to itself. */
  ghost function PrefillPlan(t: Table, c: nat): Plan
  {
    if c > t.len || t.len > |t.slots| then Plan([], []) else
      Plan(t.slots[c..t.len], seq(t.len - c, q requires 0 <= q < t.len - c => t.slots[..c + q + 1]))
  }

  ghost function Prefixes(ids: seq<Token>, c: nat): (r: seq<seq<Token>>)
    requires c <= |ids|
  {
    seq(|ids| - c, q requires 0 <= q < |ids| - c => ids[..c + q + 1])
  }

  ghost function Owners(i: nat, c: nat, n: nat): seq<(nat, nat)>
    requires c <= n
  {
    seq(n - c, q requires 0 <= q < n - c => (i, c + q))
  }

  /** Table `i` has room for `ids`, is right up to `c` and private from there on. */
  ghost predicate ReadyFrom<K, H>(m: Model<K, H>, w: World<seq<K>>, i: nat, c: nat, ids: seq<Token>)
  {
    && Inv(w) && SlabOK(m.layers, w.slab) && i < |w.tables| && w.tables[i].len == |ids| && c <= |ids|
    && (forall j :: 0 <= j < c ==> EntryRight(m, w, i, ids, j))
    && (forall j :: c <= j < |ids| ==> PrivateAt(w, i, j))
  }

  lemma PrefillOwned<K, H>(m: Model<K, H>, w: World<seq<K>>, i: nat, c: nat, ids: seq<Token>)
    requires ReadyFrom(m, w, i, c, ids)
    ensures AllOwned(w, PrefillPlan(w.tables[i], c).writes, Owners(i, c, |ids|))
  {
    hide PrivateAt;
  }

  lemma PrefillServed<K, H>(m: Model<K, H>, w: World<seq<K>>, i: nat, c: nat, ids: seq<Token>, q: nat, j: nat)
    requires ReadyFrom(m, w, i, c, ids) && q < |ids| - c && j < c + q + 1
    ensures Served(m, w.slab, PrefillPlan(w.tables[i], c), Prefixes(ids, c), q, j)
  {
    var t, p, toks := w.tables[i], PrefillPlan(w.tables[i], c), Prefixes(ids, c);
    assert toks[q][..j + 1] == ids[..j + 1];
    if j < c {
      assert EntryRight(m, w, i, ids, j);
      PrefillOwned(m, w, i, c, ids);
      Unwritten(w, p.writes, Owners(i, c, |ids|), i, j);
    } else {
      assert p.writes[j - c] == p.sees[q][j] && toks[j - c] == toks[q][..j + 1];
    }
  }

  lemma PrefillSound<K, H>(m: Model<K, H>, w: World<seq<K>>, i: nat, c: nat, ids: seq<Token>)
    requires ReadyFrom(m, w, i, c, ids)
    ensures Sound(m, w.slab, PrefillPlan(w.tables[i], c), Prefixes(ids, c))
  {
    var t, p, toks := w.tables[i], PrefillPlan(w.tables[i], c), Prefixes(ids, c);
    assert forall q, j | 0 <= q < |toks| && 0 <= j < |toks[q]| :: Served(m, w.slab, p, toks, q, j) by {
      forall q, j | 0 <= q < |toks| && 0 <= j < |toks[q]| ensures Served(m, w.slab, p, toks, q, j) {
        PrefillServed(m, w, i, c, ids, q, j);
      }
    }
    forall j | 0 <= j < |t.slots| ensures t.slots[j] < |w.slab| { SlotBounds(w, i, j); }
    forall q, q' | 0 <= q < q' < |p.writes| ensures p.writes[q] != p.writes[q'] {
      if p.writes[q] == p.writes[q'] { TableSlotsDistinct(w.bs, |w.alloc.refs|, t, c + q, c + q'); }
    }
  }

  /** The suffix enters the model at its absolute positions. */
  ghost function Embeds<K, H>(m: Model<K, H>, ids: seq<Token>, c: nat): seq<H>
    requires c <= |ids|
  {
    seq(|ids| - c, q requires 0 <= q < |ids| - c => m.embed(ids[c + q], c + q))
  }

  /** The slab and hidden states after the prompt's suffix `ids[c..]` has gone through the model. */
  ghost function PrefillPass<K, H>(m: Model<K, H>, w: World<seq<K>>, i: nat, c: nat, ids: seq<Token>): Pass<K, H>
    requires i < |w.tables| && c <= |ids|
  {
    RunPlan(m, PrefillPlan(w.tables[i], c), Pass(w.slab, Embeds(m, ids, c)))
  }

  /**
    Running only the suffix over a right prefix gives the right table and samples the
    token a cold run of the whole prompt samples; no other table and no cached block moves.
   */
  lemma PrefillRight<K, H>(m: Model<K, H>, w: World<seq<K>>, i: nat, c: nat, ids: seq<Token>)
    requires ReadyFrom(m, w, i, c, ids) && c < |ids|
    ensures var y := PrefillPass(m, w, i, c, ids);
      && OnlyAt(w, PrefillPlan(w.tables[i], c).writes, y.slab) && SlabOK(m.layers, y.slab)
      && TableRight(m, w.(slab := y.slab), i, ids)
      && |y.hs| == |ids| - c && m.head(y.hs[|ids| - c - 1]) == Next(m, ids)
  {
    var p, toks := PrefillPlan(w.tables[i], c), Prefixes(ids, c);
    PrefillSound(m, w, i, c, ids);
    ForwardRight(m, w.slab, p, toks, Embeds(m, ids, c));
    var y := PrefillPass(m, w, i, c, ids);
    assert Computes(m, p, toks, y, |ids| - c - 1) && ids[..|ids|] == ids;
    hide Sound, RunPlan, ReadyFrom, Computes;
    forall j | 0 <= j < |ids| ensures EntryRight(m, w.(slab := y.slab), i, ids, j) {
      PrefilledAt(m, w, i, c, ids, y, j);
    }
  }

  lemma PrefilledAt<K, H>(m: Model<K, H>, w: World<seq<K>>, i: nat, c: nat, ids: seq<Token>, y: Pass<K, H>, j: nat)
    requires ReadyFrom(m, w, i, c, ids) && j < |ids| && OnlyAt(w, PrefillPlan(w.tables[i], c).writes, y.slab)
    requires forall q :: 0 <= q < |ids| - c ==> Computes(m, PrefillPlan(w.tables[i], c), Prefixes(ids, c), y, q)
    ensures EntryRight(m, w.(slab := y.slab), i, ids, j)
  {
    var p := PrefillPlan(w.tables[i], c);
    if j < c {
      assert EntryRight(m, w, i, ids, j);
      PrefillOwned(m, w, i, c, ids);
      Unwritten(w, p.writes, Owners(i, c, |ids|), i, j);
    } else {
      assert Computes(m, p, Prefixes(ids, c), y, j - c);
    }
  }

  // -- decode ----------------------------------------------------------------------

  /** One query per member of a committed batch: it writes its last position and reads them all. */
  ghost function DecodePlan<E>(w: World<E>, n: nat): Plan
    requires n <= |w.tables|
  {
    if exists i :: 0 <= i < n && !(0 < w.tables[i].len <= |w.tables[i].slots|) then Plan([], []) else
      Plan(seq(n, i requires 0 <= i < n => w.tables[i].slots[w.tables[i].len - 1]),
           seq(n, i requires 0 <= i < n => w.tables[i].slots[..w.tables[i].len]))
  }

  ghost function DecodeOwners<E>(w: World<E>, n: nat): seq<(nat, nat)>
    requires n <= |w.tables| && forall i :: 0 <= i < n ==> 0 < w.tables[i].len
  {
    seq(n, i requires 0 <= i < n => (i, w.tables[i].len - 1))
  }

  /** Every member is right up to its last position, which is private. */
  ghost predicate BatchReady<K, H>(m: Model<K, H>, w: World<seq<K>>, toks: seq<seq<Token>>)
  {
    && Inv(w) && SlabOK(m.layers, w.slab) && |toks| <= |w.tables|
    && (forall i :: 0 <= i < |toks| ==> MemberReady(m, w, toks[i], i))
  }

  ghost predicate MemberReady<K, H>(m: Model<K, H>, w: World<seq<K>>, toks: seq<Token>, i: nat)
    requires i < |w.tables| && w.bs >= 1
  {
    && toks != [] && w.tables[i].len == |toks| <= |w.tables[i].slots|
    && PrivateAt(w, i, |toks| - 1)
    && forall j :: 0 <= j < |toks| - 1 ==> EntryRight(m, w, i, toks, j)
  }

  lemma DecodeOwned<K, H>(m: Model<K, H>, w: World<seq<K>>, toks: seq<seq<Token>>)
    requires BatchReady(m, w, toks)
    ensures forall i :: 0 <= i < |toks| ==> 0 < w.tables[i].len <= |w.tables[i].slots|
    ensures AllOwned(w, DecodePlan(w, |toks|).writes, DecodeOwners(w, |toks|))
  {
    hide PrivateAt, EntryRight;
    forall i | 0 <= i < |toks|
      ensures 0 < w.tables[i].len == |toks[i]| <= |w.tables[i].slots| && PrivateAt(w, i, |toks[i]| - 1) {
      assert MemberReady(m, w, toks[i], i);
    }
  }

  lemma DecodeServed<K, H>(m: Model<K, H>, w: World<seq<K>>, toks: seq<seq<Token>>, i: nat, j: nat)
    requires BatchReady(m, w, toks) && i < |toks| && j < |toks[i]|
    requires forall i :: 0 <= i < |toks| ==> 0 < w.tables[i].len <= |w.tables[i].slots|
    ensures Served(m, w.slab, DecodePlan(w, |toks|), toks, i, j)
  {
    var p := DecodePlan(w, |toks|);
    assert MemberReady(m, w, toks[i], i);
    if j < |toks[i]| - 1 {
      assert EntryRight(m, w, i, toks[i], j);
      DecodeOwned(m, w, toks);
      Unwritten(w, p.writes, DecodeOwners(w, |toks|), i, j);
    } else {
      assert p.writes[i] == p.sees[i][j] && toks[i] == toks[i][..j + 1];
    }
  }

  lemma DecodeWritesDistinct<K, H>(m: Model<K, H>, w: World<seq<K>>, toks: seq<seq<Token>>, i: nat, i': nat)
    requires BatchReady(m, w, toks) && i < i' < |toks|
    requires forall i :: 0 <= i < |toks| ==> 0 < w.tables[i].len <= |w.tables[i].slots|
    ensures DecodePlan(w, |toks|).writes[i] != DecodePlan(w, |toks|).writes[i']
  {
    assert MemberReady(m, w, toks[i], i);
    if DecodePlan(w, |toks|).writes[i] == DecodePlan(w, |toks|).writes[i'] {
      PrivateSlot(w, i, w.tables[i].len - 1, i', w.tables[i'].len - 1);
    }
  }

  lemma DecodePlanOK<K, H>(m: Model<K, H>, w: World<seq<K>>, toks: seq<seq<Token>>)
    requires BatchReady(m, w, toks)
    requires forall i :: 0 <= i < |toks| ==> 0 < w.tables[i].len <= |w.tables[i].slots|
    ensures PlanOK(m.layers, w.slab, DecodePlan(w, |toks|))
    ensures forall i :: 0 <= i < |toks| ==> toks[i] != [] && |DecodePlan(w, |toks|).sees[i]| == |toks[i]|
  {
    forall i, j | 0 <= i < |toks| && 0 <= j < |w.tables[i].slots| ensures w.tables[i].slots[j] < |w.slab| {
      SlotBounds(w, i, j);
    }
    forall i | 0 <= i < |toks| ensures toks[i] != [] && w.tables[i].len == |toks[i]| {
      assert MemberReady(m, w, toks[i], i);
    }
  }

  lemma DecodeSound<K, H>(m: Model<K, H>, w: World<seq<K>>, toks: seq<seq<Token>>)
    requires BatchReady(m, w, toks)
    ensures forall i :: 0 <= i < |toks| ==> 0 < w.tables[i].len <= |w.tables[i].slots|
    ensures Sound(m, w.slab, DecodePlan(w, |toks|), toks)
  {
    DecodeOwned(m, w, toks);
    DecodePlanOK(m, w, toks);
    var p := DecodePlan(w, |toks|);
    hide BatchReady, PlanOK, Served, AllOwned, DecodeOwners;
    forall i, j | 0 <= i < |toks| && 0 <= j < |toks[i]| ensures Served(m, w.slab, p, toks, i, j) {
      DecodeServed(m, w, toks, i, j);
    }
    forall i, i' | 0 <= i < i' < |toks| ensures p.writes[i] != p.writes[i'] {
      DecodeWritesDistinct(m, w, toks, i, i');
    }
  }

  ghost function DecodePass<K, H>(m: Model<K, H>, w: World<seq<K>>, toks: seq<seq<Token>>): Pass<K, H>
    requires |toks| <= |w.tables| && forall i :: 0 <= i < |toks| ==> toks[i] != []
  {
    RunPlan(m, DecodePlan(w, |toks|), Pass(w.slab, LastEmbeds(m, toks)))
  }

  ghost function LastEmbeds<K, H>(m: Model<K, H>, toks: seq<seq<Token>>): seq<H>
    requires forall i :: 0 <= i < |toks| ==> toks[i] != []
  {
    seq(|toks|, i requires 0 <= i < |toks| => m.embed(toks[i][|toks[i]| - 1], |toks[i]| - 1))
  }

  /**
    A batched decode step is as many independent sequential steps: every member's table is
    right for its extended sequence, and it samples what it would have sampled alone.
   */
  lemma DecodeRight<K, H>(m: Model<K, H>, w: World<seq<K>>, toks: seq<seq<Token>>)
    requires BatchReady(m, w, toks)
    ensures forall i :: 0 <= i < |toks| ==> toks[i] != [] && 0 < w.tables[i].len <= |w.tables[i].slots|
    ensures var y := DecodePass(m, w, toks);
      && OnlyAt(w, DecodePlan(w, |toks|).writes, y.slab) && SlabOK(m.layers, y.slab) && |y.hs| == |toks|
      && forall i :: 0 <= i < |toks| ==>
           TableRight(m, w.(slab := y.slab), i, toks[i]) && m.head(y.hs[i]) == Next(m, toks[i])
  {
    DecodeSound(m, w, toks);
    var y, p := DecodePass(m, w, toks), DecodePlan(w, |toks|);
    ForwardRight(m, w.slab, p, toks, LastEmbeds(m, toks));
    hide Sound, RunPlan, TableRight, Computes, Served;
    forall i | 0 <= i < |toks| ensures TableRight(m, w.(slab := y.slab), i, toks[i]) {
      DecodedAt(m, w, toks, y, i);
    }
    forall i | 0 <= i < |toks| ensures m.head(y.hs[i]) == Next(m, toks[i]) {
      ComputesNext(m, p, toks, y, i);
    }
  }

  lemma ComputesNext<K, H>(m: Model<K, H>, p: Plan, toks: seq<seq<Token>>, y: Pass<K, H>, i: nat)
    requires Computes(m, p, toks, y, i)
    ensures i < |y.hs| && i < |toks| && toks[i] != [] && m.head(y.hs[i]) == Next(m, toks[i])
  {
  }

  lemma DecodedAt<K, H>(m: Model<K, H>, w: World<seq<K>>, toks: seq<seq<Token>>, y: Pass<K, H>, i: nat)
    requires BatchReady(m, w, toks) && i < |toks|
    requires forall i :: 0 <= i < |toks| ==> 0 < w.tables[i].len <= |w.tables[i].slots|
    requires OnlyAt(w, DecodePlan(w, |toks|).writes, y.slab)
    requires forall i :: 0 <= i < |toks| ==> Computes(m, DecodePlan(w, |toks|), toks, y, i)
    ensures TableRight(m, w.(slab := y.slab), i, toks[i])
  {
    var p, w' := DecodePlan(w, |toks|), w.(slab := y.slab);
    assert MemberReady(m, w, toks[i], i);
    DecodeOwned(m, w, toks);
    forall j | 0 <= j < |toks[i]| ensures EntryRight(m, w', i, toks[i], j) {
      if j < |toks[i]| - 1 {
        assert EntryRight(m, w, i, toks[i], j);
        Unwritten(w, p.writes, DecodeOwners(w, |toks|), i, j);
      } else {
        assert Computes(m, p, toks, y, i) && toks[i][..j + 1] == toks[i];
      }
    }
  }

  // -- insertion ---------------------------------------------------------------------

  /** A full block of a right table holds exactly the prefix its chained key stands for. */
  lemma TableBlockRight<K, H>(m: Model<K, H>, w: World<seq<K>>, i: nat, ids: seq<Token>, d: nat)
    requires Inv(w) && TableRight(m, w, i, ids) && d < |ids| / w.bs && d < |w.tables[i].blocks|
    ensures (d + 1) * w.bs <= |ids|
    ensures BlockRight(m, w.bs, w.slab, w.tables[i].blocks[d], ids[..(d + 1) * w.bs])
  {
    var bs, b := w.bs, w.tables[i].blocks[d];
    ChainFits(bs, |ids|, d);
    BlockFits(w, b);
    var span := ids[..(d + 1) * bs];
    forall o | 0 <= o < bs ensures OffsetRight(m, bs, w.slab, b, span, o) {
      var j := d * bs + o;
      SlotDivMod(bs, d, o);
      assert EntryRight(m, w, i, ids, j);
      SlotBounds(w, i, j);
      assert span[..|span| - bs + o + 1] == ids[..j + 1];
    }
  }

  lemma InsertAtRight<K, H>(m: Model<K, H>, s: Store<seq<K>>, i: nat, ids: seq<Token>, d: nat)
    requires StoreOK(s) && CacheRight(m, s) && TableRight(m, s.w, i, ids) && d < |ids| / s.w.bs
    ensures CacheRight(m, InsertAt(s, i, d, HashChain(s.w.bs, ids)[d]))
  {
    var k := HashChain(s.w.bs, ids)[d];
    var r := InsertAt(s, i, d, k);
    ChainSpan(s.w.bs, ids, d);
    if d < |s.w.tables[i].blocks| {
      TableBlockRight(m, s.w, i, ids, d);
    }
    hide HashChain, BlockRight, TableRight, Inv, PrefixOK;
    forall x | x in r.pc.entries ensures BlockRight(m, r.w.bs, r.w.slab, r.pc.entries[x].block, Span(x)) {
      assert x in s.pc.entries ==> BlockRight(m, s.w.bs, s.w.slab, s.pc.entries[x].block, Span(x));
    }
  }

  lemma {:induction false} InsertRight<K, H>(m: Model<K, H>, s: Store<seq<K>>, i: nat, ids: seq<Token>, n: nat)
    requires StoreOK(s) && CacheRight(m, s) && i < |s.w.tables| && TableRight(m, s.w, i, ids) && n <= |ids| / s.w.bs
    ensures CacheRight(m, InsertUpTo(s, i, HashChain(s.w.bs, ids), n))
  {
    hide *;
    StoreInv(s);
    var keys := HashChain(s.w.bs, ids);
    InsertUnfold(s, i, keys, n);
    if n > 0 {
      InsertRight(m, s, i, ids, n - 1);
      InsertOK(s, i, keys, n - 1);
      var p := InsertUpTo(s, i, keys, n - 1);
      SamePoolRight(m, s, p, i, ids);
      InsertAtRight(m, p, i, ids, n - 1);
    }
  }

  lemma SamePoolRight<K, H>(m: Model<K, H>, s: Store<seq<K>>, r: Store<seq<K>>, i: nat, toks: seq<Token>)
    requires TableRight(m, s.w, i, toks) && SamePool(s, r)
    ensures TableRight(m, r.w, i, toks) && r.w.bs == s.w.bs
  {
    forall j | 0 <= j < |toks| ensures EntryRight(m, r.w, i, toks, j) {
      assert EntryRight(m, s.w, i, toks, j);
    }
  }

  // -- entries keep one projection per layer -------------------------------------------

  lemma UnshareSlabOK<K>(n: nat, w: World<seq<K>>, i: nat)
    requires Inv(w) && i < |w.tables| && SlabOK(n, w.slab)
    ensures SlabOK(n, Unshare(w, i).w.slab)
  {
    if SharedTail(w, i) && w.alloc.free != [] {
      assert Last(w.alloc) in w.alloc.free;
      BlockFits(w, Last(w.alloc));
      BlockFits(w, Tail(w.tables[i]));
      hide Inv, SlabOK;
      CopySlabOK(n, w.bs, w.slab, Tail(w.tables[i]), Last(w.alloc));
    }
  }

  lemma CopySlabOK<K>(n: nat, bs: nat, slab: seq<seq<K>>, src: nat, dst: nat)
    requires src * bs + bs <= |slab| && dst * bs + bs <= |slab| && SlabOK(n, slab)
    ensures SlabOK(n, CopyBlock(bs, slab, src, dst))
  {
    var r, s, d := CopyBlock(bs, slab, src, dst), src * bs, dst * bs;
    forall x | 0 <= x < |r| ensures |r[x]| == n {
      assert r[x] == if d <= x < d + bs then slab[s + (x - d)] else slab[x];
    }
  }

  lemma ReserveSlabOK<K>(n: nat, w: World<seq<K>>, i: nat, k: nat)
    requires Inv(w) && i < |w.tables| && SlabOK(n, w.slab)
    ensures SlabOK(n, Reserve(w, i, k).w.slab)
  {
    UnshareFacts(w, i);
    UnshareSlabOK(n, w, i);
  }

  lemma {:induction false} CommitSlabOK<K>(n: nat, w: World<seq<K>>, k: nat)
    requires SlabOK(n, w.slab)
    ensures SlabOK(n, Commit(w, k).w.slab)
  {
    hide SlabOK, Turn;
    if k > 0 {
      CommitSlabOK(n, w, k - 1);
      TurnSlabOK(n, Commit(w, k - 1), k - 1);
    }
  }

  lemma TurnSlabOK<K>(n: nat, o: Outcome<seq<K>>, i: nat)
    requires SlabOK(n, o.w.slab)
    ensures SlabOK(n, Turn(o, i).w.slab)
  {
    hide Inv, SlabOK, Reserve;
    if o.ok && Inv(o.w) && i < |o.w.tables| { ReserveSlabOK(n, o.w, i, 1); }
  }
}
