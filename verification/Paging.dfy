/**
  Block tables, copy-on-write and the reference-count invariant
  (engine/block_manager.py, `PagedKVCache`), as values.

  A `World` is everything that can hold a block: the allocator, the flat slab of
  slots, the live block tables and the blocks the prefix cache tracks. The steps
  below are the atomic moves every operation of the engine is made of.
 */
module Paging {
  import opened Allocator
  import opened Arith

  /** One sequence's block table, with the physical slot of each of its positions. */
  datatype Table = Table(blocks: seq<nat>, len: nat, slots: seq<nat>)

  const EmptyTable := Table([], 0, [])

  datatype World<E> = World(
    bs: nat,             // tokens per block
    alloc: Alloc,
    slab: seq<E>,        // the flat KV slab, one entry per slot
    tables: seq<Table>,  // live tables
    cached: set<nat>)    // blocks the prefix cache holds a reference on

  ghost predicate TableOK(bs: nat, n: nat, t: Table)
  {
    && bs >= 1
    && Distinct(t.blocks)
    && (forall i :: 0 <= i < |t.blocks| ==> t.blocks[i] < n)
    && |t.slots| == |t.blocks| * bs
    && t.len <= |t.slots|
    && (forall j :: 0 <= j < |t.slots| ==> SlotOK(bs, t, j))
  }

  ghost predicate SlotOK(bs: nat, t: Table, j: nat)
    requires bs >= 1 && j < |t.slots|
  {
    j / bs < |t.blocks| && t.slots[j] == t.blocks[j / bs] * bs + j % bs
  }

  /** How many live tables list block `b`. */
  ghost function Holders(ts: seq<Table>, b: nat): nat
  {
    if ts == [] then 0 else
      Holders(ts[..|ts| - 1], b) + if b in ts[|ts| - 1].blocks then 1 else 0
  }

  ghost function Owed<E>(w: World<E>, b: nat): nat
  {
    Holders(w.tables, b) + if b in w.cached then 1 else 0
  }

  /** A block's count is the number of live tables listing it, plus one if it is cached. */
  ghost predicate RefsExact<E>(w: World<E>)
  {
    forall b :: 0 <= b < |w.alloc.refs| ==> w.alloc.refs[b] == Owed(w, b)
  }

  ghost predicate Inv<E>(w: World<E>)
  {
    && w.bs >= 1
    && AllocOK(w.alloc)
    && |w.slab| == |w.alloc.refs| * w.bs
    && (forall i :: 0 <= i < |w.tables| ==> TableOK(w.bs, |w.alloc.refs|, w.tables[i]))
    && (forall b :: b in w.cached ==> b < |w.alloc.refs|)
    && RefsExact(w)
  }

  // -- Holders ---------------------------------------------------------------

  lemma {:induction false} HoldersUpdate(ts: seq<Table>, i: nat, t: Table, b: nat)
    requires i < |ts|
    ensures Holders(ts[i := t], b) + (if b in ts[i].blocks then 1 else 0)
         == Holders(ts, b) + if b in t.blocks then 1 else 0
  {
    var n := |ts| - 1;
    if i == n {
      assert ts[i := t][..n] == ts[..n];
    } else {
      HoldersUpdate(ts[..n], i, t, b);
      assert ts[i := t][..n] == ts[..n][i := t];
    }
  }

  lemma {:induction false} HoldersRemove(ts: seq<Table>, i: nat, b: nat)
    requires i < |ts|
    ensures Holders(ts[..i] + ts[i + 1..], b) + (if b in ts[i].blocks then 1 else 0) == Holders(ts, b)
  {
    var n := |ts| - 1;
    var r := ts[..i] + ts[i + 1..];
    if i == n {
      assert r == ts[..n];
    } else {
      HoldersRemove(ts[..n], i, b);
      assert r[..n - 1] == ts[..n][..i] + ts[..n][i + 1..];
      assert r[n - 1] == ts[n];
    }
  }

  lemma {:induction false} HoldersAppend(ts: seq<Table>, t: Table, b: nat)
    ensures Holders(ts + [t], b) == Holders(ts, b) + if b in t.blocks then 1 else 0
  {
    assert (ts + [t])[..|ts|] == ts;
  }

  lemma {:induction false} HoldersPositive(ts: seq<Table>, i: nat, b: nat)
    requires i < |ts| && b in ts[i].blocks
    ensures Holders(ts, b) >= 1
  {
    HoldersUpdate(ts, i, EmptyTable, b);
  }

  lemma {:induction false} HoldersTwo(ts: seq<Table>, i: nat, j: nat, b: nat)
    requires i < |ts| && j < |ts| && i != j && b in ts[i].blocks && b in ts[j].blocks
    ensures Holders(ts, b) >= 2
  {
    HoldersUpdate(ts, i, EmptyTable, b);
    HoldersPositive(ts[i := EmptyTable], j, b);
  }

  lemma Unheld<E>(w: World<E>, b: nat)
    requires Inv(w) && b < |w.alloc.refs| && w.alloc.refs[b] == 0
    ensures b !in w.cached && forall i :: 0 <= i < |w.tables| ==> b !in w.tables[i].blocks
  {
    forall i | 0 <= i < |w.tables| ensures b !in w.tables[i].blocks {
      if b in w.tables[i].blocks { HoldersPositive(w.tables, i, b); }
    }
  }

  /** A listed block is never on the free list. */
  lemma TableLive<E>(w: World<E>, i: nat)
    requires Inv(w) && i < |w.tables|
    ensures Live(w.alloc, w.tables[i].blocks)
  {
    forall x | 0 <= x < |w.tables[i].blocks| ensures w.alloc.refs[w.tables[i].blocks[x]] > 0 {
      HoldersPositive(w.tables, i, w.tables[i].blocks[x]);
    }
  }

  // -- tables ----------------------------------------------------------------

  /** The slots of block `b`. */
  function BlockSlots(bs: nat, b: nat): (r: seq<nat>)
    ensures |r| == bs && forall o :: 0 <= o < bs ==> r[o] == b * bs + o
  {
    seq(bs, o requires 0 <= o < bs => b * bs + o)
  }

  /** `_append_block`. */
  function AppendBlock(bs: nat, t: Table, b: nat): Table
  {
    Table(t.blocks + [b], t.len, t.slots + BlockSlots(bs, b))
  }

  /** The table after `_unshare_tail` has swapped its last block for `b`. */
  function ReplaceTail(bs: nat, t: Table, b: nat): Table
    requires t.blocks != [] && bs <= |t.slots|
  {
    Table(t.blocks[|t.blocks| - 1 := b], t.len, t.slots[..|t.slots| - bs] + BlockSlots(bs, b))
  }

  lemma AppendBlockOK(bs: nat, n: nat, t: Table, b: nat)
    requires TableOK(bs, n, t) && b < n && b !in t.blocks
    ensures TableOK(bs, n, AppendBlock(bs, t, b))
  {
    var r := AppendBlock(bs, t, b);
    var q := |t.blocks|;
    assert |r.slots| == q * bs + bs == (q + 1) * bs;
    forall j | 0 <= j < |r.slots| ensures SlotOK(bs, r, j) {
      if j < |t.slots| {
        assert SlotOK(bs, t, j);
      } else {
        SlotDivMod(bs, q, j - q * bs);
      }
    }
  }

  lemma DropTailOK(bs: nat, n: nat, t: Table)
    requires TableOK(bs, n, t) && t.blocks != []
    ensures bs <= |t.slots| && TableOK(bs, n, Table(t.blocks[..|t.blocks| - 1], 0, t.slots[..|t.slots| - bs]))
  {
    var q := |t.blocks| - 1;
    assert |t.slots| == q * bs + bs;
    var r := Table(t.blocks[..q], 0, t.slots[..q * bs]);
    forall j | 0 <= j < |r.slots| ensures SlotOK(bs, r, j) {
      assert SlotOK(bs, t, j);
      DivBound(bs, j, q);
    }
  }

  lemma LenOK(bs: nat, n: nat, t: Table, len: nat)
    requires TableOK(bs, n, t) && len <= |t.slots|
    ensures TableOK(bs, n, t.(len := len))
  {
    forall j | 0 <= j < |t.slots| ensures SlotOK(bs, t.(len := len), j) { assert SlotOK(bs, t, j); }
  }

  lemma ReplaceTailOK(bs: nat, n: nat, t: Table, b: nat)
    requires TableOK(bs, n, t) && t.blocks != [] && b < n && b !in t.blocks
    ensures bs <= |t.slots| && TableOK(bs, n, ReplaceTail(bs, t, b))
  {
    DropTailOK(bs, n, t);
    var t0 := Table(t.blocks[..|t.blocks| - 1], 0, t.slots[..|t.slots| - bs]);
    AppendBlockOK(bs, n, t0, b);
    var r := AppendBlock(bs, t0, b);
    assert t.blocks[|t.blocks| - 1 := b] == r.blocks && |r.slots| == |t.slots|;
    LenOK(bs, n, r, t.len);
  }

  // -- atomic steps ----------------------------------------------------------

  function NumFree<E>(w: World<E>): nat { |w.alloc.free| }

  /** `_ensure_capacity`'s loop body: one fresh block onto table `i`. */
  function Grow<E>(w: World<E>, i: nat): World<E>
    requires i < |w.tables| && AllocOK(w.alloc) && w.alloc.free != []
  {
    w.(alloc := Take(w.alloc),
       tables := w.tables[i := AppendBlock(w.bs, w.tables[i], Last(w.alloc))])
  }

  /** `copy_block`. */
  function CopyBlock<E>(bs: nat, slab: seq<E>, src: nat, dst: nat): (r: seq<E>)
    requires src * bs + bs <= |slab| && dst * bs + bs <= |slab|
    ensures |r| == |slab|
    ensures forall s :: 0 <= s < |slab| ==>
      r[s] == if dst * bs <= s < dst * bs + bs then slab[src * bs + (s - dst * bs)] else slab[s]
  {
    slab[..dst * bs] + slab[src * bs..src * bs + bs] + slab[dst * bs + bs..]
  }

  function Tail(t: Table): nat
    requires t.blocks != []
  {
    t.blocks[|t.blocks| - 1]
  }

  ghost predicate CanCow<E>(w: World<E>, i: nat)
  {
    Inv(w) && i < |w.tables| && w.alloc.free != [] && w.tables[i].blocks != []
    && w.alloc.refs[Tail(w.tables[i])] > 1
  }

  lemma TailFits<E>(w: World<E>, i: nat)
    requires Inv(w) && i < |w.tables| && w.tables[i].blocks != [] && w.alloc.free != []
    ensures AllocOK(w.alloc) && Tail(w.tables[i]) < |w.alloc.refs|
    ensures Tail(w.tables[i]) * w.bs + w.bs <= |w.slab| && Last(w.alloc) * w.bs + w.bs <= |w.slab|
    ensures Tail(w.tables[i]) != Last(w.alloc) && w.bs <= |w.tables[i].slots|
  {
    hide Inv;
    TailRange(w, i);
    Unheld(w, Last(w.alloc));
    BlockFits(w, Tail(w.tables[i]));
    BlockFits(w, Last(w.alloc));
    MulMono(1, |w.tables[i].blocks|, w.bs);
  }

  lemma TailRange<E>(w: World<E>, i: nat)
    requires Inv(w) && i < |w.tables| && w.tables[i].blocks != [] && w.alloc.free != []
    ensures AllocOK(w.alloc) && Tail(w.tables[i]) < |w.alloc.refs| && Last(w.alloc) < |w.alloc.refs|
    ensures w.alloc.refs[Last(w.alloc)] == 0 && |w.tables[i].slots| == |w.tables[i].blocks| * w.bs
  {
    assert Last(w.alloc) in w.alloc.free;
    assert TableOK(w.bs, |w.alloc.refs|, w.tables[i]);
  }

  /** `_unshare_tail` when the tail is shared: copy it into a fresh block of our own. */
  function Cow<E>(w: World<E>, i: nat): World<E>
    requires CanCow(w, i)
  {
    var t := w.tables[i];
    var spare := Last(w.alloc);
    TailFits(w, i);
    w.(alloc := Dec(Take(w.alloc), Tail(t)),
       slab := CopyBlock(w.bs, w.slab, Tail(t), spare),
       tables := w.tables[i := ReplaceTail(w.bs, t, spare)])
  }

  /** Position bookkeeping: `num_tokens += n`. */
  function Bump<E>(w: World<E>, i: nat, n: nat): World<E>
    requires i < |w.tables|
  {
    w.(tables := w.tables[i := w.tables[i].(len := w.tables[i].len + n)])
  }

  /** A block is private to table `i`: nobody else could notice a write. */
  ghost predicate Private<E>(w: World<E>, b: nat)
  {
    b < |w.alloc.refs| && w.alloc.refs[b] == 1
  }

  function Open<E>(w: World<E>): World<E>
  {
    w.(tables := w.tables + [EmptyTable])
  }

  /** `fork`. */
  function Fork<E>(w: World<E>, i: nat): World<E>
    requires i < |w.tables| && AllocOK(w.alloc)
    requires Distinct(w.tables[i].blocks) && Live(w.alloc, w.tables[i].blocks)
  {
    w.(alloc := IncAll(w.alloc, w.tables[i].blocks), tables := w.tables + [w.tables[i]])
  }

  /** `free`, and the table is gone. */
  function Close<E>(w: World<E>, i: nat): World<E>
    requires i < |w.tables| && AllocOK(w.alloc)
    requires Distinct(w.tables[i].blocks) && Live(w.alloc, w.tables[i].blocks)
  {
    w.(alloc := DecAll(w.alloc, w.tables[i].blocks),
       tables := w.tables[..i] + w.tables[i + 1..])
  }

  /** The slot list of a table of `blocks`. */
  function AllSlots(bs: nat, blocks: seq<nat>): (r: seq<nat>)
    ensures |r| == |blocks| * bs
  {
    if blocks == [] then [] else
      var n := |blocks| - 1;
      assert |blocks| * bs == n * bs + bs;
      AllSlots(bs, blocks[..n]) + BlockSlots(bs, blocks[n])
  }

  /** `match` takes a reference on each cached block, and `attach` makes a fresh table of them. */
  function Seed<E>(w: World<E>, i: nat, blocks: seq<nat>): World<E>
    requires i < |w.tables| && AllocOK(w.alloc) && Distinct(blocks) && Live(w.alloc, blocks)
  {
    w.(alloc := IncAll(w.alloc, blocks),
       tables := w.tables[i := Table(blocks, |blocks| * w.bs, AllSlots(w.bs, blocks))])
  }

  /** `insert` registers a block. */
  function Register<E>(w: World<E>, b: nat): World<E>
    requires AllocOK(w.alloc) && b < |w.alloc.refs| && w.alloc.refs[b] > 0
  {
    w.(alloc := Inc(w.alloc, b), cached := w.cached + {b})
  }

  /** `evict` and `clear` release a block. */
  function Unregister<E>(w: World<E>, b: nat): World<E>
    requires AllocOK(w.alloc) && b < |w.alloc.refs| && w.alloc.refs[b] > 0
  {
    w.(alloc := Dec(w.alloc, b), cached := w.cached - {b})
  }

  // -- every step keeps the invariant ----------------------------------------

  lemma GrowInv<E>(w: World<E>, i: nat)
    requires Inv(w) && i < |w.tables| && w.alloc.free != []
    ensures Inv(Grow(w, i))
  {
    var spare := Last(w.alloc);
    assert spare in w.alloc.free;
    Unheld(w, spare);
    AppendBlockOK(w.bs, |w.alloc.refs|, w.tables[i], spare);
    var w' := Grow(w, i);
    forall b | 0 <= b < |w.alloc.refs| ensures w'.alloc.refs[b] == Owed(w', b) {
      HoldersUpdate(w.tables, i, w'.tables[i], b);
      assert w.alloc.refs[b] == Owed(w, b);
    }
  }

  lemma CowInv<E>(w: World<E>, i: nat)
    requires CanCow(w, i)
    ensures Inv(Cow(w, i))
  {
    var spare := Last(w.alloc);
    assert spare in w.alloc.free;
    Unheld(w, spare);
    var t := w.tables[i];
    ReplaceTailOK(w.bs, |w.alloc.refs|, t, spare);
    var w' := Cow(w, i);
    assert t.blocks == t.blocks[..|t.blocks| - 1] + [Tail(t)];
    assert w'.tables[i].blocks == t.blocks[..|t.blocks| - 1] + [spare];
    forall b | 0 <= b < |w.alloc.refs| ensures w'.alloc.refs[b] == Owed(w', b) {
      HoldersUpdate(w.tables, i, w'.tables[i], b);
      assert w.alloc.refs[b] == Owed(w, b);
    }
  }

  lemma BumpInv<E>(w: World<E>, i: nat, n: nat)
    requires Inv(w) && i < |w.tables| && w.tables[i].len + n <= |w.tables[i].slots|
    ensures Inv(Bump(w, i, n))
  {
    var w' := Bump(w, i, n);
    forall j | 0 <= j < |w'.tables[i].slots| ensures SlotOK(w.bs, w'.tables[i], j) {
      assert SlotOK(w.bs, w.tables[i], j);
    }
    forall b | 0 <= b < |w.alloc.refs| ensures w'.alloc.refs[b] == Owed(w', b) {
      HoldersUpdate(w.tables, i, w'.tables[i], b);
    }
  }

  lemma OpenInv<E>(w: World<E>)
    requires Inv(w)
    ensures Inv(Open(w))
  {
    forall b | 0 <= b < |w.alloc.refs| ensures w.alloc.refs[b] == Owed(Open(w), b) {
      HoldersAppend(w.tables, EmptyTable, b);
    }
  }

  lemma ForkInv<E>(w: World<E>, i: nat)
    requires Inv(w) && i < |w.tables|
    ensures Live(w.alloc, w.tables[i].blocks) && Inv(Fork(w, i))
  {
    TableLive(w, i);
    var w' := Fork(w, i);
    forall b | 0 <= b < |w.alloc.refs| ensures w'.alloc.refs[b] == Owed(w', b) {
      HoldersAppend(w.tables, w.tables[i], b);
    }
  }

  lemma CloseInv<E>(w: World<E>, i: nat)
    requires Inv(w) && i < |w.tables|
    ensures Live(w.alloc, w.tables[i].blocks) && Inv(Close(w, i)) && NumFree(w) <= NumFree(Close(w, i))
  {
    TableLive(w, i);
    var w' := Close(w, i);
    forall b | 0 <= b < |w.alloc.refs| ensures w'.alloc.refs[b] == Owed(w', b) {
      HoldersRemove(w.tables, i, b);
    }
  }

  lemma CachedLive<E>(w: World<E>, b: nat)
    requires Inv(w) && b in w.cached
    ensures b < |w.alloc.refs| && w.alloc.refs[b] > 0
  {
    assert w.alloc.refs[b] == Owed(w, b);
  }

  lemma {:induction false} SeedTableOK(bs: nat, n: nat, blocks: seq<nat>, len: nat)
    requires bs >= 1 && Distinct(blocks) && len <= |blocks| * bs
    requires forall x :: 0 <= x < |blocks| ==> blocks[x] < n
    ensures TableOK(bs, n, Table(blocks, len, AllSlots(bs, blocks)))
  {
    if blocks != [] {
      var q := |blocks| - 1;
      SeedTableOK(bs, n, blocks[..q], 0);
      var t := Table(blocks[..q], 0, AllSlots(bs, blocks[..q]));
      AppendBlockOK(bs, n, t, blocks[q]);
      var r, t' := Table(blocks, len, AllSlots(bs, blocks)), AppendBlock(bs, t, blocks[q]);
      assert t'.blocks == blocks && t'.slots == r.slots;
      forall j | 0 <= j < |r.slots| ensures SlotOK(bs, r, j) {
        assert SlotOK(bs, t', j);
      }
    }
  }

  lemma CachedAllLive<E>(w: World<E>, blocks: seq<nat>)
    requires Inv(w) && forall x :: 0 <= x < |blocks| ==> blocks[x] in w.cached
    ensures Live(w.alloc, blocks)
  {
    forall x | 0 <= x < |blocks| ensures blocks[x] < |w.alloc.refs| && w.alloc.refs[blocks[x]] > 0 {
      CachedLive(w, blocks[x]);
    }
  }

  lemma SeedInv<E>(w: World<E>, i: nat, blocks: seq<nat>)
    requires Inv(w) && i < |w.tables| && w.tables[i] == EmptyTable && Distinct(blocks)
    requires forall x :: 0 <= x < |blocks| ==> blocks[x] in w.cached
    ensures Live(w.alloc, blocks) && Inv(Seed(w, i, blocks))
  {
    CachedAllLive(w, blocks);
    SeedTableOK(w.bs, |w.alloc.refs|, blocks, |blocks| * w.bs);
    var w' := Seed(w, i, blocks);
    forall c | 0 <= c < |w.alloc.refs| ensures w'.alloc.refs[c] == Owed(w', c) {
      HoldersUpdate(w.tables, i, w'.tables[i], c);
      assert w.alloc.refs[c] == Owed(w, c);
    }
  }

  lemma RegisterInv<E>(w: World<E>, i: nat, b: nat)
    requires Inv(w) && i < |w.tables| && b in w.tables[i].blocks && b !in w.cached
    ensures b < |w.alloc.refs| && w.alloc.refs[b] > 0 && Inv(Register(w, b))
  {
    TableLive(w, i);
    var w' := Register(w, b);
    forall c | 0 <= c < |w.alloc.refs| ensures w'.alloc.refs[c] == Owed(w', c) {
      assert w.alloc.refs[c] == Owed(w, c);
    }
  }

  lemma UnregisterInv<E>(w: World<E>, b: nat)
    requires Inv(w) && b in w.cached
    ensures b < |w.alloc.refs| && w.alloc.refs[b] > 0 && Inv(Unregister(w, b))
    ensures NumFree(Unregister(w, b)) == NumFree(w) + if w.alloc.refs[b] == 1 then 1 else 0
  {
    CachedLive(w, b);
    var w' := Unregister(w, b);
    forall c | 0 <= c < |w.alloc.refs| ensures w'.alloc.refs[c] == Owed(w', c) {
      assert w.alloc.refs[c] == Owed(w, c);
    }
  }

  // -- isolation -------------------------------------------------------------

  /** The entry table `t` reads at position `j`. */
  ghost predicate Reads<E>(slab: seq<E>, t: Table, j: nat, e: E)
  {
    j < |t.slots| && t.slots[j] < |slab| && slab[t.slots[j]] == e
  }

  lemma SlotBounds<E>(w: World<E>, i: nat, j: nat)
    requires Inv(w) && i < |w.tables| && j < |w.tables[i].slots|
    ensures w.tables[i].slots[j] < |w.slab|
    ensures j / w.bs < |w.tables[i].blocks|
    ensures w.tables[i].slots[j] == w.tables[i].blocks[j / w.bs] * w.bs + j % w.bs
  {
    assert SlotOK(w.bs, w.tables[i], j);
    SlotInRange(w.bs, |w.alloc.refs|, w.tables[i].blocks[j / w.bs], j % w.bs);
  }

  /** The gathered view attention is given: every position of the table, in order. */
  ghost function Gather<E>(w: World<E>, i: nat): (g: seq<E>)
    requires Inv(w) && i < |w.tables|
    ensures |g| == w.tables[i].len
  {
    seq(w.tables[i].len, j requires 0 <= j < w.tables[i].len =>
      SlotBounds(w, i, j); w.slab[w.tables[i].slots[j]])
  }

  /** Block and offset of position `j`. */
  function Place(bs: nat, n: nat, t: Table, j: nat): (r: (nat, nat))
    requires TableOK(bs, n, t) && j < |t.slots|
    ensures j / bs < |t.blocks| && r.0 == t.blocks[j / bs] && r.1 == j % bs
    ensures r.1 < bs && r.0 < n && t.slots[j] == r.0 * bs + r.1
  {
    assert SlotOK(bs, t, j);
    (t.blocks[j / bs], j % bs)
  }

  /** Two positions share a slot only through one block, at the same offset in it. */
  lemma SharedSlot(bs: nat, n: nat, t: Table, j: nat, t': Table, j': nat)
    requires TableOK(bs, n, t) && TableOK(bs, n, t') && j < |t.slots| && j' < |t'.slots|
    requires t.slots[j] == t'.slots[j']
    ensures j / bs < |t.blocks| && j' / bs < |t'.blocks|
    ensures t.blocks[j / bs] == t'.blocks[j' / bs] && j % bs == j' % bs
  {
    var (b, o) := Place(bs, n, t, j);
    var (b', o') := Place(bs, n, t', j');
    SlotUnique(bs, b, o, b', o');
  }

  lemma SameDivMod(bs: nat, j: nat, j': nat)
    requires bs >= 1 && j / bs == j' / bs && j % bs == j' % bs
    ensures j == j'
  {
    assert j == j / bs * bs + j % bs;
    assert j' == j' / bs * bs + j' % bs;
  }

  /** A slot of a private block is read by its owner at one position and by nobody else. */
  lemma PrivateSlot<E>(w: World<E>, i: nat, j: nat, i': nat, j': nat)
    requires Inv(w) && i < |w.tables| && i' < |w.tables|
    requires j < |w.tables[i].slots| && j' < |w.tables[i'].slots|
    requires j / w.bs < |w.tables[i].blocks| && Private(w, w.tables[i].blocks[j / w.bs])
    requires w.tables[i].slots[j] == w.tables[i'].slots[j']
    ensures i == i' && j == j'
  {
    SharedSlot(w.bs, |w.alloc.refs|, w.tables[i], j, w.tables[i'], j');
    if i != i' {
      HoldersTwo(w.tables, i, i', w.tables[i].blocks[j / w.bs]);
    } else {
      SameDivMod(w.bs, j, j');
    }
  }

  /** Position `j` of table `i` reads the same entry before and after. */
  ghost predicate SameAt<E>(w: World<E>, w': World<E>, i: nat, j: nat)
    requires i < |w.tables| && i < |w'.tables| && j < |w.tables[i].slots|
  {
    var t, t' := w.tables[i], w'.tables[i];
    && j < |t'.slots| && t.slots[j] < |w.slab| && t'.slots[j] < |w'.slab|
    && w'.slab[t'.slots[j]] == w.slab[t.slots[j]]
  }

  ghost predicate SameBlock<E>(w: World<E>, w': World<E>, b: nat)
  {
    && w.bs == w'.bs && b * w.bs + w.bs <= |w.slab| && |w.slab| == |w'.slab|
    && w'.slab[b * w.bs..b * w.bs + w.bs] == w.slab[b * w.bs..b * w.bs + w.bs]
  }

  /** Nothing any live sequence or the prefix cache could read has changed. */
  ghost predicate Kept<E>(w: World<E>, w': World<E>)
  {
    && |w.tables| == |w'.tables| && w.cached == w'.cached
    && (forall i, j :: 0 <= i < |w.tables| && 0 <= j < |w.tables[i].slots| ==> SameAt(w, w', i, j))
    && (forall b :: b in w.cached ==> SameBlock(w, w', b))
  }

  lemma BlockFits<E>(w: World<E>, b: nat)
    requires Inv(w) && b < |w.alloc.refs|
    ensures b * w.bs + w.bs <= |w.slab|
  {
    SlotInRange(w.bs, |w.alloc.refs|, b, w.bs - 1);
  }

  lemma CachedNotPrivate<E>(w: World<E>, i: nat, j: nat, b: nat)
    requires Inv(w) && i < |w.tables| && j < |w.tables[i].slots| && b in w.cached
    requires j / w.bs < |w.tables[i].blocks| && Private(w, w.tables[i].blocks[j / w.bs])
    ensures !(b * w.bs <= w.tables[i].slots[j] < b * w.bs + w.bs)
  {
    var s := w.tables[i].slots[j];
    if b * w.bs <= s < b * w.bs + w.bs {
      var (c, o) := Place(w.bs, |w.alloc.refs|, w.tables[i], j);
      SlotUnique(w.bs, c, o, b, s - b * w.bs);
      HoldersPositive(w.tables, i, b);
    }
  }

  /** Copy-on-write changes no view at all, and leaves the tail private. */
  lemma CowIsolated<E>(w: World<E>, i: nat)
    requires CanCow(w, i)
    ensures Kept(w, Cow(w, i))
    ensures Private(Cow(w, i), Tail(Cow(w, i).tables[i]))
  {
    var w' := Cow(w, i);
    var spare := Last(w.alloc);
    assert spare in w.alloc.free;
    Unheld(w, spare);
    forall i', j | 0 <= i' < |w.tables| && 0 <= j < |w.tables[i'].slots| ensures SameAt(w, w', i', j) {
      CowSameAt(w, i, i', j);
    }
    forall b | b in w.cached ensures SameBlock(w, w', b) {
      BlockFits(w, b);
      BlockFits(w, spare);
      BlockFits(w, Tail(w.tables[i]));
      CopyElsewhere(w.bs, w.slab, Tail(w.tables[i]), spare, b);
    }
  }

  lemma Apart(bs: nat, b: nat, c: nat)
    requires b != c
    ensures b * bs + bs <= c * bs || c * bs + bs <= b * bs
  {
    if b < c {
      MulMono(b + 1, c, bs);
    } else {
      MulMono(c + 1, b, bs);
    }
  }

  lemma CopyElsewhere<E>(bs: nat, slab: seq<E>, src: nat, dst: nat, b: nat)
    requires b * bs + bs <= |slab| && src * bs + bs <= |slab| && dst * bs + bs <= |slab| && b != dst
    ensures CopyBlock(bs, slab, src, dst)[b * bs..b * bs + bs] == slab[b * bs..b * bs + bs]
  {
    Apart(bs, b, dst);
    var lo := b * bs;
    var x, y := CopyBlock(bs, slab, src, dst)[lo..lo + bs], slab[lo..lo + bs];
    assert forall o :: 0 <= o < bs ==> x[o] == y[o];
  }

  lemma CowSameAt<E>(w: World<E>, i: nat, i': nat, j: nat)
    requires CanCow(w, i) && i' < |w.tables| && j < |w.tables[i'].slots|
    ensures SameAt(w, Cow(w, i), i', j)
  {
    var w' := Cow(w, i);
    var spare := Last(w.alloc);
    assert spare in w.alloc.free;
    Unheld(w, spare);
    var t := w.tables[i'];
    if i' == i && j >= |t.slots| - w.bs {
      CowTailAt(w, i, j);
    } else {
      SlotBounds(w, i', j);
      assert w'.tables[i'].slots[j] == t.slots[j];
      SlotOutside(w.bs, |w.alloc.refs|, t, j, spare);
      BlockFits(w, Tail(w.tables[i]));
      BlockFits(w, spare);
      CopyOutside(w.bs, w.slab, Tail(w.tables[i]), spare, t.slots[j]);
    }
  }

  /** A slot of a table that does not list block `dst` lies outside `dst`. */
  lemma SlotOutside(bs: nat, n: nat, t: Table, j: nat, dst: nat)
    requires TableOK(bs, n, t) && j < |t.slots| && dst !in t.blocks
    ensures t.slots[j] < dst * bs || dst * bs + bs <= t.slots[j]
  {
    var (b, o) := Place(bs, n, t, j);
    Apart(bs, b, dst);
  }

  lemma CopyOutside<E>(bs: nat, slab: seq<E>, src: nat, dst: nat, s: nat)
    requires src * bs + bs <= |slab| && dst * bs + bs <= |slab| && s < |slab|
    requires s < dst * bs || dst * bs + bs <= s
    ensures CopyBlock(bs, slab, src, dst)[s] == slab[s]
  {
  }

  lemma CowTailAt<E>(w: World<E>, i: nat, j: nat)
    requires CanCow(w, i) && |w.tables[i].slots| - w.bs <= j < |w.tables[i].slots|
    ensures SameAt(w, Cow(w, i), i, j)
  {
    var t := w.tables[i];
    var q := |t.blocks| - 1;
    assert |t.slots| == q * w.bs + w.bs;
    var o := j - q * w.bs;
    SlotDivMod(w.bs, q, o);
    assert SlotOK(w.bs, t, j);
    var spare := Last(w.alloc);
    assert spare in w.alloc.free;
    BlockFits(w, spare);
    BlockFits(w, Tail(t));
    assert Cow(w, i).tables[i].slots[j] == spare * w.bs + o;
  }

  // -- reserving room for a forward pass -------------------------------------

  /** The table holds exactly the blocks its length needs. */
  ghost predicate Tight(bs: nat, t: Table)
    requires bs >= 1
  {
    |t.blocks| == CeilDiv(t.len, bs)
  }

  /** `_ensure_capacity`'s loop run `k` times. */
  function GrowBy<E>(w: World<E>, i: nat, k: nat): (r: World<E>)
    requires Inv(w) && i < |w.tables| && k <= NumFree(w)
    ensures Grown(w, r, i, k)
  {
    if k == 0 then w else
      var v := GrowBy(w, i, k - 1);
      GrowInv(v, i);
      GrownStep(w, v, i, k - 1);
      Grow(v, i)
  }

  /** `r` is `w` after table `i` took `k` fresh blocks. */
  ghost predicate Grown<E>(w: World<E>, r: World<E>, i: nat, k: nat)
    requires i < |w.tables|
  {
    && Inv(r) && NumFree(r) + k == NumFree(w) && i < |r.tables|
    && r.bs == w.bs && r.slab == w.slab && r.cached == w.cached && |r.alloc.refs| == |w.alloc.refs|
    && r.tables == w.tables[i := r.tables[i]]
    && r.tables[i].len == w.tables[i].len
    && w.tables[i].blocks <= r.tables[i].blocks && w.tables[i].slots <= r.tables[i].slots
    && |r.tables[i].blocks| == |w.tables[i].blocks| + k
    && (forall b :: 0 <= b < |w.alloc.refs| && w.alloc.refs[b] > 0 ==> r.alloc.refs[b] == w.alloc.refs[b])
    && (forall x :: |w.tables[i].blocks| <= x < |r.tables[i].blocks| ==> Private(r, r.tables[i].blocks[x]))
  }

  lemma GrownStep<E>(w: World<E>, v: World<E>, i: nat, k: nat)
    requires Inv(w) && i < |w.tables| && Grown(w, v, i, k) && NumFree(v) > 0 && Inv(Grow(v, i))
    ensures Grown(w, Grow(v, i), i, k + 1)
  {
    var r := Grow(v, i);
    assert r.tables == w.tables[i := r.tables[i]];
    var n := |v.tables[i].blocks|;
    forall x | |w.tables[i].blocks| <= x < |r.tables[i].blocks|
      ensures Private(r, r.tables[i].blocks[x])
    {
      if x < n {
        assert r.tables[i].blocks[x] == v.tables[i].blocks[x];
        assert Private(v, v.tables[i].blocks[x]);
      }
    }
  }

  /** What an operation that may raise `OutOfBlocks` leaves behind. */
  datatype Outcome<E> = Outcome(ok: bool, w: World<E>)

  ghost predicate SharedTail<E>(w: World<E>, i: nat)
    requires Inv(w) && i < |w.tables|
  {
    w.tables[i].blocks != [] && w.alloc.refs[Tail(w.tables[i])] > 1
  }

  /** `_unshare_tail`. */
  ghost function Unshare<E>(w: World<E>, i: nat): Outcome<E>
    requires Inv(w) && i < |w.tables|
  {
    if !SharedTail(w, i) then Outcome(true, w)
    else if w.alloc.free == [] then Outcome(false, w)
    else Outcome(true, Cow(w, i))
  }

  /** How many blocks `_ensure_capacity(n)` must take. */
  ghost function Shortfall<E>(w: World<E>, i: nat, n: nat): nat
    requires Inv(w) && i < |w.tables|
  {
    var want := CeilDiv(w.tables[i].len + n, w.bs);
    if want <= |w.tables[i].blocks| then 0 else want - |w.tables[i].blocks|
  }

  /** `_ensure_capacity`: takes blocks one at a time and raises when the list is empty. */
  ghost function EnsureCapacity<E>(w: World<E>, i: nat, n: nat): Outcome<E>
    requires Inv(w) && i < |w.tables|
  {
    var k := Shortfall(w, i, n);
    if k <= NumFree(w) then Outcome(true, GrowBy(w, i, k))
    else Outcome(false, GrowBy(w, i, NumFree(w)))
  }

  /** Layer 0 of `update`, and one sequence's share of `_prepare`. */
  ghost function Reserve<E>(w: World<E>, i: nat, n: nat): Outcome<E>
    requires Inv(w) && i < |w.tables|
  {
    var u := if w.tables[i].len % w.bs != 0 then Unshare(w, i) else Outcome(true, w);
    if !u.ok then u else
      UnshareFacts(w, i);
      var g := EnsureCapacity(u.w, i, n);
      if !g.ok then g else Outcome(true, Bump(g.w, i, n))
  }

  /** Nobody outside table `i` lost or gained anything but references to blocks `i` gave up. */
  ghost predicate OthersKept<E>(w: World<E>, r: World<E>, i: nat)
    requires i < |w.tables|
  {
    && Inv(r) && Kept(w, r) && i < |r.tables| && r.bs == w.bs && |r.alloc.refs| == |w.alloc.refs|
    && r.tables == w.tables[i := r.tables[i]]
    && (forall b :: 0 <= b < |w.alloc.refs| && w.alloc.refs[b] > 0 ==> 0 < r.alloc.refs[b] <= w.alloc.refs[b])
  }

  lemma KeptRefl<E>(w: World<E>)
    requires Inv(w)
    ensures Kept(w, w)
  {
    forall i, j | 0 <= i < |w.tables| && 0 <= j < |w.tables[i].slots| ensures SameAt(w, w, i, j) {
      SlotBounds(w, i, j);
    }
    forall b | b in w.cached ensures SameBlock(w, w, b) {
      BlockFits(w, b);
    }
  }

  lemma UnshareFacts<E>(w: World<E>, i: nat)
    requires Inv(w) && i < |w.tables|
    ensures var u := Unshare(w, i);
      && OthersKept(w, u.w, i)
      && u.w.tables[i].len == w.tables[i].len && |u.w.tables[i].blocks| == |w.tables[i].blocks|
      && (u.ok <==> SharedTail(w, i) ==> NumFree(w) > 0)
      && (u.ok ==> NumFree(u.w) == NumFree(w) - if SharedTail(w, i) then 1 else 0)
      && (u.ok && w.tables[i].blocks != [] ==> Private(u.w, Tail(u.w.tables[i])))
      && (!u.ok ==> u.w == w)
  {
    if SharedTail(w, i) && w.alloc.free != [] {
      CowInv(w, i);
      CowIsolated(w, i);
    } else {
      KeptRefl(w);
      TableLive(w, i);
      assert w.tables == w.tables[i := w.tables[i]];
    }
  }

  lemma KeptTrans<E>(u: World<E>, v: World<E>, w: World<E>)
    requires Inv(v) && Kept(u, v) && Kept(v, w)
    ensures Kept(u, w)
  {
    forall i, j | 0 <= i < |u.tables| && 0 <= j < |u.tables[i].slots| ensures SameAt(u, w, i, j) {
      assert SameAt(u, v, i, j);
      assert SameAt(v, w, i, j);
    }
    forall b | b in u.cached ensures SameBlock(u, w, b) {
      assert SameBlock(u, v, b) && SameBlock(v, w, b);
    }
  }

  lemma GrownKept<E>(w: World<E>, r: World<E>, i: nat, k: nat)
    requires Inv(w) && i < |w.tables| && Grown(w, r, i, k)
    ensures OthersKept(w, r, i)
  {
    forall x, j | 0 <= x < |w.tables| && 0 <= j < |w.tables[x].slots| ensures SameAt(w, r, x, j) {
      SlotBounds(w, x, j);
    }
    forall b | b in w.cached ensures SameBlock(w, r, b) {
      BlockFits(w, b);
    }
  }

  lemma OthersTrans<E>(u: World<E>, v: World<E>, w: World<E>, i: nat)
    requires Inv(u) && i < |u.tables| && OthersKept(u, v, i) && OthersKept(v, w, i)
    ensures OthersKept(u, w, i)
  {
    KeptTrans(u, v, w);
    assert w.tables == u.tables[i := w.tables[i]];
  }

  lemma BumpKept<E>(w: World<E>, i: nat, n: nat)
    requires Inv(w) && i < |w.tables| && Inv(Bump(w, i, n))
    ensures OthersKept(w, Bump(w, i, n), i)
  {
    var r := Bump(w, i, n);
    forall x, j | 0 <= x < |w.tables| && 0 <= j < |w.tables[x].slots| ensures SameAt(w, r, x, j) {
      SlotBounds(w, x, j);
    }
    forall b | b in w.cached ensures SameBlock(w, r, b) {
      BlockFits(w, b);
    }
  }

  /** Blocks one reservation costs. */
  ghost function Cost<E>(w: World<E>, i: nat, n: nat): nat
    requires Inv(w) && i < |w.tables|
  {
    Shortfall(w, i, n) + if w.tables[i].len % w.bs != 0 && SharedTail(w, i) then 1 else 0
  }

  /** What a successful reservation of `n` positions for table `i` establishes. */
  ghost predicate Reserved<E>(w: World<E>, r: World<E>, i: nat, n: nat)
    requires i < |w.tables|
  {
    && OthersKept(w, r, i)
    && r.tables[i].len == w.tables[i].len + n && Tight(r.bs, r.tables[i])
    && (forall j :: w.tables[i].len <= j < r.tables[i].len ==> PrivateAt(r, i, j))
  }

  /** Position `j` of table `i` may be written without anybody noticing. */
  ghost predicate PrivateAt<E>(w: World<E>, i: nat, j: nat)
    requires i < |w.tables| && w.bs >= 1
  {
    j / w.bs < |w.tables[i].blocks| && Private(w, w.tables[i].blocks[j / w.bs])
  }

  /**
    A reservation succeeds exactly when its cost fits the free list; it then takes exactly
    that many blocks, changes nothing anybody can read, and every position it opened lies
    in a block of its own.
   */
  lemma ReserveFacts<E>(w: World<E>, i: nat, n: nat)
    requires Inv(w) && i < |w.tables| && Tight(w.bs, w.tables[i])
    ensures var r := Reserve(w, i, n);
      && (r.ok <==> Cost(w, i, n) <= NumFree(w))
      && (r.ok ==> Reserved(w, r.w, i, n) && NumFree(r.w) == NumFree(w) - Cost(w, i, n))
  {
    hide Inv, Unshare, OthersKept, GrowBy, Grown, Tight, SharedTail, Private, Reserved, CeilDiv, Reserve;
    OthersRefl(w, i);
    var u := if w.tables[i].len % w.bs != 0 then Unshare(w, i) else Outcome(true, w);
    UnshareFacts(w, i);
    OthersShape(w, u.w, i);
    ReserveIs(w, i, n, u);
    assert Shortfall(u.w, i, n) == Shortfall(w, i, n);
    if u.ok && Shortfall(w, i, n) <= NumFree(u.w) {
      var g := GrowBy(u.w, i, Shortfall(w, i, n));
      ReserveGrown(w, u.w, g, i, n);
      GrownFree(u.w, g, i, Shortfall(w, i, n));
    }
  }

  lemma ReserveIs<E>(w: World<E>, i: nat, n: nat, u: Outcome<E>)
    requires Inv(w) && i < |w.tables| && Inv(u.w) && i < |u.w.tables|
    requires u == if w.tables[i].len % w.bs != 0 then Unshare(w, i) else Outcome(true, w)
    ensures Reserve(w, i, n).ok <==> u.ok && Shortfall(u.w, i, n) <= NumFree(u.w)
    ensures Reserve(w, i, n).ok ==> Reserve(w, i, n).w == Bump(GrowBy(u.w, i, Shortfall(u.w, i, n)), i, n)
  {
    hide Inv, Unshare, GrowBy, Shortfall, Bump;
  }

  lemma GrownFree<E>(u: World<E>, g: World<E>, i: nat, k: nat)
    requires Inv(u) && i < |u.tables| && k <= NumFree(u) && Grown(u, g, i, k)
    ensures NumFree(g) == NumFree(u) - k
  {
  }

  lemma OthersRefl<E>(w: World<E>, i: nat)
    requires Inv(w) && i < |w.tables|
    ensures OthersKept(w, w, i) && w.bs >= 1
  {
    KeptRefl(w);
    assert w.tables == w.tables[i := w.tables[i]];
  }

  lemma OthersShape<E>(w: World<E>, r: World<E>, i: nat)
    requires i < |w.tables| && OthersKept(w, r, i)
    ensures Inv(r) && i < |r.tables| && r.bs == w.bs
  {
  }

  lemma ReserveGrown<E>(w: World<E>, u: World<E>, g: World<E>, i: nat, n: nat)
    requires Inv(w) && i < |w.tables| && Tight(w.bs, w.tables[i]) && Inv(u) && OthersKept(w, u, i)
    requires u.tables[i].len == w.tables[i].len && |u.tables[i].blocks| == |w.tables[i].blocks|
    requires w.tables[i].len % w.bs != 0 && u.tables[i].blocks != [] ==> Private(u, Tail(u.tables[i]))
    requires Shortfall(u, i, n) <= NumFree(u) && Grown(u, g, i, Shortfall(u, i, n))
    ensures Reserved(w, Bump(g, i, n), i, n)
  {
    var r := Bump(g, i, n);
    CeilMono(w.tables[i].len, w.tables[i].len + n, w.bs);
    BumpInv(g, i, n);
    BumpKept(g, i, n);
    GrownKept(u, g, i, Shortfall(u, i, n));
    OthersTrans(w, u, g, i);
    OthersTrans(w, g, r, i);
    forall j | w.tables[i].len <= j < r.tables[i].len ensures PrivateAt(r, i, j) {
      DivBound(w.bs, j, |g.tables[i].blocks|);
      var x := j / w.bs;
      if x < |u.tables[i].blocks| {
        TailIndex(w.bs, w.tables[i].len, j);
        assert g.tables[i].blocks[x] == Tail(u.tables[i]);
      } else {
        assert Private(g, g.tables[i].blocks[x]);
      }
    }
  }
}
