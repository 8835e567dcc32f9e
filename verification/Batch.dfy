/**
  One decode step's batch preparation (engine/scheduler.py, `BatchedPagedCache._prepare`):
  count the blocks every member needs, then commit. The batch is the first `n` tables of
  the world; the tables after them are bystanders.
 */
module Batch {
  import opened Arith
  import opened Paging

  ghost predicate AllTight<E>(w: World<E>)
    requires w.bs >= 1
  {
    forall i :: 0 <= i < |w.tables| ==> Tight(w.bs, w.tables[i])
  }

  /** Does member `i` cross into a fresh block, or must it copy a shared tail? */
  ghost predicate NeedsBlock<E>(w: World<E>, i: nat)
    requires Inv(w) && i < |w.tables|
  {
    w.tables[i].len % w.bs == 0 || SharedTail(w, i)
  }

  /** The counting phase. */
  ghost function Count<E>(w: World<E>, n: nat): nat
    requires Inv(w) && n <= |w.tables|
  {
    if n == 0 then 0 else Count(w, n - 1) + if NeedsBlock(w, n - 1) then 1 else 0
  }

  /** One member's turn in the commit phase; a failed turn ends it. */
  ghost function Turn<E>(o: Outcome<E>, i: nat): Outcome<E>
  {
    if o.ok && Inv(o.w) && i < |o.w.tables| then Reserve(o.w, i, 1) else o.(ok := false)
  }

  /** The commit phase: every member in turn grows by one position. */
  ghost function Commit<E>(w: World<E>, n: nat): Outcome<E>
  {
    if n == 0 then Outcome(true, w) else Turn(Commit(w, n - 1), n - 1)
  }

  /** `_prepare`. */
  ghost function Prepare<E>(w: World<E>, n: nat): Outcome<E>
    requires Inv(w) && AllTight(w) && n <= |w.tables|
  {
    if Count(w, n) > NumFree(w) then Outcome(false, w) else Commit(w, n)
  }

  /** The slot member `i` of the batch writes: `block_table[pos // bs] * bs + pos % bs`. */
  ghost function WriteSlot<E>(w: World<E>, r: World<E>, i: nat): nat
    requires i < |w.tables| && i < |r.tables| && r.bs >= 1
    requires w.tables[i].len / r.bs < |r.tables[i].blocks|
  {
    r.tables[i].blocks[w.tables[i].len / r.bs] * r.bs + w.tables[i].len % r.bs
  }

  /** `v` is `w` after the first `k` members committed. */
  ghost predicate Committed<E>(w: World<E>, v: World<E>, k: nat)
    requires Inv(w) && k <= |w.tables|
  {
    && Inv(v) && Kept(w, v) && |v.tables| == |w.tables| && v.bs == w.bs && |v.alloc.refs| == |w.alloc.refs|
    && AllTight(v)
    && (forall i :: 0 <= i < k ==> v.tables[i].len == w.tables[i].len + 1 && PrivateAt(v, i, w.tables[i].len))
    && (forall i :: k <= i < |w.tables| ==> v.tables[i] == w.tables[i])
    && (forall b :: 0 <= b < |w.alloc.refs| && w.alloc.refs[b] > 0 ==> 0 < v.alloc.refs[b] <= w.alloc.refs[b])
    && NumFree(v) + Count(w, k) >= NumFree(w)
  }

  /** One more member costs the commit phase no more than the counting phase counted for it. */
  lemma CostCounted<E>(w: World<E>, v: World<E>, k: nat)
    requires Inv(w) && AllTight(w) && k < |w.tables| && Committed(w, v, k)
    ensures Cost(v, k, 1) <= if NeedsBlock(w, k) then 1 else 0
  {
    CeilStep(w.tables[k].len, w.bs);
    TableLive(w, k);
  }

  lemma PrivateStays<E>(v: World<E>, r: World<E>, i: nat, j: nat)
    requires v.bs == r.bs >= 1 && i < |v.tables| && i < |r.tables| && r.tables[i] == v.tables[i]
    requires |v.alloc.refs| == |r.alloc.refs| && PrivateAt(v, i, j)
    requires forall b :: 0 <= b < |v.alloc.refs| && v.alloc.refs[b] > 0 ==> 0 < r.alloc.refs[b] <= v.alloc.refs[b]
    ensures PrivateAt(r, i, j)
  {
  }

  lemma CommitStep<E>(w: World<E>, v: World<E>, r: World<E>, k: nat)
    requires Inv(w) && k < |w.tables| && Committed(w, v, k) && k < |v.tables| && Reserved(v, r, k, 1)
    requires NumFree(r) + Count(w, k + 1) >= NumFree(w)
    ensures Committed(w, r, k + 1)
  {
    assert w.bs >= 1;
    hide Inv, Tight, PrivateAt;
    assert Kept(w, r) by { KeptTrans(w, v, r); }
    hide Kept;
    forall i | 0 <= i < k + 1 ensures r.tables[i].len == w.tables[i].len + 1 && PrivateAt(r, i, w.tables[i].len) {
      if i < k {
        PrivateStays(v, r, i, w.tables[i].len);
      }
    }
  }

  lemma {:induction false} CommitAll<E>(w: World<E>, k: nat, n: nat)
    requires Inv(w) && AllTight(w) && k <= n <= |w.tables| && Count(w, n) <= NumFree(w)
    ensures Commit(w, k).ok && Committed(w, Commit(w, k).w, k)
  {
    hide Inv, AllTight, Reserve, Committed, Count;
    if k == 0 {
      CommittedNone(w);
    } else {
      CommitAll(w, k - 1, n);
      CountMono(w, k, n);
      CommitOne(w, Commit(w, k - 1).w, k - 1);
    }
  }

  lemma CommittedNone<E>(w: World<E>)
    requires Inv(w) && AllTight(w)
    ensures Committed(w, w, 0)
  {
    KeptRefl(w);
  }

  /** One more member's block, when the count covers it. */
  lemma CommitOne<E>(w: World<E>, v: World<E>, k: nat)
    requires Inv(w) && AllTight(w) && k < |w.tables| && Committed(w, v, k) && Count(w, k + 1) <= NumFree(w)
    ensures Inv(v) && k < |v.tables| && Reserve(v, k, 1).ok && Committed(w, Reserve(v, k, 1).w, k + 1)
  {
    CostCounted(w, v, k);
    hide Reserve, Kept, Reserved;
    ReserveFacts(v, k, 1);
    CommitStep(w, v, Reserve(v, k, 1).w, k);
  }

  lemma {:induction false} CountMono<E>(w: World<E>, k: nat, n: nat)
    requires Inv(w) && k <= n <= |w.tables|
    ensures Count(w, k) <= Count(w, n) <= Count(w, k) + (n - k)
  {
    if k < n {
      CountMono(w, k, n - 1);
    }
  }

  /**
    Batch preparation is atomic. It fails exactly when the counted need exceeds the free
    list, and then nothing has changed. Otherwise no commit runs out, however the members
    share tails: every member has one more position, in a block of its own; the write slots
    are pairwise distinct and are the slots the members' own lists give that position; and
    no view of any sequence, in the batch or not, nor of any cached block, has changed.
   */
  lemma PrepareAtomic<E>(w: World<E>, n: nat)
    requires Inv(w) && AllTight(w) && n <= |w.tables|
    ensures var r := Prepare(w, n);
      && (r.ok <==> Count(w, n) <= NumFree(w))
      && (!r.ok ==> r.w == w)
      && (r.ok ==> Committed(w, r.w, n) && WritesDistinct(w, r.w, n))
  {
    if Count(w, n) <= NumFree(w) {
      CommitAll(w, n, n);
      Distinctness(w, Commit(w, n).w, n);
    }
  }

  ghost predicate WritesDistinct<E>(w: World<E>, r: World<E>, n: nat)
    requires Inv(w) && n <= |w.tables| && Committed(w, r, n)
  {
    && (forall i :: 0 <= i < n ==>
          && w.tables[i].len < |r.tables[i].slots|
          && PrivateAt(r, i, w.tables[i].len)
          && r.tables[i].slots[w.tables[i].len] == WriteSlot(w, r, i) < |r.slab|)
    && (forall i, i' :: 0 <= i < i' < n ==>
          r.tables[i].slots[w.tables[i].len] != r.tables[i'].slots[w.tables[i'].len])
  }

  lemma Distinctness<E>(w: World<E>, r: World<E>, n: nat)
    requires Inv(w) && n <= |w.tables| && Committed(w, r, n)
    ensures WritesDistinct(w, r, n)
  {
    forall i | 0 <= i < n
      ensures w.tables[i].len < |r.tables[i].slots| && PrivateAt(r, i, w.tables[i].len)
      ensures r.tables[i].slots[w.tables[i].len] == WriteSlot(w, r, i) < |r.slab|
    {
      assert r.tables[i].len == w.tables[i].len + 1 && PrivateAt(r, i, w.tables[i].len);
      assert TableOK(r.bs, |r.alloc.refs|, r.tables[i]);
      SlotBounds(r, i, w.tables[i].len);
    }
    forall i, i' | 0 <= i < i' < n
      ensures r.tables[i].slots[w.tables[i].len] != r.tables[i'].slots[w.tables[i'].len]
    {
      if r.tables[i].slots[w.tables[i].len] == r.tables[i'].slots[w.tables[i'].len] {
        PrivateSlot(r, i, w.tables[i].len, i', w.tables[i'].len);
      }
    }
  }
}
