/** One decode step's cache over the whole batch (engine/scheduler.py, `BatchedPagedCache`). */
module PagedBatch {
  import opened Paging
  import opened Batch
  import opened Transformer
  import opened Content
  import opened PagedPool

  /** `r` is what `_prepare` over the first `n` sequences makes of `w`. */
  ghost predicate Prepares<E>(w: World<E>, n: nat, ok: bool, r: World<E>)
  {
    Inv(w) && AllTight(w) && n <= |w.tables| && Prepare(w, n) == Outcome(ok, r)
  }

  /** The commit phase has `k` of `n` members behind it. */
  ghost predicate Commits<E>(w: World<E>, n: nat, k: nat, v: World<E>)
  {
    && Inv(w) && AllTight(w) && k <= n <= |w.tables| && Count(w, n) <= NumFree(w)
    && Commit(w, k) == Outcome(true, v) && |v.tables| == |w.tables| && v.bs == w.bs >= 1
  }

  /** `write_slots` so far: member `x`'s is `block_table[pos // bs] * bs + pos % bs`. */
  ghost predicate Slotted<E>(w: World<E>, v: World<E>, k: nat, slots: seq<nat>)
  {
    |slots| == k && k <= |w.tables| == |v.tables| && v.bs >= 1 && forall x :: 0 <= x < k ==>
        SlottedAt(w, v, x, slots[x])
  }

  ghost predicate SlottedAt<E>(w: World<E>, v: World<E>, x: nat, slot: nat)
    requires x < |w.tables| && x < |v.tables| && v.bs >= 1
  {
    w.tables[x].len / v.bs < |v.tables[x].blocks| && slot == WriteSlot(w, v, x)
  }

  class BatchedPagedCache<K> {
    const pool: PagedCachePool<K>
    const seqs: seq<PagedKVCache<K>>
    var writeSlots: seq<nat>

    constructor (pool: PagedCachePool<K>, seqs: seq<PagedKVCache<K>>)
      ensures this.pool == pool && this.seqs == seqs && writeSlots == []
    {
      this.pool, this.seqs, writeSlots := pool, seqs, [];
    }

    /** The batch is the first sequences of the pool. */
    ghost predicate Ready()
      reads pool, pool.alloc, pool.slab, pool.repr
    {
      pool.Valid() && AllTight(pool.w) && |seqs| <= |pool.caches| && seqs == pool.caches[..|seqs|]
    }

    /** The first phase: count the blocks the step will take. */
    method CountNeed() returns (need: nat)
      requires Ready()
      ensures need == Count(pool.w, |seqs|)
    {
      hide Inv;
      need := 0;
      var k := 0;
      while k < |seqs|
        invariant 0 <= k <= |seqs| && need == Count(pool.w, k)
      {
        var c := seqs[k];
        NeedIs(pool.w, k);
        if c.len % pool.bs == 0 {
          need := need + 1;
        } else if c.blocks != [] && pool.alloc.refs[c.blocks[|c.blocks| - 1]] > 1 {
          need := need + 1;
        }
        k := k + 1;
      }
    }

    /** `block_table[pos // bs] * bs + pos % bs`. */
    method SlotFor(c: PagedKVCache<K>, pos: nat, k: nat, ghost w: World<seq<K>>) returns (slot: nat)
      requires pool.bs >= 1 && pool.w.bs == pool.bs && k < |w.tables| && k < |pool.w.tables|
      requires c.AsTable() == pool.w.tables[k] && pos == w.tables[k].len && pos / pool.bs < |pool.w.tables[k].blocks|
      ensures slot == WriteSlot(w, pool.w, k)
    {
      slot := c.blocks[pos / pool.bs] * pool.bs + pos % pool.bs;
    }

    /** One member of the second phase: room for one token, and the slot it will write. */
    method CommitOne(k: nat, ghost w: World<seq<K>>)
      requires pool.Valid() && |seqs| <= |pool.caches| && seqs == pool.caches[..|seqs|] && k < |seqs|
      requires Commits(w, |seqs|, k, pool.w) && Slotted(w, pool.w, k, writeSlots)
      modifies this, pool, pool.repr, pool.alloc, pool.slab
      ensures pool.Valid() && pool.SameSeqs()
      ensures Commits(w, |seqs|, k + 1, pool.w) && Slotted(w, pool.w, k + 1, writeSlots)
    {
      hide Inv, Commits, Slotted, Reserves, WriteSlot;
      ghost var v := pool.w;
      var c := seqs[k];
      var pos := c.len;
      var ok := c.Advance(1, k);
      CommitMore(w, |seqs|, k, v, ok, pool.w);
      var slot := SlotFor(c, pos, k, w);
      SlotMore(w, v, pool.w, k, writeSlots);
      writeSlots := writeSlots + [slot];
    }

    /** The second phase. */
    method CommitPhase(ghost w: World<seq<K>>)
      requires pool.Valid() && |seqs| <= |pool.caches| && seqs == pool.caches[..|seqs|]
      requires Commits(w, |seqs|, 0, pool.w) && Slotted(w, pool.w, 0, writeSlots)
      modifies this, pool, pool.repr, pool.alloc, pool.slab
      ensures pool.Valid() && pool.SameSeqs()
      ensures Commits(w, |seqs|, |seqs|, pool.w) && Slotted(w, pool.w, |seqs|, writeSlots)
    {
      hide Inv, Commits, Slotted;
      var k := 0;
      while k < |seqs|
        invariant 0 <= k <= |seqs| && pool.Valid() && pool.SameSeqs()
        invariant Commits(w, |seqs|, k, pool.w) && Slotted(w, pool.w, k, writeSlots)
      {
        CommitOne(k, w);
        k := k + 1;
      }
    }

    /** `_prepare`: count first, commit second; not ok is `OutOfBlocks` with nothing changed. */
    method PrepareStep() returns (ok: bool)
      requires Ready()
      modifies this, pool, pool.repr, pool.alloc, pool.slab
      ensures pool.Valid() && pool.SameSeqs() && Prepares(old(pool.w), |seqs|, ok, pool.w)
      ensures ok ==> Slotted(old(pool.w), pool.w, |seqs|, writeSlots)
    {
      ghost var w := pool.w;
      var need := CountNeed();
      hide Inv, Commits, Slotted, Count, AllTight;
      ok := need <= pool.alloc.NumFree();
      if ok {
        CommitNone(w, |seqs|);
        writeSlots := [];
        CommitPhase(w);
      }
      PreparedIs(w, |seqs|, ok, pool.w);
    }

    /** The index tensors of the step: each member writes its new slot and reads all it has. */
    method BuildPlan(ghost w: World<seq<K>>) returns (p: Plan)
      requires pool.Valid() && |seqs| <= |pool.caches| && seqs == pool.caches[..|seqs|]
      requires Prepares(w, |seqs|, true, pool.w) && Slotted(w, pool.w, |seqs|, writeSlots)
      ensures p == DecodePlan(pool.w, |seqs|)
    {
      hide Inv, Prepares, Slotted, DecodePlan;
      var sees: seq<seq<nat>>, k := [], 0;
      PlanReady(w, |seqs|, pool.w, writeSlots);
      while k < |seqs|
        invariant 0 <= k <= |seqs| && |sees| == k
        invariant forall x :: 0 <= x < k ==> sees[x] == pool.w.tables[x].slots[..pool.w.tables[x].len]
      {
        sees := sees + [seqs[k].slots[..seqs[k].len]];
        k := k + 1;
      }
      p := Plan(writeSlots, sees);
      PlanIs(pool.w, |seqs|, p);
    }
  }

  lemma NeedIs<E>(w: World<E>, k: nat)
    requires Inv(w) && k < |w.tables|
    ensures w.bs >= 1 && Count(w, k + 1) == Count(w, k) + if NeedsBlock(w, k) then 1 else 0
    ensures w.tables[k].blocks != [] ==> Tail(w.tables[k]) < |w.alloc.refs|
    ensures NeedsBlock(w, k) <==> w.tables[k].len % w.bs == 0
                                  || (w.tables[k].blocks != [] && w.alloc.refs[Tail(w.tables[k])] > 1)
  {
    assert TableOK(w.bs, |w.alloc.refs|, w.tables[k]);
  }

  lemma CommitNone<E>(w: World<E>, n: nat)
    requires Inv(w) && AllTight(w) && n <= |w.tables| && Count(w, n) <= NumFree(w)
    ensures Commits(w, n, 0, w) && Slotted(w, w, 0, [])
  {
  }

  lemma CommitState<E>(w: World<E>, n: nat, k: nat, v: World<E>)
    requires Commits(w, n, k, v)
    ensures Inv(w) && k <= |w.tables| && Committed(w, v, k)
  {
    CommitAll(w, k, n);
  }

  lemma CommitTurn<E>(w: World<E>, n: nat, k: nat, v: World<E>, ok: bool, r: World<E>)
    requires Commits(w, n, k, v) && k < n && Reserves(v, k, 1, ok, r)
    ensures Commit(w, k + 1) == Outcome(ok, r) && ok
  {
    CommitAll(w, k + 1, n);
    hide Inv, Reserve, Committed;
    assert Commit(w, k + 1) == Turn(Outcome(true, v), k);
  }

  lemma ReservesShape<E>(w: World<E>, i: nat, n: nat, r: World<E>)
    requires Reserves(w, i, n, true, r) && Tight(w.bs, w.tables[i])
    ensures |r.tables| == |w.tables| && r.bs == w.bs && r.tables == w.tables[i := r.tables[i]]
  {
    ReserveFacts(w, i, n);
  }

  lemma CommittedAt<E>(w: World<E>, v: World<E>, k: nat, x: nat)
    requires Inv(w) && k <= |w.tables| && Committed(w, v, k) && x < |w.tables|
    ensures |v.tables| == |w.tables| && v.bs == w.bs >= 1 && Tight(v.bs, v.tables[x])
    ensures x >= k ==> v.tables[x] == w.tables[x]
    ensures x < k ==> w.tables[x].len / v.bs < |v.tables[x].blocks|
  {
  }

  lemma CommitMore<E>(w: World<E>, n: nat, k: nat, v: World<E>, ok: bool, r: World<E>)
    requires Commits(w, n, k, v) && k < n && Reserves(v, k, 1, ok, r)
    ensures ok && Commits(w, n, k + 1, r) && k < |v.tables| == |w.tables|
    ensures v.tables[k] == w.tables[k] && v.bs == w.bs == r.bs >= 1
    ensures |r.tables| == |v.tables| && r.tables == v.tables[k := r.tables[k]]
            && w.tables[k].len / r.bs < |r.tables[k].blocks|
  {
    hide *;
    CommitTurn(w, n, k, v, ok, r);
    CommitState(w, n, k, v);
    CommitShape(w, n, k, v);
    CommittedAt(w, v, k, k);
    ReservesShape(v, k, 1, r);
    CommitNext(w, n, k, v, r);
    CommitState(w, n, k + 1, r);
    CommittedAt(w, r, k + 1, k);
  }

  lemma CommitShape<E>(w: World<E>, n: nat, k: nat, v: World<E>)
    requires Commits(w, n, k, v)
    ensures k <= n <= |w.tables| == |v.tables| && v.bs == w.bs >= 1
  {
    hide Inv, AllTight, Count, Commit;
  }

  lemma CommitNext<E>(w: World<E>, n: nat, k: nat, v: World<E>, r: World<E>)
    requires Commits(w, n, k, v) && k < n && Inv(w) && Commit(w, k + 1) == Outcome(true, r)
    requires |r.tables| == |v.tables| && r.bs == v.bs
    ensures Commits(w, n, k + 1, r)
  {
    hide Inv, AllTight, Count, Commit;
  }

  lemma SlotMore<E>(w: World<E>, v: World<E>, r: World<E>, k: nat, slots: seq<nat>)
    requires Slotted(w, v, k, slots) && k < |w.tables| && |r.tables| == |v.tables| && r.bs == v.bs
    requires r.tables == v.tables[k := r.tables[k]] && w.tables[k].len / r.bs < |r.tables[k].blocks|
    ensures Slotted(w, r, k + 1, slots + [WriteSlot(w, r, k)])
  {
    forall x | 0 <= x < k + 1 ensures SlottedAt(w, r, x, (slots + [WriteSlot(w, r, k)])[x]) {
      if x < k { assert SlottedAt(w, v, x, slots[x]); }
    }
  }

  lemma PlanIs<E>(r: World<E>, n: nat, p: Plan)
    requires n <= |r.tables| && |p.writes| == |p.sees| == n
    requires forall x :: 0 <= x < n ==>
      0 < r.tables[x].len <= |r.tables[x].slots| && p.writes[x] == r.tables[x].slots[r.tables[x].len - 1]
      && p.sees[x] == r.tables[x].slots[..r.tables[x].len]
    ensures p == DecodePlan(r, n)
  {
  }

  lemma PreparedIs<E>(w: World<E>, n: nat, ok: bool, r: World<E>)
    requires Inv(w) && AllTight(w) && n <= |w.tables| && ok == (Count(w, n) <= NumFree(w))
    requires if ok then Commits(w, n, n, r) else r == w
    ensures Prepares(w, n, ok, r)
  {
  }

  /** After a successful preparation every member has its slot, and it is the one its own list gives. */
  lemma PlanReady<E>(w: World<E>, n: nat, r: World<E>, slots: seq<nat>)
    requires Prepares(w, n, true, r) && Slotted(w, r, n, slots)
    ensures n <= |r.tables| && |slots| == n
    ensures forall x :: 0 <= x < n ==>
      0 < r.tables[x].len <= |r.tables[x].slots| && slots[x] == r.tables[x].slots[r.tables[x].len - 1]
  {
    PrepareAtomic(w, n);
    forall x | 0 <= x < n
      ensures 0 < r.tables[x].len <= |r.tables[x].slots| && slots[x] == r.tables[x].slots[r.tables[x].len - 1]
    {
      hide WritesDistinct, Prepare, Kept;
      SlotReady(w, n, r, x, slots[x]);
    }
  }

  lemma SlotReady<E>(w: World<E>, n: nat, r: World<E>, x: nat, slot: nat)
    requires Inv(w) && x < n <= |w.tables| && Committed(w, r, n) && WritesDistinct(w, r, n) && SlottedAt(w, r, x, slot)
    ensures 0 < r.tables[x].len <= |r.tables[x].slots| && slot == r.tables[x].slots[r.tables[x].len - 1]
  {
    hide Kept;
    assert TableOK(r.bs, |r.alloc.refs|, r.tables[x]);
  }
}
