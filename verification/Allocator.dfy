/**
  The free list over uniform KV blocks, with reference counts
  (engine/block_manager.py, `BlockAllocator`).

  `Alloc` is the allocator's state as a value; `BlockAllocator` is the object the
  engine mutates, each of whose methods is proved to move that value by one of the
  functions below.
 */
module Allocator {
  import opened Wrappers

  datatype Alloc = Alloc(free: seq<nat>, refs: seq<nat>)

  /** The free list holds every block whose count is zero, exactly once, and no other. */
  ghost predicate AllocOK(a: Alloc)
  {
    && (forall i :: 0 <= i < |a.free| ==> a.free[i] < |a.refs|)
    && (forall i, j :: 0 <= i < j < |a.free| ==> a.free[i] != a.free[j])
    && (forall b :: 0 <= b < |a.refs| ==> (a.refs[b] == 0 <==> b in a.free))
  }

  function Fresh(n: nat): (a: Alloc)
  {
    Alloc(seq(n, i requires 0 <= i < n => n - 1 - i), seq(n, _ => 0))
  }

  lemma FreshOK(n: nat)
    ensures AllocOK(Fresh(n)) && |Fresh(n).free| == |Fresh(n).refs| == n
  {
    forall b | 0 <= b < n ensures b in Fresh(n).free {
      assert Fresh(n).free[n - 1 - b] == b;
    }
  }

  function Last(a: Alloc): nat
    requires a.free != []
  {
    a.free[|a.free| - 1]
  }

  /** Pops the end of the free list with a count of one. */
  function Take(a: Alloc): (r: Alloc)
    requires AllocOK(a) && a.free != []
    ensures AllocOK(r) && |r.refs| == |a.refs| && |r.free| == |a.free| - 1
    ensures a.refs[Last(a)] == 0 && r.refs == a.refs[Last(a) := 1]
  {
    assert Last(a) in a.free;
    Alloc(a.free[..|a.free| - 1], a.refs[Last(a) := 1])
  }

  function Inc(a: Alloc, b: nat): (r: Alloc)
    requires AllocOK(a) && b < |a.refs| && a.refs[b] > 0
    ensures AllocOK(r) && r.free == a.free && r.refs == a.refs[b := a.refs[b] + 1]
  {
    a.(refs := a.refs[b := a.refs[b] + 1])
  }

  function Dec(a: Alloc, b: nat): (r: Alloc)
    requires AllocOK(a) && b < |a.refs| && a.refs[b] > 0
    ensures AllocOK(r) && r.refs == a.refs[b := a.refs[b] - 1]
    ensures |r.free| == |a.free| + if a.refs[b] == 1 then 1 else 0
  {
    var refs := a.refs[b := a.refs[b] - 1];
    if a.refs[b] == 1 then Alloc(a.free + [b], refs) else Alloc(a.free, refs)
  }

  predicate Distinct(s: seq<nat>)
  {
    forall i, j :: 0 <= i < j < |s| ==> s[i] != s[j]
  }

  lemma {:induction false} DistinctBound(s: seq<nat>, n: nat)
    requires Distinct(s) && forall i :: 0 <= i < |s| ==> s[i] < n
    ensures |s| <= n
    decreases n
  {
    if s != [] {
      var k :| 0 <= k < |s| && (n - 1 in s ==> s[k] == n - 1);
      var r := s[..k] + s[k + 1..];
      assert forall i :: 0 <= i < |r| ==> r[i] == s[if i < k then i else i + 1];
      DistinctBound(r, n - 1);
    }
  }

  lemma FreeBound(a: Alloc)
    requires AllocOK(a)
    ensures |a.free| <= |a.refs|
  {
    DistinctBound(a.free, |a.refs|);
  }

  lemma {:induction false} CoverBound(s: seq<nat>, n: nat)
    requires forall b :: 0 <= b < n ==> b in s
    ensures n <= |s|
    decreases n
  {
    if n > 0 {
      assert n - 1 in s;
      var k :| 0 <= k < |s| && s[k] == n - 1;
      var r := s[..k] + s[k + 1..];
      forall b | 0 <= b < n - 1 ensures b in r {
        assert b in s;
        var i :| 0 <= i < |s| && s[i] == b;
        assert r[if i < k then i else i - 1] == b;
      }
      CoverBound(r, n - 1);
    }
  }

  /** Every block of `bs` is in range and held by somebody. */
  predicate Live(a: Alloc, bs: seq<nat>)
  {
    forall i :: 0 <= i < |bs| ==> bs[i] < |a.refs| && a.refs[bs[i]] > 0
  }

  /** `fork`'s and `match`'s loop: one more reference on each listed block. */
  function IncAll(a: Alloc, bs: seq<nat>): (r: Alloc)
    requires AllocOK(a) && Distinct(bs) && Live(a, bs)
    ensures AllocOK(r) && r.free == a.free && |r.refs| == |a.refs|
    ensures forall b :: 0 <= b < |a.refs| ==> r.refs[b] == a.refs[b] + if b in bs then 1 else 0
  {
    if bs == [] then a else
      var n := |bs| - 1;
      assert bs == bs[..n] + [bs[n]];
      Inc(IncAll(a, bs[..n]), bs[n])
  }

  /** `free`'s loop: one reference fewer on each listed block. */
  function DecAll(a: Alloc, bs: seq<nat>): (r: Alloc)
    requires AllocOK(a) && Distinct(bs) && Live(a, bs)
    ensures AllocOK(r) && |r.refs| == |a.refs| && |a.free| <= |r.free|
    ensures forall b :: 0 <= b < |a.refs| ==> r.refs[b] == a.refs[b] - if b in bs then 1 else 0
  {
    if bs == [] then a else
      var n := |bs| - 1;
      assert bs == bs[..n] + [bs[n]];
      Dec(DecAll(a, bs[..n]), bs[n])
  }

  class BlockAllocator {
    const numBlocks: nat
    var free: seq<nat>
    var refs: seq<nat>

    ghost function View(): Alloc
      reads this
    {
      Alloc(free, refs)
    }

    constructor (n: nat)
      ensures numBlocks == n && View() == Fresh(n) && AllocOK(View())
    {
      numBlocks := n;
      free := seq(n, i requires 0 <= i < n => n - 1 - i);
      refs := seq(n, _ => 0);
      new;
      FreshOK(n);
    }

    method Allocate() returns (b: Option<nat>)
      requires AllocOK(View())
      modifies this
      ensures AllocOK(View())
      ensures old(free) == [] ==> b == None && View() == old(View())
      ensures old(free) != [] ==> b == Some(Last(old(View()))) && View() == Take(old(View()))
    {
      if free == [] {
        return None;
      }
      var block := free[|free| - 1];
      assert block in free;
      free, refs := free[..|free| - 1], refs[block := 1];
      assert View() == Take(old(View()));
      return Some(block);
    }

    /** All or nothing: on failure nothing moved, on success `n` distinct fresh blocks. */
    method AllocateMany(n: nat) returns (r: Option<seq<nat>>)
      requires AllocOK(View())
      modifies this
      ensures AllocOK(View())
      ensures r.None? <==> n > old(|free|)
      ensures r.None? ==> View() == old(View())
      ensures r.Some? ==> |r.value| == n && Distinct(r.value) && free == old(free[..|free| - n])
      ensures |refs| == |old(refs)|
      ensures r.Some? ==> forall b :: 0 <= b < |refs| ==>
        refs[b] == if b in r.value then 1 else old(refs)[b]
    {
      if n > |free| {
        return None;
      }
      var out: seq<nat> := [];
      while |out| < n
        invariant AllocOK(View()) && |out| <= n && Distinct(out) && |refs| == |old(refs)|
        invariant free == old(free[..|free| - |out|])
        invariant forall i :: 0 <= i < |out| ==> out[i] < |refs| && refs[out[i]] == 1
        invariant forall b :: 0 <= b < |refs| ==> refs[b] == if b in out then 1 else old(refs)[b]
      {
        var b := Allocate();
        out := out + [b.value];
      }
      return Some(out);
    }

    method Incref(block: nat) returns (ok: bool)
      requires AllocOK(View()) && block < |refs|
      modifies this
      ensures ok == (old(refs)[block] > 0) && AllocOK(View())
      ensures View() == if ok then Inc(old(View()), block) else old(View())
    {
      if refs[block] <= 0 {
        return false;
      }
      refs := refs[block := refs[block] + 1];
      return true;
    }

    method Decref(block: nat) returns (ok: bool, freed: bool)
      requires AllocOK(View()) && block < |refs|
      modifies this
      ensures ok == (old(refs)[block] > 0) && AllocOK(View())
      ensures View() == if ok then Dec(old(View()), block) else old(View())
      ensures freed == (old(refs)[block] == 1)
    {
      if refs[block] <= 0 {
        return false, false;
      }
      refs := refs[block := refs[block] - 1];
      if refs[block] == 0 {
        free := free + [block];
        assert View() == Dec(old(View()), block);
        return true, true;
      }
      return true, false;
    }

    function NumFree(): nat
      reads this
    {
      |free|
    }
  }
}
