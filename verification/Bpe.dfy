/**
  Byte-level BPE (model/tokenizer.py) at the level of one pre-token piece: what a merge does
  to a row of ids, and why the encoder's order of merges does not matter.
 */
module Bpe {
  datatype Pair = Pair(left: nat, right: nat)

  const ByteVocabSize: nat := 256

  /** `_apply_merge`: every non-overlapping occurrence of `p`, left to right, becomes `id`. */
  function ApplyMerge(ids: seq<nat>, p: Pair, id: nat): seq<nat>
  {
    if ids == [] then []
    else if |ids| >= 2 && ids[0] == p.left && ids[1] == p.right then [id] + ApplyMerge(ids[2..], p, id)
    else [ids[0]] + ApplyMerge(ids[1..], p, id)
  }

  /** `p` stands somewhere in the row. */
  predicate Occurs(ids: seq<nat>, p: Pair)
  {
    exists i :: 0 <= i < |ids| - 1 && PairAt(ids, i) == p
  }

  function PairAt(ids: seq<nat>, i: nat): Pair
    requires i + 1 < |ids|
  {
    Pair(ids[i], ids[i + 1])
  }

  /** Merge k creates token 256 + k out of tokens that existed before it; no pair is merged twice. */
  ghost predicate MergesOK(ms: seq<Pair>)
  {
    && (forall k :: 0 <= k < |ms| ==> ms[k].left < ByteVocabSize + k && ms[k].right < ByteVocabSize + k)
    && (forall i, j :: 0 <= i < j < |ms| ==> ms[i] != ms[j])
  }

  /** Every learned merge once, in rank order. */
  function RankOrder(ids: seq<nat>, ms: seq<Pair>): seq<nat>
  {
    if ms == [] then ids else
      var n := |ms| - 1;
      ApplyMerge(RankOrder(ids, ms[..n]), ms[n], ByteVocabSize + n)
  }

  // -- what one merge does ------------------------------------------------------

  lemma OccursHead(ids: seq<nat>, p: Pair)
    ensures Occurs(ids, p) <==> |ids| >= 2 && (PairAt(ids, 0) == p || Occurs(ids[1..], p))
  {
    if |ids| >= 2 {
      assert forall i :: 0 <= i < |ids| - 2 ==> PairAt(ids[1..], i) == PairAt(ids, i + 1);
      if Occurs(ids, p) && PairAt(ids, 0) != p {
        var i :| 0 <= i < |ids| - 1 && PairAt(ids, i) == p;
        assert PairAt(ids[1..], i - 1) == p;
      }
    }
  }

  lemma MergeHead(ids: seq<nat>, p: Pair, id: nat)
    requires ids != []
    ensures var r := ApplyMerge(ids, p, id); r != [] && |r| <= |ids| && (r[0] == ids[0] || r[0] == id)
    decreases |ids|
  {
    if |ids| >= 2 && ids[0] == p.left && ids[1] == p.right {
      if ids[2..] != [] { MergeHead(ids[2..], p, id); }
    } else if ids[1..] != [] {
      MergeHead(ids[1..], p, id);
    }
  }

  /** A merged pair is gone, overlapping occurrences included. */
  lemma {:induction false} MergeRemoves(ids: seq<nat>, p: Pair, id: nat)
    requires id != p.left && id != p.right
    ensures !Occurs(ApplyMerge(ids, p, id), p)
    decreases |ids|
  {
    var r := ApplyMerge(ids, p, id);
    if ids != [] {
      OccursHead(r, p);
      if |ids| >= 2 && ids[0] == p.left && ids[1] == p.right {
        MergeRemoves(ids[2..], p, id);
        assert r[1..] == ApplyMerge(ids[2..], p, id);
      } else {
        MergeRemoves(ids[1..], p, id);
        assert r[1..] == ApplyMerge(ids[1..], p, id);
        if ids[1..] != [] { MergeHead(ids[1..], p, id); }
      }
    }
  }

  /** Every `id` written out as the pair it stands for. */
  function Unmerge(ids: seq<nat>, p: Pair, id: nat): seq<nat>
  {
    if ids == [] then []
    else (if ids[0] == id then [p.left, p.right] else [ids[0]]) + Unmerge(ids[1..], p, id)
  }

  lemma {:induction false} MergeUnmerge(ids: seq<nat>, p: Pair, id: nat)
    requires id !in ids
    ensures Unmerge(ApplyMerge(ids, p, id), p, id) == ids
    decreases |ids|
  {
    if ids != [] {
      var r := ApplyMerge(ids, p, id);
      if |ids| >= 2 && ids[0] == p.left && ids[1] == p.right {
        MergeUnmerge(ids[2..], p, id);
        assert r[1..] == ApplyMerge(ids[2..], p, id) && ids == [ids[0], ids[1]] + ids[2..];
      } else {
        MergeUnmerge(ids[1..], p, id);
        assert r[1..] == ApplyMerge(ids[1..], p, id) && ids == [ids[0]] + ids[1..];
      }
    }
  }

  /** Of a run of equal tokens the leftmost are merged: none is left standing before a merged pair. */
  lemma {:induction false} MergeLeftmost(ids: seq<nat>, p: Pair, id: nat)
    requires id !in ids && p.left == p.right
    ensures !Occurs(ApplyMerge(ids, p, id), Pair(p.left, id))
    decreases |ids|
  {
    if ids != [] {
      var r, q := ApplyMerge(ids, p, id), Pair(p.left, id);
      OccursHead(r, q);
      if |ids| >= 2 && ids[0] == p.left && ids[1] == p.right {
        MergeLeftmost(ids[2..], p, id);
        assert r[1..] == ApplyMerge(ids[2..], p, id) && ids[0] != id;
      } else {
        MergeLeftmost(ids[1..], p, id);
        assert r[1..] == ApplyMerge(ids[1..], p, id);
      }
    }
  }

  lemma {:induction false} MergeUnique(out: seq<nat>, p: Pair, id: nat)
    requires id != p.left && id != p.right && !Occurs(out, p)
    requires p.left == p.right ==> !Occurs(out, Pair(p.left, id))
    ensures ApplyMerge(Unmerge(out, p, id), p, id) == out
  {
    if out != [] {
      OccursHead(out, p);
      OccursHead(out, Pair(p.left, id));
      var rest, u := out[1..], Unmerge(out, p, id);
      MergeUnique(rest, p, id);
      if out[0] == id {
        assert u[2..] == Unmerge(rest, p, id);
      } else {
        assert u[1..] == Unmerge(rest, p, id);
        assert rest != [] ==> u[1] == if rest[0] == id then p.left else rest[0];
      }
      assert out == [out[0]] + rest;
    }
  }

  /**
    A merge is determined by what it does: written out again it is the row it came from, the pair is
    gone, and of a run of equal tokens the leftmost were merged.
   */
  lemma MergeIff(ids: seq<nat>, p: Pair, id: nat, out: seq<nat>)
    requires id !in ids && id != p.left && id != p.right
    ensures out == ApplyMerge(ids, p, id) <==>
            && Unmerge(out, p, id) == ids && !Occurs(out, p)
            && (p.left == p.right ==> !Occurs(out, Pair(p.left, id)))
  {
    MergeUnmerge(ids, p, id);
    MergeRemoves(ids, p, id);
    if p.left == p.right { MergeLeftmost(ids, p, id); }
    if !Occurs(out, p) && (p.left == p.right ==> !Occurs(out, Pair(p.left, id))) { MergeUnique(out, p, id); }
  }

  /** A merge never brings two older tokens together. */
  lemma {:induction false} MergeCreatesNothing(ids: seq<nat>, p: Pair, id: nat, q: Pair)
    requires id != q.left && id != q.right && !Occurs(ids, q)
    ensures !Occurs(ApplyMerge(ids, p, id), q)
    decreases |ids|
  {
    var r := ApplyMerge(ids, p, id);
    if ids != [] {
      OccursHead(r, q);
      OccursHead(ids, q);
      if |ids| >= 2 && ids[0] == p.left && ids[1] == p.right {
        OccursHead(ids[1..], q);
        assert ids[1..][1..] == ids[2..];
        MergeCreatesNothing(ids[2..], p, id, q);
        assert r[1..] == ApplyMerge(ids[2..], p, id);
      } else {
        MergeCreatesNothing(ids[1..], p, id, q);
        assert r[1..] == ApplyMerge(ids[1..], p, id);
        if ids[1..] != [] { MergeHead(ids[1..], p, id); }
      }
    }
  }

  lemma {:induction false} MergeAbsent(ids: seq<nat>, p: Pair, id: nat)
    requires !Occurs(ids, p)
    ensures ApplyMerge(ids, p, id) == ids
    decreases |ids|
  {
    if ids != [] {
      OccursHead(ids, p);
      MergeAbsent(ids[1..], p, id);
      assert [ids[0]] + ids[1..] == ids;
    }
  }

  lemma {:induction false} MergeBelow(ids: seq<nat>, p: Pair, id: nat)
    requires forall i :: 0 <= i < |ids| ==> ids[i] < id
    ensures forall i :: 0 <= i < |ApplyMerge(ids, p, id)| ==> ApplyMerge(ids, p, id)[i] <= id
    decreases |ids|
  {
    if ids != [] {
      MergeBelow(ids[1..], p, id);
      if |ids| >= 2 { MergeBelow(ids[2..], p, id); }
    }
  }

  // -- the whole order ------------------------------------------------------------

  predicate Bytes(ids: seq<nat>)
  {
    forall i :: 0 <= i < |ids| ==> ids[i] < ByteVocabSize
  }

  lemma MergesPrefix(ms: seq<Pair>, k: nat)
    requires MergesOK(ms) && k <= |ms|
    ensures MergesOK(ms[..k])
  {
  }

  /** After its merge no pair of lower rank is ever seen again in the row. */
  lemma {:induction false} RankOrderClean(ids: seq<nat>, ms: seq<Pair>, j: nat)
    requires MergesOK(ms) && j < |ms|
    ensures !Occurs(RankOrder(ids, ms), ms[j])
    decreases |ms|
  {
    var n := |ms| - 1;
    var prev := RankOrder(ids, ms[..n]);
    MergesPrefix(ms, n);
    if j == n {
      MergeRemoves(prev, ms[n], ByteVocabSize + n);
    } else {
      RankOrderClean(ids, ms[..n], j);
      MergeCreatesNothing(prev, ms[n], ByteVocabSize + n, ms[j]);
    }
  }

  /** Skipping merges whose pair is absent changes nothing. */
  lemma {:induction false} RankOrderSkip(ids: seq<nat>, ms: seq<Pair>, k: nat, r: nat)
    requires k <= r <= |ms|
    requires forall j :: k <= j < r ==> !Occurs(RankOrder(ids, ms[..k]), ms[j])
    ensures RankOrder(ids, ms[..r]) == RankOrder(ids, ms[..k])
    decreases r - k
  {
    if k < r {
      RankOrderSkip(ids, ms, k, r - 1);
      assert ms[..r][..r - 1] == ms[..r - 1];
      MergeAbsent(RankOrder(ids, ms[..k]), ms[r - 1], ByteVocabSize + (r - 1));
    }
  }

  /**
    One round of the encoder. If the row is what the first `k` merges make of the piece and
    `r` is the lowest-ranked merge whose pair occurs, applying it alone gives what the first
    `r + 1` merges make of the piece.
   */
  lemma RoundIsRankOrder(ids: seq<nat>, ms: seq<Pair>, k: nat, r: nat)
    requires MergesOK(ms) && k <= |ms| && r < |ms|
    requires Occurs(RankOrder(ids, ms[..k]), ms[r])
    requires forall j :: 0 <= j < r ==> !Occurs(RankOrder(ids, ms[..k]), ms[j])
    ensures k <= r
    ensures ApplyMerge(RankOrder(ids, ms[..k]), ms[r], ByteVocabSize + r) == RankOrder(ids, ms[..r + 1])
  {
    if r < k {
      MergesPrefix(ms, k);
      RankOrderClean(ids, ms[..k], r);
    }
    RankOrderSkip(ids, ms, k, r);
    assert ms[..r + 1][..r] == ms[..r];
  }

  /** When no learned pair occurs any more, all merges have had their effect. */
  lemma DoneIsRankOrder(ids: seq<nat>, ms: seq<Pair>, k: nat)
    requires k <= |ms| && forall j :: 0 <= j < |ms| ==> !Occurs(RankOrder(ids, ms[..k]), ms[j])
    ensures RankOrder(ids, ms[..k]) == RankOrder(ids, ms)
  {
    RankOrderSkip(ids, ms, k, |ms|);
    assert ms[..|ms|] == ms;
  }

  // -- decoding ---------------------------------------------------------------------

  /** `vocab[id]`: the bytes a token stands for, as `_rebuild` computes them. */
  function Expand(ms: seq<Pair>, id: nat): seq<nat>
    requires MergesOK(ms)
    decreases id
  {
    if id < ByteVocabSize then [id]
    else if id - ByteVocabSize < |ms| then
      var p := ms[id - ByteVocabSize];
      Expand(ms, p.left) + Expand(ms, p.right)
    else []
  }

  lemma ExpandBytes(ms: seq<Pair>)
    requires MergesOK(ms)
    ensures forall id :: 0 <= id < ByteVocabSize ==> Expand(ms, id) == [id]
  {
  }

  lemma ExpandMerge(ms: seq<Pair>, k: nat)
    requires MergesOK(ms) && k < |ms|
    ensures ms[k].left < ByteVocabSize + k && ms[k].right < ByteVocabSize + k
    ensures Expand(ms, ByteVocabSize + k) == Expand(ms, ms[k].left) + Expand(ms, ms[k].right)
  {
  }

  /** `decode` before the UTF-8 step: the tokens' bytes, concatenated. */
  function Decode(ms: seq<Pair>, ids: seq<nat>): seq<nat>
    requires MergesOK(ms)
  {
    if ids == [] then [] else Expand(ms, ids[0]) + Decode(ms, ids[1..])
  }

  lemma {:induction false} DecodeMerge(ms: seq<Pair>, ids: seq<nat>, k: nat)
    requires MergesOK(ms) && k < |ms|
    ensures Decode(ms, ApplyMerge(ids, ms[k], ByteVocabSize + k)) == Decode(ms, ids)
    decreases |ids|
  {
    var p, id := ms[k], ByteVocabSize + k;
    var r := ApplyMerge(ids, p, id);
    if ids != [] {
      if |ids| >= 2 && ids[0] == p.left && ids[1] == p.right {
        DecodeMerge(ms, ids[2..], k);
        assert r[1..] == ApplyMerge(ids[2..], p, id) && ids[1..][1..] == ids[2..];
        assert Expand(ms, id) == Expand(ms, p.left) + Expand(ms, p.right);
      } else {
        DecodeMerge(ms, ids[1..], k);
        assert r[1..] == ApplyMerge(ids[1..], p, id);
      }
    }
  }

  lemma {:induction false} DecodeBytes(ms: seq<Pair>, ids: seq<nat>)
    requires MergesOK(ms) && Bytes(ids)
    ensures Decode(ms, ids) == ids
  {
    if ids != [] {
      DecodeBytes(ms, ids[1..]);
      assert [ids[0]] + ids[1..] == ids;
    }
  }

  lemma {:induction false} DecodeRankOrder(ms: seq<Pair>, ids: seq<nat>, k: nat)
    requires MergesOK(ms) && k <= |ms|
    ensures Decode(ms, RankOrder(ids, ms[..k])) == Decode(ms, ids)
  {
    if k > 0 {
      DecodeRankOrder(ms, ids, k - 1);
      assert ms[..k][..k - 1] == ms[..k - 1];
      DecodeMerge(ms, RankOrder(ids, ms[..k - 1]), k - 1);
    }
  }

  /** The round trip: the tokens of a piece decode to exactly its bytes. */
  lemma DecodeEncode(ms: seq<Pair>, piece: seq<nat>)
    requires MergesOK(ms) && Bytes(piece)
    ensures Decode(ms, RankOrder(piece, ms)) == piece
  {
    assert ms[..|ms|] == ms;
    DecodeRankOrder(ms, piece, |ms|);
    DecodeBytes(ms, piece);
  }
}
