/** The tokenizer object (model/tokenizer.py, `BPETokenizer`): derived tables, encoder, decoder. */
module Tokenizer {
  import opened Wrappers
  import opened Bpe

  /** One turn of the loop: what is out so far, and the merge of what is left. */
  lemma MergeNext(out: seq<nat>, ids: seq<nat>, i: nat, p: Pair, id: nat)
    requires i < |ids|
    ensures var rest := out + ApplyMerge(ids[i..], p, id);
            if i < |ids| - 1 && ids[i] == p.left && ids[i + 1] == p.right then
              rest == out + [id] + ApplyMerge(ids[i + 2..], p, id)
            else
              rest == out + [ids[i]] + ApplyMerge(ids[i + 1..], p, id)
  {
    var rest := ids[i..];
    assert rest[1..] == ids[i + 1..] && (|rest| >= 2 ==> rest[2..] == ids[i + 2..]);
  }

  /** `_apply_merge`'s loop. */
  method Merge(ids: seq<nat>, p: Pair, id: nat) returns (out: seq<nat>)
    ensures out == ApplyMerge(ids, p, id)
  {
    out := [];
    var i, n := 0, |ids|;
    assert ids[0..] == ids && ApplyMerge([], p, id) == [];
    hide ApplyMerge;
    while i < n
      invariant 0 <= i <= n
      invariant out + ApplyMerge(ids[i..], p, id) == ApplyMerge(ids, p, id)
    {
      MergeNext(out, ids, i, p, id);
      if i < n - 1 && ids[i] == p.left && ids[i + 1] == p.right {
        out := out + [id];
        i := i + 2;
      } else {
        out := out + [ids[i]];
        i := i + 1;
      }
    }
  }

  /** The vocabulary loop of `_rebuild`: a merged token is its parts' bytes, in merge order. */
  method BuildVocab(ms: seq<Pair>) returns (vocab: map<nat, seq<nat>>)
    requires MergesOK(ms)
    ensures forall id :: 0 <= id < ByteVocabSize + |ms| ==> id in vocab && vocab[id] == Expand(ms, id)
  {
    hide *;
    vocab := map i | 0 <= i < ByteVocabSize :: [i];
    ExpandBytes(ms);
    var k := 0;
    while k < |ms|
      invariant 0 <= k <= |ms|
      invariant forall id :: 0 <= id < ByteVocabSize + k ==> id in vocab && vocab[id] == Expand(ms, id)
    {
      var p := ms[k];
      ExpandMerge(ms, k);
      assert p.left < ByteVocabSize + k && p.right < ByteVocabSize + k;
      vocab := vocab[ByteVocabSize + k := vocab[p.left] + vocab[p.right]];
      k := k + 1;
    }
  }

  /** Rank is position in the merge order. */
  method BuildRanks(ms: seq<Pair>) returns (ranks: map<Pair, nat>)
    requires MergesOK(ms)
    ensures forall i :: 0 <= i < |ms| ==> ms[i] in ranks && ranks[ms[i]] == i
    ensures forall p :: p in ranks ==> ranks[p] < |ms| && ms[ranks[p]] == p
  {
    ranks := map[];
    var k := 0;
    while k < |ms|
      invariant 0 <= k <= |ms|
      invariant forall i :: 0 <= i < k ==> ms[i] in ranks && ranks[ms[i]] == i
      invariant forall p :: p in ranks ==> ranks[p] < k && ms[ranks[p]] == p
    {
      ranks := ranks[ms[k] := k];
      k := k + 1;
    }
  }

  class BPETokenizer {
    const merges: seq<Pair>
    var ranks: map<Pair, nat>
    var vocab: map<nat, seq<nat>>
    var cache: map<seq<nat>, seq<nat>>

    ghost predicate Valid()
      reads this
    {
      && MergesOK(merges)
      && (forall i :: 0 <= i < |merges| ==> merges[i] in ranks && ranks[merges[i]] == i)
      && (forall p :: p in ranks ==> ranks[p] < |merges| && merges[ranks[p]] == p)
      && (forall id :: 0 <= id < ByteVocabSize + |merges| ==> id in vocab && vocab[id] == Expand(merges, id))
      && (forall w :: w in cache ==> cache[w] == RankOrder(w, merges))
    }

    constructor (ms: seq<Pair>)
      requires MergesOK(ms)
      ensures merges == ms && Valid()
    {
      merges := ms;
      ranks, vocab, cache := map[], map[], map[];
      new;
      Rebuild();
    }

    /** `_rebuild`: everything derivable from the merges; the memo starts empty. */
    method Rebuild()
      requires MergesOK(merges)
      modifies this
      ensures Valid() && cache == map[]
    {
      vocab := BuildVocab(merges);
      ranks := BuildRanks(merges);
      cache := map[];
    }

    /** The inner loop of `_encode_piece`: the learned pair of lowest rank in the row, if any. */
    method LowestRank(ids: seq<nat>) returns (best: Option<nat>)
      requires Valid()
      ensures best.Some? ==> best.value < |merges| && Occurs(ids, merges[best.value])
      ensures forall j :: 0 <= j < (if best.Some? then best.value else |merges|) ==> !Occurs(ids, merges[j])
    {
      best := None;
      var i := 0;
      while i + 1 < |ids|
        invariant 0 <= i && (i == 0 || i < |ids|)
        invariant best.Some? ==> best.value < |merges| && Occurs(ids, merges[best.value])
        invariant forall x :: 0 <= x < i && PairAt(ids, x) in ranks ==>
                    best.Some? && best.value <= ranks[PairAt(ids, x)]
      {
        var p := Pair(ids[i], ids[i + 1]);
        assert PairAt(ids, i) == p;
        if p in ranks && (best.None? || ranks[p] < best.value) {
          best := Some(ranks[p]);
        }
        i := i + 1;
      }
    }

    /**
      The outer loop of `_encode_piece`: repeatedly applying the lowest-ranked merge present
      gives what every learned merge, applied once in rank order, makes of the piece.
     */
    method EncodeRounds(piece: seq<nat>) returns (ids: seq<nat>)
      requires Valid()
      ensures ids == RankOrder(piece, merges)
    {
      ids := piece;
      ghost var k := 0;
      assert merges[..0] == [];
      while |ids| > 1
        invariant k <= |merges| && ids == RankOrder(piece, merges[..k])
        decreases |merges| - k
      {
        var best := LowestRank(ids);
        if best.None? {
          break;
        }
        RoundIsRankOrder(piece, merges, k, best.value);
        ids := Merge(ids, merges[best.value], ByteVocabSize + best.value);
        k := best.value + 1;
      }
      DoneIsRankOrder(piece, merges, k);
    }

    /** `_encode_piece`: the memo is never seen in the answer, and the answer decodes to the piece. */
    method EncodePiece(piece: seq<nat>) returns (ids: seq<nat>)
      requires Valid()
      modifies this`cache
      ensures Valid() && ids == RankOrder(piece, merges)
      ensures Bytes(piece) ==> Bpe.Decode(merges, ids) == piece
      ensures cache == old(cache)[piece := ids]
    {
      if Bytes(piece) { DecodeEncode(merges, piece); }
      if piece in cache {
        assert cache[piece := cache[piece]] == cache;
        return cache[piece];
      }
      ids := EncodeRounds(piece);
      cache := cache[piece := ids];
    }

    /** `decode` up to the UTF-8 step. */
    method Decode(ids: seq<nat>) returns (buf: seq<nat>)
      requires Valid() && forall i :: 0 <= i < |ids| ==> ids[i] < ByteVocabSize + |merges|
      ensures buf == Bpe.Decode(merges, ids)
    {
      buf := [];
      var i := 0;
      while i < |ids|
        invariant 0 <= i <= |ids| && buf + Bpe.Decode(merges, ids[i..]) == Bpe.Decode(merges, ids)
      {
        assert ids[i..][1..] == ids[i + 1..];
        buf := buf + vocab[ids[i]];
        i := i + 1;
      }
    }
  }
}
