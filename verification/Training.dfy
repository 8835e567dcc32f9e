/**
  Learning merges (model/tokenizer.py, `BPETokenizer.train`) on the table of distinct
  pre-tokens and their counts, with the incrementally maintained pair index.
 */
module Training {
  import opened Bpe
  import Tokenizer
  import opened Wrappers

  // -- the full recount ------------------------------------------------------------

  /** What one word of frequency `f` contributes to the count of `q`: `f` per occurrence. */
  function Share(word: seq<nat>, f: nat, q: Pair): nat
  {
    if |word| < 2 then 0 else (if PairAt(word, 0) == q then f else 0) + Share(word[1..], f, q)
  }

  function Recount(words: seq<seq<nat>>, freqs: seq<nat>, q: Pair): nat
    requires |freqs| == |words|
  {
    if words == [] then 0 else
      var n := |words| - 1;
      Recount(words[..n], freqs[..n], q) + Share(words[n], freqs[n], q)
  }

  /** A word's share is its frequency times the number of places the pair stands at. */
  lemma {:induction false} ShareCounts(word: seq<nat>, f: nat, q: Pair)
    ensures Share(word, f, q) == f * |PairPlaces(word, q)|
  {
    if |word| >= 2 {
      ShareCounts(word[1..], f, q);
      PlacesCons(word, q);
      assert f * (|PairPlaces(word[1..], q)| + 1) == f * |PairPlaces(word[1..], q)| + f;
    }
  }

  function PairPlaces(word: seq<nat>, q: Pair): set<int>
  {
    set i | 0 <= i < |word| - 1 && PairAt(word, i) == q
  }

  lemma PlacesCons(word: seq<nat>, q: Pair)
    requires |word| >= 2
    ensures |PairPlaces(word, q)| == |PairPlaces(word[1..], q)| + if PairAt(word, 0) == q then 1 else 0
  {
    var at, rest := PairPlaces(word, q), PairPlaces(word[1..], q);
    forall y ensures y in at - {0} <==> y - 1 in rest {
      if 1 <= y < |word| - 1 { assert PairAt(word[1..], y - 1) == PairAt(word, y); }
    }
    assert 0 in at <==> PairAt(word, 0) == q;
    hide PairPlaces, PairAt;
    SameSize(rest, at - {0});
    assert if 0 in at then at == at - {0} + {0} else at == at - {0};
  }

  lemma Member<T>(s: set<T>) returns (x: T)
    requires |s| > 0
    ensures x in s
  {
    x :| x in s;
  }

  lemma {:induction false} SameSize(b: set<int>, c: set<int>)
    requires forall y :: y in c <==> y - 1 in b
    ensures |c| == |b|
  {
    if |b| == 0 {
      assert c == {} by { assert forall y :: y in c ==> y - 1 in b; }
    } else {
      var x := Member(b);
      assert x + 1 in c by { assert x + 1 - 1 in b; }
      SameSize(b - {x}, c - {x + 1});
    }
  }

  /** `pair_counts` and `where`. */
  datatype Index = Index(counts: map<Pair, nat>, places: map<Pair, set<nat>>)

  function CountOf(ix: Index, q: Pair): nat
  {
    if q in ix.counts then ix.counts[q] else 0
  }

  function PlacesOf(ix: Index, q: Pair): set<nat>
  {
    if q in ix.places then ix.places[q] else {}
  }

  /** The counts are a full recount, and hold no pair of count zero. */
  ghost predicate CountsOK(ix: Index, words: seq<seq<nat>>, freqs: seq<nat>)
    requires |freqs| == |words|
  {
    forall q: Pair :: CountOK(ix, words, freqs, q)
  }

  ghost predicate CountOK(ix: Index, words: seq<seq<nat>>, freqs: seq<nat>, q: Pair)
    requires |freqs| == |words|
  {
    CountOf(ix, q) == Recount(words, freqs, q) && (q in ix.counts ==> ix.counts[q] > 0)
  }

  /** `where` lists exactly the words a pair occurs in. */
  ghost predicate PlacesOK(ix: Index, words: seq<seq<nat>>)
  {
    forall q: Pair, i: nat :: PlaceOK(ix, words, q, i)
  }

  ghost predicate PlaceOK(ix: Index, words: seq<seq<nat>>, q: Pair, i: nat)
  {
    i in PlacesOf(ix, q) <==> i < |words| && Occurs(words[i], q)
  }

  ghost predicate IndexOK(ix: Index, words: seq<seq<nat>>, freqs: seq<nat>)
    requires |freqs| == |words|
  {
    CountsOK(ix, words, freqs) && PlacesOK(ix, words)
  }

  lemma {:induction false} RecountUpdate(words: seq<seq<nat>>, freqs: seq<nat>, i: nat, w: seq<nat>, q: Pair)
    requires |freqs| == |words| && i < |words|
    ensures Recount(words[i := w], freqs, q) + Share(words[i], freqs[i], q)
         == Recount(words, freqs, q) + Share(w, freqs[i], q)
  {
    var n := |words| - 1;
    if i == n {
      assert words[i := w][..n] == words[..n];
    } else {
      RecountUpdate(words[..n], freqs[..n], i, w, q);
      assert words[i := w][..n] == words[..n][i := w];
    }
  }

  lemma {:induction false} ShareSnoc(word: seq<nat>, x: nat, f: nat, q: Pair)
    ensures Share(word + [x], f, q)
         == Share(word, f, q) + if word != [] && Pair(word[|word| - 1], x) == q then f else 0
  {
    var w := word + [x];
    if |word| >= 2 {
      ShareSnoc(word[1..], x, f, q);
      assert w[1..] == word[1..] + [x];
    } else if |word| == 1 {
      assert w[1..] == [x];
    }
  }

  lemma {:induction false} ShareOccurs(word: seq<nat>, f: nat, q: Pair)
    requires f >= 1
    ensures Share(word, f, q) > 0 <==> Occurs(word, q)
  {
    OccursHead(word, q);
    if |word| >= 2 {
      ShareOccurs(word[1..], f, q);
    }
  }

  lemma OccursSnoc(word: seq<nat>, x: nat, q: Pair)
    ensures Occurs(word + [x], q) <==> Occurs(word, q) || (word != [] && Pair(word[|word| - 1], x) == q)
  {
    var w, n := word + [x], |word|;
    assert forall i :: 0 <= i < n - 1 ==> PairAt(w, i) == PairAt(word, i);
    if n > 0 {
      assert PairAt(w, n - 1) == Pair(word[n - 1], x);
    }
    if Occurs(w, q) {
      var i :| 0 <= i < |w| - 1 && PairAt(w, i) == q;
    }
  }

  // -- retracting and re-adding one word ----------------------------------------------

  /** Word `wi` is half withdrawn: the pairs before position `j` no longer count. */
  ghost predicate Retracting(ix: Index, words: seq<seq<nat>>, freqs: seq<nat>, wi: nat, j: nat)
    requires |freqs| == |words| && wi < |words| && j <= |words[wi]|
  {
    && CountsOK(ix, words[wi := words[wi][j..]], freqs)
    && forall q: Pair, i: nat :: StillListed(ix, words, wi, j, q, i)
  }

  ghost predicate StillListed(ix: Index, words: seq<seq<nat>>, wi: nat, j: nat, q: Pair, i: nat)
    requires wi < |words|
  {
    i in PlacesOf(ix, q) <==>
      i < |words| && Occurs(words[i], q) && (i == wi ==> !Occurs(Upto(words[wi], j), q))
  }

  /** The part of a word its first `j` pairs span. */
  function Upto(word: seq<nat>, j: nat): seq<nat>
  {
    if j + 1 <= |word| then word[..j + 1] else word
  }

  function Subtract(ix: Index, p: Pair, f: nat, wi: nat): Index
  {
    var v := CountOf(ix, p);
    Index(if v <= f then ix.counts - {p} else ix.counts[p := v - f],
          ix.places[p := PlacesOf(ix, p) - {wi}])
  }

  function Insert(ix: Index, p: Pair, f: nat, wi: nat): Index
  {
    Index(ix.counts[p := CountOf(ix, p) + f], ix.places[p := PlacesOf(ix, p) + {wi}])
  }

  lemma SubtractStep(ix: Index, words: seq<seq<nat>>, freqs: seq<nat>, wi: nat, cur: seq<nat>)
    requires |freqs| == |words| && wi < |words| && |cur| >= 2 && CountsOK(ix, words[wi := cur], freqs)
    ensures CountsOK(Subtract(ix, PairAt(cur, 0), freqs[wi], wi), words[wi := cur[1..]], freqs)
  {
    var ix', ws, ws' := Subtract(ix, PairAt(cur, 0), freqs[wi], wi), words[wi := cur], words[wi := cur[1..]];
    assert ws[wi := cur[1..]] == ws';
    forall q: Pair ensures CountOK(ix', ws', freqs, q) {
      RecountUpdate(ws, freqs, wi, cur[1..], q);
      assert CountOK(ix, ws, freqs, q);
    }
  }

  lemma InsertStep(ix: Index, words: seq<seq<nat>>, freqs: seq<nat>, wi: nat, cur: seq<nat>, x: nat)
    requires |freqs| == |words| && wi < |words| && freqs[wi] >= 1 && cur != [] && CountsOK(ix, words[wi := cur], freqs)
    ensures CountsOK(Insert(ix, Pair(cur[|cur| - 1], x), freqs[wi], wi), words[wi := cur + [x]], freqs)
  {
    var ix', ws, ws' := Insert(ix, Pair(cur[|cur| - 1], x), freqs[wi], wi), words[wi := cur], words[wi := cur + [x]];
    assert ws[wi := cur + [x]] == ws';
    forall q: Pair ensures CountOK(ix', ws', freqs, q) {
      RecountUpdate(ws, freqs, wi, cur + [x], q);
      ShareSnoc(cur, x, freqs[wi], q);
      assert CountOK(ix, ws, freqs, q);
    }
  }

  /** A row of fewer than two tokens has no pairs, whatever it is. */
  lemma ShortWord(ix: Index, words: seq<seq<nat>>, freqs: seq<nat>, wi: nat, w: seq<nat>, w': seq<nat>)
    requires |freqs| == |words| && wi < |words| && |w| < 2 && |w'| < 2
    ensures CountsOK(ix, words[wi := w], freqs) ==> CountsOK(ix, words[wi := w'], freqs)
    ensures PlacesOK(ix, words[wi := w]) ==> PlacesOK(ix, words[wi := w'])
  {
    var ws, ws' := words[wi := w], words[wi := w'];
    assert ws[wi := w'] == ws';
    if CountsOK(ix, ws, freqs) {
      forall q: Pair ensures CountOK(ix, ws', freqs, q) {
        RecountUpdate(ws, freqs, wi, w', q);
        assert CountOK(ix, ws, freqs, q);
      }
    }
    if PlacesOK(ix, ws) {
      forall q: Pair, i: nat ensures PlaceOK(ix, ws', q, i) {
        assert PlaceOK(ix, ws, q, i);
      }
    }
  }

  lemma RetractStep(ix: Index, words: seq<seq<nat>>, freqs: seq<nat>, wi: nat, j: nat)
    requires |freqs| == |words| && wi < |words| && j + 1 < |words[wi]| && Retracting(ix, words, freqs, wi, j)
    ensures Retracting(Subtract(ix, PairAt(words[wi], j), freqs[wi], wi), words, freqs, wi, j + 1)
  {
    var word, p := words[wi], PairAt(words[wi], j);
    var ix' := Subtract(ix, p, freqs[wi], wi);
    SubtractStep(ix, words, freqs, wi, word[j..]);
    assert word[j..][1..] == word[j + 1..] && PairAt(word[j..], 0) == p;
    assert Upto(word, j + 1) == Upto(word, j) + [word[j + 1]];
    var j' := j + 1;
    forall q: Pair, i: nat ensures StillListed(ix', words, wi, j', q, i) {
      OccursSnoc(Upto(word, j), word[j + 1], q);
      assert StillListed(ix, words, wi, j, q, i);
    }
  }

  lemma AddStep(ix: Index, words: seq<seq<nat>>, freqs: seq<nat>, wi: nat, cur: seq<nat>, x: nat)
    requires |freqs| == |words| && wi < |words| && freqs[wi] >= 1 && cur != [] && IndexOK(ix, words[wi := cur], freqs)
    ensures IndexOK(Insert(ix, Pair(cur[|cur| - 1], x), freqs[wi], wi), words[wi := cur + [x]], freqs)
  {
    InsertStep(ix, words, freqs, wi, cur, x);
    var ix', ws, ws' := Insert(ix, Pair(cur[|cur| - 1], x), freqs[wi], wi), words[wi := cur], words[wi := cur + [x]];
    forall q: Pair, i: nat ensures PlaceOK(ix', ws', q, i) {
      OccursSnoc(cur, x, q);
      assert PlaceOK(ix, ws, q, i);
    }
  }

  /** The loop that withdraws a word's pairs, one occurrence at a time: the index of all other words. */
  method Retract(ix: Index, words: seq<seq<nat>>, freqs: seq<nat>, wi: nat) returns (r: Index)
    requires |freqs| == |words| && wi < |words| && IndexOK(ix, words, freqs)
    ensures IndexOK(r, words[wi := []], freqs)
  {
    var word, j := words[wi], 0;
    r := ix;
    RetractStart(ix, words, freqs, wi);
    while j + 1 < |word|
      invariant j <= |word| && (j == 0 || j < |word|)
      invariant Retracting(r, words, freqs, wi, j)
    {
      RetractStep(r, words, freqs, wi, j);
      r := Subtract(r, Pair(word[j], word[j + 1]), freqs[wi], wi);
      j := j + 1;
    }
    RetractEnd(r, words, freqs, wi, j);
  }

  lemma RetractStart(ix: Index, words: seq<seq<nat>>, freqs: seq<nat>, wi: nat)
    requires |freqs| == |words| && wi < |words| && IndexOK(ix, words, freqs)
    ensures Retracting(ix, words, freqs, wi, 0)
  {
    assert words[wi][0..] == words[wi] && words[wi := words[wi]] == words;
    forall q: Pair, i: nat ensures StillListed(ix, words, wi, 0, q, i) {
      assert PlaceOK(ix, words, q, i);
    }
  }

  lemma RetractEnd(ix: Index, words: seq<seq<nat>>, freqs: seq<nat>, wi: nat, j: nat)
    requires |freqs| == |words| && wi < |words| && j <= |words[wi]| <= j + 1 && Retracting(ix, words, freqs, wi, j)
    ensures IndexOK(ix, words[wi := []], freqs)
  {
    var ws := words[wi := []];
    ShortWord(ix, words, freqs, wi, words[wi][j..], []);
    assert Upto(words[wi], j) == words[wi];
    forall q: Pair, i: nat ensures PlaceOK(ix, ws, q, i) {
      assert StillListed(ix, words, wi, j, q, i);
    }
  }

  /** The loop that counts a word's pairs in. */
  method Restore(ix: Index, ghost words: seq<seq<nat>>, freqs: seq<nat>, wi: nat, word: seq<nat>) returns (r: Index)
    requires |freqs| == |words| && wi < |words| && freqs[wi] >= 1 && IndexOK(ix, words[wi := []], freqs)
    ensures IndexOK(r, words[wi := word], freqs)
  {
    var j := 0;
    r := ix;
    ShortWord(r, words, freqs, wi, [], Upto(word, 0));
    while j + 1 < |word|
      invariant j == 0 || j < |word|
      invariant IndexOK(r, words[wi := Upto(word, j)], freqs)
    {
      AddStep(r, words, freqs, wi, Upto(word, j), word[j + 1]);
      assert Upto(word, j + 1) == Upto(word, j) + [word[j + 1]];
      r := Insert(r, Pair(word[j], word[j + 1]), freqs[wi], wi);
      j := j + 1;
    }
    assert Upto(word, j) == word;
  }

  lemma PlacesBound(ix: Index, words: seq<seq<nat>>, q: Pair)
    requires PlacesOK(ix, words)
    ensures forall i: nat :: i in PlacesOf(ix, q) ==> i < |words|
  {
    forall i: nat | i in PlacesOf(ix, q) ensures i < |words| {
      assert PlaceOK(ix, words, q, i);
    }
  }

  // -- one merge -----------------------------------------------------------------------

  ghost predicate Frequencies(words: seq<seq<nat>>, freqs: seq<nat>)
  {
    |freqs| == |words| && forall i :: 0 <= i < |freqs| ==> freqs[i] >= 1
  }

  /**
    The body of the merge loop. Rewriting only the words `where` lists rewrites them all, and
    afterwards counts and places are again a full recount; the merged pair is in no word.
   */
  method MergeStep(words: seq<seq<nat>>, freqs: seq<nat>, ix: Index, best: Pair, id: nat)
    returns (rows: seq<seq<nat>>, r: Index)
    requires Frequencies(words, freqs) && IndexOK(ix, words, freqs) && id != best.left && id != best.right
    ensures |rows| == |words| && forall i :: 0 <= i < |words| ==> rows[i] == ApplyMerge(words[i], best, id)
    ensures IndexOK(r, rows, freqs)
    ensures forall i :: 0 <= i < |rows| ==> !Occurs(rows[i], best)
    ensures best !in r.counts && best !in r.places
  {
    var affected := PlacesOf(ix, best);
    var todo := affected;
    rows, r := words, ix;
    PlacesBound(ix, words, best);
    while todo != {}
      invariant todo <= affected && |rows| == |words|
      invariant forall i :: 0 <= i < |words| ==>
        rows[i] == if i in affected && i !in todo then ApplyMerge(words[i], best, id) else words[i]
      invariant IndexOK(r, rows, freqs)
    {
      var wi :| wi in todo;
      assert wi in PlacesOf(ix, best);
      r := Retract(r, rows, freqs, wi);
      var word := Tokenizer.Merge(rows[wi], best, id);
      r := Restore(r, rows, freqs, wi, word);
      rows := rows[wi := word];
      todo := todo - {wi};
    }
    MergedRows(words, ix, rows, best, id);
    ghost var full := r;
    r := Index(r.counts, r.places - {best});
    MergedIndex(full, rows, freqs, best);
  }

  lemma MergedRows(words: seq<seq<nat>>, ix: Index, rows: seq<seq<nat>>, best: Pair, id: nat)
    requires |rows| == |words| && PlacesOK(ix, words) && id != best.left && id != best.right
    requires forall i :: 0 <= i < |words| ==>
      rows[i] == if i in PlacesOf(ix, best) then ApplyMerge(words[i], best, id) else words[i]
    ensures forall i :: 0 <= i < |words| ==> rows[i] == ApplyMerge(words[i], best, id) && !Occurs(rows[i], best)
  {
    forall i | 0 <= i < |words| ensures rows[i] == ApplyMerge(words[i], best, id) && !Occurs(rows[i], best) {
      assert PlaceOK(ix, words, best, i);
      if i !in PlacesOf(ix, best) { MergeAbsent(words[i], best, id); }
      MergeRemoves(words[i], best, id);
    }
  }

  lemma MergedIndex(ix: Index, rows: seq<seq<nat>>, freqs: seq<nat>, best: Pair)
    requires |freqs| == |rows| && IndexOK(ix, rows, freqs) && forall i :: 0 <= i < |rows| ==> !Occurs(rows[i], best)
    requires forall i :: 0 <= i < |freqs| ==> freqs[i] >= 1
    ensures best !in ix.counts && IndexOK(Index(ix.counts, ix.places - {best}), rows, freqs)
  {
    var r := Index(ix.counts, ix.places - {best});
    NoneCounted(rows, freqs, best);
    assert CountOK(ix, rows, freqs, best);
    forall q: Pair ensures CountOK(r, rows, freqs, q) {
      assert CountOK(ix, rows, freqs, q);
    }
    forall q: Pair, i: nat ensures PlaceOK(r, rows, q, i) {
      assert PlaceOK(ix, rows, q, i);
    }
  }

  lemma {:induction false} NoneCounted(words: seq<seq<nat>>, freqs: seq<nat>, q: Pair)
    requires |freqs| == |words| && (forall i :: 0 <= i < |freqs| ==> freqs[i] >= 1)
    requires forall i :: 0 <= i < |words| ==> !Occurs(words[i], q)
    ensures Recount(words, freqs, q) == 0
  {
    if words != [] {
      var n := |words| - 1;
      NoneCounted(words[..n], freqs[..n], q);
      ShareOccurs(words[n], freqs[n], q);
    }
  }

  // -- choosing a merge -------------------------------------------------------------------

  predicate PairLess(p: Pair, q: Pair)
  {
    p.left < q.left || (p.left == q.left && p.right < q.right)
  }

  /** `p` has the greatest key (count, pair): the most frequent pair, the larger one on a tie. */
  ghost predicate IsBest(words: seq<seq<nat>>, freqs: seq<nat>, p: Pair)
    requires |freqs| == |words|
  {
    && Recount(words, freqs, p) > 0
    && forall q: Pair :: q != p ==>
         || Recount(words, freqs, q) < Recount(words, freqs, p)
         || (Recount(words, freqs, q) == Recount(words, freqs, p)
             && (q.left < p.left || (q.left == p.left && q.right < p.right)))
  }

  /** `max(pair_counts, key=(count, pair))`. */
  method BestPair(ix: Index, ghost words: seq<seq<nat>>, ghost freqs: seq<nat>) returns (best: Pair)
    requires |freqs| == |words| && CountsOK(ix, words, freqs) && ix.counts != map[]
    ensures best in ix.counts && IsBest(words, freqs, best) && ix.counts[best] == Recount(words, freqs, best)
  {
    best :| best in ix.counts;
    var todo := ix.counts.Keys - {best};
    while todo != {}
      invariant best in ix.counts && todo <= ix.counts.Keys
      invariant forall q :: q in ix.counts && q !in todo && q != best ==>
        ix.counts[q] < ix.counts[best] || (ix.counts[q] == ix.counts[best] && PairLess(q, best))
    {
      var p :| p in todo;
      if ix.counts[best] < ix.counts[p] || (ix.counts[best] == ix.counts[p] && PairLess(best, p)) {
        best := p;
      }
      todo := todo - {p};
    }
    assert CountOK(ix, words, freqs, best);
    forall q: Pair | q != best
      ensures Recount(words, freqs, q) < Recount(words, freqs, best)
        || (Recount(words, freqs, q) == Recount(words, freqs, best) && PairLess(q, best))
    {
      assert CountOK(ix, words, freqs, q);
    }
  }

  // -- training -------------------------------------------------------------------------------

  ghost function Rows(words: seq<seq<nat>>, ms: seq<Pair>): (r: seq<seq<nat>>)
    ensures |r| == |words| && forall i :: 0 <= i < |words| ==> r[i] == RankOrder(words[i], ms)
  {
    seq(|words|, i requires 0 <= i < |words| => RankOrder(words[i], ms))
  }

  /** Every merge was the best pair of the rows as the merges before it had left them. */
  ghost predicate Greedy(words: seq<seq<nat>>, freqs: seq<nat>, ms: seq<Pair>, minFrequency: int)
    requires |freqs| == |words|
  {
    forall k :: 0 <= k < |ms| ==> GoodChoice(words, freqs, ms, minFrequency, k)
  }

  ghost predicate GoodChoice(words: seq<seq<nat>>, freqs: seq<nat>, ms: seq<Pair>, minFrequency: int, k: nat)
    requires |freqs| == |words| && k < |ms|
  {
    IsBest(Rows(words, ms[..k]), freqs, ms[k]) && Recount(Rows(words, ms[..k]), freqs, ms[k]) >= minFrequency
  }

  ghost predicate Below(rows: seq<seq<nat>>, n: nat)
  {
    forall i, j :: 0 <= i < |rows| && 0 <= j < |rows[i]| ==> rows[i][j] < n
  }

  lemma {:induction false} CountedOccurs(words: seq<seq<nat>>, freqs: seq<nat>, q: Pair) returns (i: nat)
    requires Frequencies(words, freqs) && Recount(words, freqs, q) > 0
    ensures i < |words| && Occurs(words[i], q)
  {
    var n := |words| - 1;
    ShareOccurs(words[n], freqs[n], q);
    if Occurs(words[n], q) {
      i := n;
    } else {
      i := CountedOccurs(words[..n], freqs[..n], q);
    }
  }

  /** A pair that still occurs was not merged before, and is made of existing tokens. */
  lemma FreshMerge(words: seq<seq<nat>>, freqs: seq<nat>, ms: seq<Pair>, best: Pair)
    requires Frequencies(words, freqs) && MergesOK(ms) && Below(Rows(words, ms), ByteVocabSize + |ms|)
    requires Recount(Rows(words, ms), freqs, best) > 0
    ensures MergesOK(ms + [best]) && best.left < ByteVocabSize + |ms| && best.right < ByteVocabSize + |ms|
  {
    var rows := Rows(words, ms);
    var i := CountedOccurs(rows, freqs, best);
    var x :| 0 <= x < |rows[i]| - 1 && PairAt(rows[i], x) == best;
    forall j | 0 <= j < |ms| ensures ms[j] != best {
      RankOrderClean(words[i], ms, j);
    }
  }

  lemma RankOrderSnoc(word: seq<nat>, ms: seq<Pair>, p: Pair)
    ensures RankOrder(word, ms + [p]) == ApplyMerge(RankOrder(word, ms), p, ByteVocabSize + |ms|)
  {
    assert (ms + [p])[..|ms|] == ms;
  }

  lemma RowsSnoc(words: seq<seq<nat>>, ms: seq<Pair>, best: Pair, prev: seq<seq<nat>>, rows: seq<seq<nat>>)
    requires |rows| == |words| && prev == Rows(words, ms)
    requires forall i :: 0 <= i < |words| ==> rows[i] == ApplyMerge(prev[i], best, ByteVocabSize + |ms|)
    ensures rows == Rows(words, ms + [best])
  {
    hide *;
    var ns := ms + [best];
    forall i | 0 <= i < |words| ensures rows[i] == RankOrder(words[i], ns) {
      assert prev[i] == RankOrder(words[i], ms);
      RankOrderSnoc(words[i], ms, best);
    }
    RowsAre(words, ns, rows);
  }

  lemma RowsAre(words: seq<seq<nat>>, ms: seq<Pair>, rows: seq<seq<nat>>)
    requires |rows| == |words| && forall i :: 0 <= i < |words| ==> rows[i] == RankOrder(words[i], ms)
    ensures rows == Rows(words, ms)
  {
    hide *;
  }

  lemma MergedBelow(words: seq<seq<nat>>, best: Pair, id: nat, rows: seq<seq<nat>>)
    requires |rows| == |words| && Below(words, id)
    requires forall i :: 0 <= i < |words| ==> rows[i] == ApplyMerge(words[i], best, id)
    ensures Below(rows, id + 1)
  {
    hide ApplyMerge;
    forall i, j | 0 <= i < |rows| && 0 <= j < |rows[i]| ensures rows[i][j] < id + 1 {
      MergeBelow(words[i], best, id);
    }
  }

  lemma GreedySnoc(words: seq<seq<nat>>, freqs: seq<nat>, ms: seq<Pair>, minFrequency: int, best: Pair)
    requires |freqs| == |words| && Greedy(words, freqs, ms, minFrequency)
    requires IsBest(Rows(words, ms), freqs, best) && Recount(Rows(words, ms), freqs, best) >= minFrequency
    ensures Greedy(words, freqs, ms + [best], minFrequency)
  {
    var ns := ms + [best];
    forall k | 0 <= k < |ns| ensures GoodChoice(words, freqs, ns, minFrequency, k) {
      assert ns[..k] == ms[..k];
      if k < |ms| {
        assert GoodChoice(words, freqs, ms, minFrequency, k);
      } else {
        assert ms[..k] == ms;
      }
    }
  }

  /** The initial indexing loop. */
  method BuildIndex(words: seq<seq<nat>>, freqs: seq<nat>) returns (ix: Index)
    requires Frequencies(words, freqs)
    ensures IndexOK(ix, words, freqs)
  {
    ix := Index(map[], map[]);
    ghost var sofar := seq(|words|, _ => []);
    EmptyIndex(sofar, freqs);
    var wi := 0;
    while wi < |words|
      invariant 0 <= wi <= |words| && |sofar| == |words|
      invariant forall i :: 0 <= i < |words| ==> sofar[i] == if i < wi then words[i] else []
      invariant IndexOK(ix, sofar, freqs)
    {
      assert sofar[wi := []] == sofar;
      ix := Restore(ix, sofar, freqs, wi, words[wi]);
      sofar := sofar[wi := words[wi]];
      wi := wi + 1;
    }
    assert sofar == words;
  }

  lemma EmptyIndex(words: seq<seq<nat>>, freqs: seq<nat>)
    requires Frequencies(words, freqs) && forall i :: 0 <= i < |words| ==> words[i] == []
    ensures IndexOK(Index(map[], map[]), words, freqs)
  {
    forall q: Pair ensures CountOK(Index(map[], map[]), words, freqs, q) { NoneCounted(words, freqs, q); }
  }

  /**
    `train` after the corpus is collapsed: learns merges until `nMerges` are learned, no pair
    is left, or the best one is too rare. Every merge is the best pair of a full recount at
    its turn, no pair is learned twice, and the rows it ends with are what the learned merges,
    applied once each in rank order, make of the words.
   */
  method Train(words: seq<seq<nat>>, freqs: seq<nat>, nMerges: nat, minFrequency: int)
    returns (ms: seq<Pair>, rows: seq<seq<nat>>)
    requires Frequencies(words, freqs) && Below(words, ByteVocabSize)
    ensures MergesOK(ms) && |ms| <= nMerges && Greedy(words, freqs, ms, minFrequency)
    ensures rows == Rows(words, ms)
    ensures |ms| < nMerges ==> forall q: Pair :: IsBest(rows, freqs, q) ==> Recount(rows, freqs, q) < minFrequency
  {
    var ix := BuildIndex(words, freqs);
    ms, rows := [], words;
    assert Rows(words, []) == words;
    while |ms| < nMerges
      invariant MergesOK(ms) && |ms| <= nMerges && Greedy(words, freqs, ms, minFrequency)
      invariant rows == Rows(words, ms) && Below(rows, ByteVocabSize + |ms|)
      invariant IndexOK(ix, rows, freqs)
      decreases nMerges - |ms|
    {
      if ix.counts == map[] {
        NoPairs(ix, rows, freqs);
        return;
      }
      var best := BestPair(ix, rows, freqs);
      if ix.counts[best] < minFrequency {
        BestUnique(rows, freqs, best);
        return;
      }
      FreshMerge(words, freqs, ms, best);
      GreedySnoc(words, freqs, ms, minFrequency, best);
      ghost var before := rows;
      rows, ix := MergeStep(rows, freqs, ix, best, ByteVocabSize + |ms|);
      RowsSnoc(words, ms, best, before, rows);
      MergedBelow(before, best, ByteVocabSize + |ms|, rows);
      ms := ms + [best];
    }
  }

  lemma NoPairs(ix: Index, rows: seq<seq<nat>>, freqs: seq<nat>)
    requires |freqs| == |rows| && CountsOK(ix, rows, freqs) && ix.counts == map[]
    ensures forall q: Pair :: !IsBest(rows, freqs, q)
  {
    forall q: Pair ensures !IsBest(rows, freqs, q) {
      assert CountOK(ix, rows, freqs, q);
    }
  }

  lemma BestUnique(rows: seq<seq<nat>>, freqs: seq<nat>, p: Pair)
    requires |freqs| == |rows| && IsBest(rows, freqs, p)
    ensures forall q: Pair :: IsBest(rows, freqs, q) ==> q == p
  {
  }

  /** The corpus as a table: each distinct piece once, with how often it occurs. */
  ghost predicate Tabled(pieces: seq<seq<nat>>, words: seq<seq<nat>>, freqs: seq<nat>, at: map<seq<nat>, nat>)
  {
    && |freqs| == |words|
    && (forall i :: 0 <= i < |words| ==>
          words[i] in at && at[words[i]] == i && freqs[i] == multiset(pieces)[words[i]] >= 1)
    && (forall w :: w in at ==> at[w] < |words| && words[at[w]] == w)
    && (forall w :: w in at <==> w in multiset(pieces))
  }

  /** Collapses the pre-tokenized corpus to unique pieces and counts, in order of first occurrence. */
  method CountPieces(pieces: seq<seq<nat>>) returns (words: seq<seq<nat>>, freqs: seq<nat>, at: map<seq<nat>, nat>)
    ensures Tabled(pieces, words, freqs, at)
  {
    words, freqs, at := [], [], map[];
    var n := 0;
    while n < |pieces|
      invariant 0 <= n <= |pieces| && Tabled(pieces[..n], words, freqs, at)
    {
      var w := pieces[n];
      assert pieces[..n + 1] == pieces[..n] + [w];
      if w in at {
        freqs := freqs[at[w] := freqs[at[w]] + 1];
      } else {
        at := at[w := |words|];
        words, freqs := words + [w], freqs + [1];
      }
      n := n + 1;
    }
    assert pieces[..n] == pieces;
  }

  /**
    `train`: refused exactly when the vocabulary has no room for the bytes and the special
    tokens; otherwise the tokenizer's merges are greedy for the piece counts, and it encodes
    every training piece to that piece's row at the end of training.
   */
  method TrainTokenizer(pieces: seq<seq<nat>>, vocabSize: int, specials: nat, minFrequency: int)
    returns (tok: Option<Tokenizer.BPETokenizer>, words: seq<seq<nat>>, freqs: seq<nat>, rows: seq<seq<nat>>)
    requires forall w :: w in pieces ==> Bytes(w)
    ensures tok.None? <==> vocabSize < ByteVocabSize + specials
    ensures tok.Some? ==>
      && tok.value.Valid() && |tok.value.merges| <= vocabSize - ByteVocabSize - specials
      && |freqs| == |words| == |rows| && Greedy(words, freqs, tok.value.merges, minFrequency)
      && (forall i :: 0 <= i < |words| ==> freqs[i] == multiset(pieces)[words[i]] >= 1)
      && (forall i, j :: 0 <= i < j < |words| ==> words[i] != words[j])
      && (forall w :: w in pieces <==> w in words)
      && (forall i :: 0 <= i < |words| ==> rows[i] == RankOrder(words[i], tok.value.merges))
  {
    tok, words, freqs, rows := None, [], [], [];
    var nMerges := vocabSize - ByteVocabSize - specials;
    if nMerges >= 0 {
      var at;
      words, freqs, at := CountPieces(pieces);
      TableFacts(pieces, words, freqs, at);
      var ms;
      ms, rows := Train(words, freqs, nMerges, minFrequency);
      var t := new Tokenizer.BPETokenizer(ms);
      tok := Some(t);
    }
  }

  lemma TableFacts(pieces: seq<seq<nat>>, words: seq<seq<nat>>, freqs: seq<nat>, at: map<seq<nat>, nat>)
    requires Tabled(pieces, words, freqs, at) && forall w :: w in pieces ==> Bytes(w)
    ensures Frequencies(words, freqs) && Below(words, ByteVocabSize)
    ensures forall i, j :: 0 <= i < j < |words| ==> words[i] != words[j]
    ensures forall w :: w in pieces <==> w in words
  {
    forall w | w in pieces ensures w in words {
      assert w in multiset(pieces) && words[at[w]] == w;
    }
    forall i | 0 <= i < |words| ensures Bytes(words[i]) && words[i] in pieces {
      assert words[i] in multiset(pieces);
    }
  }
}
