/**
  The decoder stack as the KV caches see it (model/transformer.py): a hidden state per query,
  and at each layer a projection that is written to the query's slot, followed by attention
  over the entries gathered from the slots the query may read. The arithmetic is a parameter.

  A slot's entry is its projections in every layer, so a slab is a sequence of such entries.
 */
module Transformer {
  type Token = int

  datatype Model<!K, !H> = Model(
    layers: nat,
    embed: (Token, nat) -> H,      // token and absolute position
    proj: (nat, H) -> K,           // what layer l stores for a query
    mix: (nat, H, seq<K>) -> H,    // attention and feed-forward of layer l over what is gathered
    head: H -> Token)              // logits and the deterministic sampler

  // -- the reference: a function of the token prefix alone --------------------

  /** Hidden state of the last token of `toks` entering layer `l`. */
  function Hidden<K, H>(m: Model<K, H>, l: nat, toks: seq<Token>): H
    requires toks != []
    decreases l
  {
    if l == 0 then m.embed(toks[|toks| - 1], |toks| - 1)
    else m.mix(l - 1, Hidden(m, l - 1, toks),
               seq(|toks|, j requires 0 <= j < |toks| => m.proj(l - 1, Hidden(m, l - 1, toks[..j + 1]))))
  }

  /** The KV entry of the last token of `toks`, in every layer. */
  function Ideal<K, H>(m: Model<K, H>, toks: seq<Token>): (e: seq<K>)
    requires toks != []
    ensures |e| == m.layers
  {
    seq(m.layers, l requires 0 <= l < m.layers => m.proj(l, Hidden(m, l, toks)))
  }

  /** The token sampled after `toks`. */
  function Next<K, H>(m: Model<K, H>, toks: seq<Token>): Token
    requires toks != []
  {
    m.head(Hidden(m, m.layers, toks))
  }

  // -- one forward pass over a slab ------------------------------------------

  /** Query q writes slot `writes[q]` and reads the slots `sees[q]`, its own included. */
  datatype Plan = Plan(writes: seq<nat>, sees: seq<seq<nat>>)

  datatype Pass<K, H> = Pass(slab: seq<seq<K>>, hs: seq<H>)

  ghost predicate PlanOK<K>(m: nat, slab: seq<seq<K>>, p: Plan)
  {
    && |p.sees| == |p.writes|
    && (forall s :: 0 <= s < |slab| ==> |slab[s]| == m)
    && (forall q :: 0 <= q < |p.writes| ==> p.writes[q] < |slab|)
    && (forall q, j :: 0 <= q < |p.sees| && 0 <= j < |p.sees[q]| ==> p.sees[q][j] < |slab|)
  }

  /** `pool.k[l][slots] = ks`, one query after another. */
  function Scatter<K>(slab: seq<seq<K>>, writes: seq<nat>, l: nat, ks: seq<K>): (r: seq<seq<K>>)
    requires |ks| == |writes|
    requires forall q :: 0 <= q < |writes| ==> writes[q] < |slab|
    requires forall s :: 0 <= s < |slab| ==> l < |slab[s]|
    ensures |r| == |slab| && forall s :: 0 <= s < |slab| ==> |r[s]| == |slab[s]|
  {
    if writes == [] then slab else
      var n := |writes| - 1;
      var s := Scatter(slab, writes[..n], l, ks[..n]);
      s[writes[n] := s[writes[n]][l := ks[n]]]
  }

  /** `pool.k[l][live]`. */
  function GatherLayer<K>(slab: seq<seq<K>>, sees: seq<nat>, l: nat): seq<K>
    requires forall j :: 0 <= j < |sees| ==> sees[j] < |slab|
    requires forall s :: 0 <= s < |slab| ==> l < |slab[s]|
  {
    seq(|sees|, j requires 0 <= j < |sees| => slab[sees[j]][l])
  }

  /** One decoder layer: project, scatter, gather, attend. */
  ghost function Layer<K, H>(m: Model<K, H>, l: nat, p: Plan, x: Pass<K, H>): (y: Pass<K, H>)
    requires l < m.layers && PlanOK(m.layers, x.slab, p) && |x.hs| == |p.writes|
    ensures PlanOK(m.layers, y.slab, p) && |y.hs| == |x.hs| && |y.slab| == |x.slab|
  {
    var n := |x.hs|;
    var slab := Scatter(x.slab, p.writes, l, seq(n, q requires 0 <= q < n => m.proj(l, x.hs[q])));
    Pass(slab, seq(n, q requires 0 <= q < n => m.mix(l, x.hs[q], GatherLayer(slab, p.sees[q], l))))
  }

  /** The first `l` layers of a forward pass. */
  ghost function Layers<K, H>(m: Model<K, H>, l: nat, p: Plan, x: Pass<K, H>): (y: Pass<K, H>)
    requires l <= m.layers && PlanOK(m.layers, x.slab, p) && |x.hs| == |p.writes|
    ensures PlanOK(m.layers, y.slab, p) && |y.hs| == |x.hs| && |y.slab| == |x.slab|
  {
    if l == 0 then x else Layer(m, l - 1, p, Layers(m, l - 1, p, x))
  }

  /** A whole forward pass. A plan that leaves the slab would be a device fault; it runs nothing. */
  ghost function RunPlan<K, H>(m: Model<K, H>, p: Plan, x: Pass<K, H>): Pass<K, H>
  {
    if PlanOK(m.layers, x.slab, p) && |x.hs| == |p.writes| then Layers(m, m.layers, p, x) else x
  }

  // -- the pass computes the reference ---------------------------------------

  /**
    Query q stands for the token prefix `toks[q]`, whose entries it reads in order. An entry
    is either already in the slab and not about to be overwritten, or belongs to the query of
    this same pass that stands for exactly that prefix.
   */
  ghost predicate Served<K, H>(m: Model<K, H>, slab: seq<seq<K>>, p: Plan, toks: seq<seq<Token>>, q: nat, j: nat)
    requires q < |toks| && j < |toks[q]|
  {
    && q < |p.sees| && j < |p.sees[q]|
    && ( || (p.sees[q][j] !in p.writes && p.sees[q][j] < |slab| && slab[p.sees[q][j]] == Ideal(m, toks[q][..j + 1]))
         || (exists q' :: 0 <= q' < |p.writes| && q' < |toks| && p.writes[q'] == p.sees[q][j]
                       && toks[q'] == toks[q][..j + 1]))
  }

  ghost predicate Sound<K, H>(m: Model<K, H>, slab: seq<seq<K>>, p: Plan, toks: seq<seq<Token>>)
  {
    && PlanOK(m.layers, slab, p) && |toks| == |p.writes|
    && (forall q, q' :: 0 <= q < q' < |p.writes| ==> p.writes[q] != p.writes[q'])
    && (forall q :: 0 <= q < |toks| ==> toks[q] != [] && |p.sees[q]| == |toks[q]|)
    && (forall q, j :: 0 <= q < |toks| && 0 <= j < |toks[q]| ==> Served(m, slab, p, toks, q, j))
  }

  /** Where the pass stands after `l` layers. */
  ghost predicate Done<K, H>(m: Model<K, H>, l: nat, slab: seq<seq<K>>, p: Plan, toks: seq<seq<Token>>, y: Pass<K, H>)
    requires Sound(m, slab, p, toks)
  {
    && PlanOK(m.layers, y.slab, p) && |y.slab| == |slab| && |y.hs| == |toks|
    && (forall s :: 0 <= s < |slab| && s !in p.writes ==> y.slab[s] == slab[s])
    && (forall q :: 0 <= q < |toks| ==> y.hs[q] == Hidden(m, l, toks[q]))
    && (forall q, k :: 0 <= q < |toks| && 0 <= k < l && k < m.layers ==> Stored(m, y.slab, p, toks, q, k))
  }

  ghost predicate Stored<K, H>(m: Model<K, H>, slab: seq<seq<K>>, p: Plan, toks: seq<seq<Token>>, q: nat, k: nat)
    requires q < |toks| && q < |p.writes| && toks[q] != []
  {
    p.writes[q] < |slab| && k < |slab[p.writes[q]]| && slab[p.writes[q]][k] == m.proj(k, Hidden(m, k, toks[q]))
  }

  lemma {:induction false} ScatterAt<K>(slab: seq<seq<K>>, writes: seq<nat>, l: nat, ks: seq<K>)
    requires |ks| == |writes|
    requires forall q :: 0 <= q < |writes| ==> writes[q] < |slab|
    requires forall s :: 0 <= s < |slab| ==> l < |slab[s]|
    requires forall q, q' :: 0 <= q < q' < |writes| ==> writes[q] != writes[q']
    ensures var r := Scatter(slab, writes, l, ks);
      && (forall s :: 0 <= s < |slab| && s !in writes ==> r[s] == slab[s])
      && (forall q :: 0 <= q < |writes| ==> r[writes[q]] == slab[writes[q]][l := ks[q]])
  {
    if writes != [] {
      var n := |writes| - 1;
      var ws, vs := writes[..n], ks[..n];
      ScatterAt(slab, ws, l, vs);
      var s := Scatter(slab, ws, l, vs);
      var r := s[writes[n] := s[writes[n]][l := ks[n]]];
      assert Scatter(slab, writes, l, ks) == r && writes[n] !in ws;
      hide Scatter;
      forall q | 0 <= q < |writes| ensures r[writes[q]] == slab[writes[q]][l := ks[q]] {
        if q < n { assert ws[q] == writes[q] && vs[q] == ks[q]; }
      }
      forall x | 0 <= x < |slab| && x !in writes ensures r[x] == slab[x] {
        assert x !in ws;
      }
    }
  }

  /** What layer `l` gathers for a query is exactly the reference entries of its prefix. */
  lemma GatherRight<K, H>(
    m: Model<K, H>, l: nat, slab: seq<seq<K>>, p: Plan, toks: seq<seq<Token>>, s1: seq<seq<K>>, q: nat)
    requires Sound(m, slab, p, toks) && l < m.layers && q < |toks|
    requires PlanOK(m.layers, s1, p) && |s1| == |slab|
    requires forall s :: 0 <= s < |slab| && s !in p.writes ==> s1[s] == slab[s]
    requires forall q' :: 0 <= q' < |toks| ==> Stored(m, s1, p, toks, q', l)
    ensures GatherLayer(s1, p.sees[q], l)
         == seq(|toks[q]|, j requires 0 <= j < |toks[q]| => m.proj(l, Hidden(m, l, toks[q][..j + 1])))
  {
    forall j | 0 <= j < |toks[q]| ensures s1[p.sees[q][j]][l] == m.proj(l, Hidden(m, l, toks[q][..j + 1])) {
      assert Served(m, slab, p, toks, q, j);
      if p.sees[q][j] in p.writes {
        var q' :| 0 <= q' < |p.writes| && q' < |toks| && p.writes[q'] == p.sees[q][j] && toks[q'] == toks[q][..j + 1];
        assert Stored(m, s1, p, toks, q', l);
      }
    }
  }

  lemma LayerDone<K, H>(m: Model<K, H>, l: nat, slab: seq<seq<K>>, p: Plan, toks: seq<seq<Token>>, y: Pass<K, H>)
    requires Sound(m, slab, p, toks) && l < m.layers && Done(m, l, slab, p, toks, y)
    ensures Done(m, l + 1, slab, p, toks, Layer(m, l, p, y))
  {
    var n := |y.hs|;
    var ks := seq(n, q requires 0 <= q < n => m.proj(l, y.hs[q]));
    ScatterAt(y.slab, p.writes, l, ks);
    var z := Layer(m, l, p, y);
    forall q, k | 0 <= q < |toks| && 0 <= k < l + 1 && k < m.layers ensures Stored(m, z.slab, p, toks, q, k) {
      assert k < l ==> Stored(m, y.slab, p, toks, q, k);
    }
    forall q | 0 <= q < |toks| ensures z.hs[q] == Hidden(m, l + 1, toks[q]) {
      GatherRight(m, l, slab, p, toks, z.slab, q);
    }
  }

  lemma {:induction false} LayersDone<K, H>(
    m: Model<K, H>, l: nat, slab: seq<seq<K>>, p: Plan, toks: seq<seq<Token>>, hs: seq<H>)
    requires Sound(m, slab, p, toks) && l <= m.layers && |hs| == |toks|
    requires forall q :: 0 <= q < |toks| ==> hs[q] == Hidden(m, 0, toks[q])
    ensures Done(m, l, slab, p, toks, Layers(m, l, p, Pass(slab, hs)))
  {
    if l > 0 {
      LayersDone(m, l - 1, slab, p, toks, hs);
      LayerDone(m, l - 1, slab, p, toks, Layers(m, l - 1, p, Pass(slab, hs)));
    }
  }

  /** Query q stored its reference entry, and the head samples its reference token. */
  ghost predicate Computes<K, H>(m: Model<K, H>, p: Plan, toks: seq<seq<Token>>, y: Pass<K, H>, q: nat)
  {
    && q < |toks| && q < |p.writes| && q < |y.hs| && toks[q] != [] && p.writes[q] < |y.slab|
    && y.slab[p.writes[q]] == Ideal(m, toks[q]) && m.head(y.hs[q]) == Next(m, toks[q])
  }

  /**
    A whole forward pass whose plan is sound stores the reference entry of every query's
    prefix, leaves every other slot alone, and samples what the reference samples: the pass
    cannot tell a shared, scattered or reused slab from a contiguous recomputation.
   */
  lemma ForwardRight<K, H>(m: Model<K, H>, slab: seq<seq<K>>, p: Plan, toks: seq<seq<Token>>, hs: seq<H>)
    requires Sound(m, slab, p, toks) && |hs| == |toks|
    requires forall q :: 0 <= q < |toks| ==> hs[q] == m.embed(toks[q][|toks[q]| - 1], |toks[q]| - 1)
    ensures var y := RunPlan(m, p, Pass(slab, hs));
      && PlanOK(m.layers, y.slab, p) && |y.slab| == |slab| && |y.hs| == |hs|
      && (forall s :: 0 <= s < |slab| && s !in p.writes ==> y.slab[s] == slab[s])
      && (forall q :: 0 <= q < |toks| ==> Computes(m, p, toks, y, q))
  {
    LayersDone(m, m.layers, slab, p, toks, hs);
    var y := Layers(m, m.layers, p, Pass(slab, hs));
    forall q | 0 <= q < |toks| ensures Computes(m, p, toks, y, q) {
      forall k | 0 <= k < m.layers ensures y.slab[p.writes[q]][k] == Ideal(m, toks[q])[k] {
        assert Stored(m, y.slab, p, toks, q, k);
      }
    }
  }
}
