/**
  Requests, the stop rule, and what a request generates when it runs alone
  (engine/types.py, engine/baseline.py `_generate`).
 */
module Requests {
  import opened Wrappers
  import opened Transformer

  datatype FinishReason = Eos | Length | Cancelled | Rejected | Preempted

  datatype Request = Request(
    id: nat,
    prompt: seq<Token>,
    maxTokens: nat,
    ignoreEos: bool,
    output: seq<Token>,
    reason: Option<FinishReason>)

  /** A request as it was submitted: without output and outcome. */
  function Core(r: Request): Request
  {
    r.(output := [], reason := None)
  }

  datatype Config<!K, !H> = Config(
    m: Model<K, H>,
    eos: Token,
    maxBatch: nat,      // max_batch_size
    reserve: nat,       // reserve_blocks
    history: nat,       // how many finished requests are retained
    prefixOn: bool)     // enable_prefix_cache

  datatype Answer = Answer(output: seq<Token>, reason: FinishReason)

  predicate Stops<K, H>(c: Config<K, H>, r: Request, t: Token)
  {
    t == c.eos && !r.ignoreEos
  }

  // -- the sequential baseline -------------------------------------------------

  /** `_generate` with `left` iterations to go and `out` already recorded. */
  function Baseline<K, H>(c: Config<K, H>, r: Request, out: seq<Token>, left: nat): Answer
    requires r.prompt != []
    decreases left
  {
    if left == 0 then Answer(out, Length) else
      var t := Next(c.m, r.prompt + out);
      if Stops(c, r, t) then Answer(out, Eos) else Baseline(c, r, out + [t], left - 1)
  }

  /** What the one-request-at-a-time engine answers. */
  function BaselineOf<K, H>(c: Config<K, H>, r: Request): Answer
    requires r.prompt != []
  {
    Baseline(c, r, [], r.maxTokens)
  }

  /** The submitted request with the sequential baseline's answer to it. */
  function Answered<K, H>(c: Config<K, H>, q: Request): Request
    requires q.prompt != []
  {
    q.(output := BaselineOf(c, q).output, reason := Some(BaselineOf(c, q).reason))
  }

  // -- what an answer is, said outright ------------------------------------------

  /** Each token is the one the model samples after all before it; the end token only where it is ignored. */
  ghost predicate Sampled<K, H>(c: Config<K, H>, r: Request, out: seq<Token>)
    requires r.prompt != []
  {
    forall k :: 0 <= k < |out| ==> out[k] == Next(c.m, r.prompt + out[..k]) && (out[k] == c.eos ==> r.ignoreEos)
  }

  /**
    A finished generation of at most `budget` tokens: it ended by the end token if and only if that
    counts and was sampled next with budget to spare, and otherwise by length with the budget spent.
   */
  ghost predicate Spells<K, H>(c: Config<K, H>, r: Request, budget: nat, a: Answer)
    requires r.prompt != []
  {
    && Sampled(c, r, a.output)
    && (a.reason == Eos <==> !r.ignoreEos && |a.output| < budget && Next(c.m, r.prompt + a.output) == c.eos)
    && (a.reason != Eos ==> a.reason == Length && |a.output| == budget)
  }

  lemma SampledSnoc<K, H>(c: Config<K, H>, r: Request, out: seq<Token>, t: Token)
    requires r.prompt != [] && Sampled(c, r, out)
    requires t == Next(c.m, r.prompt + out) && (t == c.eos ==> r.ignoreEos)
    ensures Sampled(c, r, out + [t])
  {
    var more := out + [t];
    forall k | 0 <= k < |more|
      ensures more[k] == Next(c.m, r.prompt + more[..k]) && (more[k] == c.eos ==> r.ignoreEos)
    {
      if k < |out| { assert more[..k] == out[..k]; } else { assert more[..k] == out; }
    }
  }

  lemma {:induction false} BaselineSpells<K, H>(c: Config<K, H>, r: Request, out: seq<Token>, left: nat)
    requires r.prompt != [] && Sampled(c, r, out)
    ensures Spells(c, r, |out| + left, Baseline(c, r, out, left))
    decreases left
  {
    var t := Next(c.m, r.prompt + out);
    if left > 0 && !Stops(c, r, t) {
      SampledSnoc(c, r, out, t);
      BaselineSpells(c, r, out + [t], left - 1);
    }
  }

  lemma SampledAt<K, H>(c: Config<K, H>, r: Request, out: seq<Token>, k: nat, head: seq<Token>)
    requires r.prompt != [] && Sampled(c, r, out) && k < |out| && out[..k] == head
    ensures out[k] == Next(c.m, r.prompt + head) && (out[k] == c.eos ==> r.ignoreEos)
  {
  }

  /** Two finished generations of one request are the same as far as the shorter goes. */
  lemma {:induction false} SampledAgree<K, H>(c: Config<K, H>, r: Request, a: seq<Token>, b: seq<Token>, n: nat)
    requires r.prompt != [] && Sampled(c, r, a) && Sampled(c, r, b) && n <= |a| && n <= |b|
    ensures a[..n] == b[..n]
  {
    hide Next;
    if n > 0 {
      SampledAgree(c, r, a, b, n - 1);
      SampledAt(c, r, a, n - 1, a[..n - 1]);
      SampledAt(c, r, b, n - 1, a[..n - 1]);
      hide Sampled;
      assert a[..n] == a[..n - 1] + [a[n - 1]] && b[..n] == b[..n - 1] + [b[n - 1]];
    }
  }

  lemma NotLonger<K, H>(c: Config<K, H>, r: Request, budget: nat, a: Answer, b: Answer)
    requires r.prompt != [] && Spells(c, r, budget, a) && Spells(c, r, budget, b)
    ensures |b.output| <= |a.output|
  {
    var n := |a.output|;
    if n < |b.output| {
      SampledAgree(c, r, a.output, b.output, n);
      SampledAt(c, r, b.output, n, a.output);
    }
  }

  /** There is one finished generation, and it is the baseline's answer. */
  lemma BaselineSpellsIff<K, H>(c: Config<K, H>, r: Request, a: Answer)
    requires r.prompt != []
    ensures a == BaselineOf(c, r) <==> Spells(c, r, r.maxTokens, a)
  {
    var b := BaselineOf(c, r);
    BaselineSpells(c, r, [], r.maxTokens);
    if Spells(c, r, r.maxTokens, a) {
      NotLonger(c, r, r.maxTokens, a, b);
      NotLonger(c, r, r.maxTokens, b, a);
      SampledAgree(c, r, a.output, b.output, |a.output|);
    }
  }

  // -- the scheduler's stop rule -------------------------------------------------

  /** `_accept_token`: the request after the token, and whether it is finished. */
  function Accept<K, H>(c: Config<K, H>, r: Request, t: Token): (Request, Option<FinishReason>)
  {
    if Stops(c, r, t) then (r, Some(Eos)) else
      var r' := r.(output := r.output + [t]);
      (r', if |r'.output| >= r.maxTokens then Some(Length) else None)
  }

  /** The scheduler's rule iterated on one request, from `out` on. */
  function Generation<K, H>(c: Config<K, H>, r: Request, out: seq<Token>): Answer
    requires r.prompt != []
    decreases if |out| < r.maxTokens then r.maxTokens - |out| else 0
  {
    var t := Next(c.m, r.prompt + out);
    if Stops(c, r, t) then Answer(out, Eos)
    else if |out| + 1 >= r.maxTokens then Answer(out + [t], Length)
    else Generation(c, r, out + [t])
  }

  lemma {:induction false} GenerationIsBaseline<K, H>(c: Config<K, H>, r: Request, out: seq<Token>)
    requires r.prompt != [] && |out| < r.maxTokens
    ensures Generation(c, r, out) == Baseline(c, r, out, r.maxTokens - |out|)
    decreases r.maxTokens - |out|
  {
    var t := Next(c.m, r.prompt + out);
    if !Stops(c, r, t) && |out| + 1 < r.maxTokens {
      GenerationIsBaseline(c, r, out + [t]);
    }
  }

  /**
    The two stop rules agree on a request exactly when it asks for at least one token: the
    baseline's loop runs zero times for `max_tokens == 0`, the scheduler samples once first.
   */
  lemma StopRulesAgree<K, H>(c: Config<K, H>, r: Request)
    requires r.prompt != []
    ensures Generation(c, r, []) == BaselineOf(c, r) <==> r.maxTokens >= 1
    ensures Spells(c, r, if r.maxTokens >= 1 then r.maxTokens else 1, Generation(c, r, []))
  {
    GenerationSpells(c, r, []);
    hide Spells;
    if r.maxTokens >= 1 {
      GenerationIsBaseline(c, r, []);
    }
  }

  /** One accepted token is one unfolding of the generation. */
  lemma AcceptStep<K, H>(c: Config<K, H>, r: Request)
    requires r.prompt != []
    ensures var (r', f) := Accept(c, r, Next(c.m, r.prompt + r.output));
      && r' == r.(output := r'.output)
      && (f.Some? ==> Generation(c, r, r.output) == Answer(r'.output, f.value))
      && (f.None? ==> Generation(c, r, r.output) == Generation(c, r', r'.output)
                      && |r'.output| < r.maxTokens && r'.output == r.output + [Next(c.m, r.prompt + r.output)])
  {
    var (r', f) := Accept(c, r, Next(c.m, r.prompt + r.output));
    GenerationSame(c, r, r', r'.output);
  }

  lemma {:induction false} GenerationSame<K, H>(c: Config<K, H>, r: Request, r': Request, out: seq<Token>)
    requires r.prompt != [] && r'.prompt == r.prompt && r'.maxTokens == r.maxTokens && r'.ignoreEos == r.ignoreEos
    ensures Generation(c, r, out) == Generation(c, r', out)
    decreases if |out| < r.maxTokens then r.maxTokens - |out| else 0
  {
    var t := Next(c.m, r.prompt + out);
    if !Stops(c, r, t) && |out| + 1 < r.maxTokens {
      GenerationSame(c, r, r', out + [t]);
    }
  }

  /** What a generation that ends says of its end. */
  lemma {:induction false} GenerationExtends<K, H>(c: Config<K, H>, r: Request, out: seq<Token>)
    requires r.prompt != []
    ensures out <= Generation(c, r, out).output
    ensures |out| < r.maxTokens ==> |Generation(c, r, out).output| <= r.maxTokens
    ensures Generation(c, r, out).reason == Eos ==> Stops(c, r, Next(c.m, r.prompt + Generation(c, r, out).output))
    ensures Generation(c, r, out).reason == Length && |out| < r.maxTokens ==>
              |Generation(c, r, out).output| == r.maxTokens
    ensures Generation(c, r, out).reason in {Eos, Length}
    ensures Generation(c, r, out).reason == Length ==> |Generation(c, r, out).output| > |out|
    decreases if |out| < r.maxTokens then r.maxTokens - |out| else 0
  {
    var t := Next(c.m, r.prompt + out);
    if !Stops(c, r, t) && |out| + 1 < r.maxTokens { GenerationExtends(c, r, out + [t]); }
  }

  /** The scheduler samples once before it looks at the budget. */
  function Budget(r: Request): nat
  {
    if r.maxTokens == 0 then 1 else r.maxTokens
  }

  lemma {:induction false} GenerationSpells<K, H>(c: Config<K, H>, r: Request, out: seq<Token>)
    requires r.prompt != [] && Sampled(c, r, out) && |out| < Budget(r)
    ensures Spells(c, r, Budget(r), Generation(c, r, out))
    decreases Budget(r) - |out|
  {
    var t := Next(c.m, r.prompt + out);
    if !Stops(c, r, t) {
      SampledSnoc(c, r, out, t);
      if |out| + 1 < r.maxTokens { GenerationSpells(c, r, out + [t]); }
    }
  }

  /** How many tokens a request's own generation feeds the model: all but the one that ends it. */
  function FedLength<K, H>(c: Config<K, H>, r: Request): nat
    requires r.prompt != []
  {
    var a := Generation(c, r, []);
    GenerationExtends(c, r, []);
    |r.prompt| + |a.output| - (if a.reason == Length then 1 else 0)
  }

  /** An outcome with its own generation's answer is the baseline's answer to what was submitted. */
  lemma AnsweredIff<K, H>(c: Config<K, H>, r: Request)
    requires r.prompt != [] && r.reason.Some? && Generation(c, r, []) == Answer(r.output, r.reason.value)
    ensures r == Answered(c, Core(r)) <==> r.maxTokens >= 1
  {
    GenerationSame(c, r, Core(r), []);
    StopRulesAgree(c, Core(r));
  }
}
