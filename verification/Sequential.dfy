/**
  The one-request-at-a-time engine as it runs (engine/baseline.py): a queue, the decode loop
  over the whole sequence, and the list of finished requests.
 */
module Sequential {
  import opened Wrappers
  import opened Transformer
  import opened Requests

  class BaselineEngine<K, H> {
    const c: Config<K, H>
    var waiting: seq<Request>
    var finished: seq<Request>

    constructor (c: Config<K, H>)
      ensures this.c == c && waiting == [] && finished == []
    {
      this.c, waiting, finished := c, [], [];
    }

    method AddRequest(r: Request)
      modifies this
      ensures waiting == old(waiting) + [r] && finished == old(finished)
    {
      waiting := waiting + [r];
    }

    /** `_generate`: sample, stop on the end token, record, until the budget is spent. */
    method Generate(r: Request) returns (done: Request)
      requires r.prompt != []
      ensures done == r.(output := BaselineOf(c, r).output, reason := Some(BaselineOf(c, r).reason))
      ensures Spells(c, r, r.maxTokens, Answer(done.output, done.reason.value))
    {
      BaselineSpellsIff(c, r, BaselineOf(c, r));
      hide Spells;
      var out: seq<Token>, why: Option<FinishReason>, n := [], None, 0;
      while why.None? && n < r.maxTokens
        invariant 0 <= n <= r.maxTokens
        invariant why.None? ==> Baseline(c, r, out, r.maxTokens - n) == BaselineOf(c, r)
        invariant why.Some? ==> BaselineOf(c, r) == Answer(out, why.value)
        decreases r.maxTokens - n, why.None?
      {
        var token := Next(c.m, r.prompt + out);
        if Stops(c, r, token) {
          why := Some(Eos);
        } else {
          out := out + [token];
          n := n + 1;
        }
      }
      if why.None? {
        why := Some(Length);
      }
      done := r.(output := out, reason := why);
    }

    /** `step`: the next queued request, run to completion. */
    method Step()
      requires waiting != [] ==> waiting[0].prompt != []
      modifies this
      ensures old(waiting) == [] ==> waiting == [] && finished == old(finished)
      ensures old(waiting) != [] ==>
                var r := old(waiting)[0];
                && waiting == old(waiting)[1..]
                && finished == old(finished)
                + [r.(output := BaselineOf(c, r).output, reason := Some(BaselineOf(c, r).reason))]
    {
      if waiting != [] {
        var r := waiting[0];
        waiting := waiting[1..];
        var done := Generate(r);
        finished := finished + [done];
      }
    }
  }
}
