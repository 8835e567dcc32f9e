/**
  The distributed rate limiter (router/ratelimit.go): two token buckets per client, refilled by
  the store's clock, checked and charged together by one atomic script. Reals stand for floats;
  the clock is the store's and never goes back. A key expires `ttl` seconds after its last write.
 */
module RateLimiting {

  /** One tier, as `validate` admits it. */
  datatype Tier = Tier(reqCap: real, reqRate: real, tokCap: real, tokRate: real, ttl: real)

  predicate TierOK(t: Tier)
  {
    t.reqCap >= 1.0 && t.tokCap >= 1.0 && t.reqRate > 0.0 && t.tokRate > 0.0 && t.ttl > 0.0
  }

  datatype Bucket = Absent | Bucket(tokens: real, ts: real, expires: real)

  /** The two buckets of one client. */
  datatype Client = Client(req: Bucket, tok: Bucket)

  /** `retry` is negative when the request can never be admitted. */
  datatype Verdict = Verdict(allowed: bool, reqLeft: real, tokLeft: real, retry: real)

  // -- refilling -----------------------------------------------------------------------

  function Gain(rate: real, dt: real): real
  {
    rate * dt
  }

  lemma GainFacts(rate: real, a: real, b: real)
    requires rate >= 0.0
    ensures Gain(rate, a) + Gain(rate, b) == Gain(rate, a + b)
    ensures a >= 0.0 ==> Gain(rate, a) >= 0.0
    ensures a <= b ==> Gain(rate, a) <= Gain(rate, b)
  {
    if a <= b { assert rate * (b - a) >= 0.0; }
  }

  function Min(x: real, y: real): real
  {
    if x > y then y else x
  }

  function Elapsed(since: real, now: real): real
  {
    if now - since < 0.0 then 0.0 else now - since
  }

  /** What a bucket holds at `now`; a missing or expired one counts as full. */
  function Refill(b: Bucket, cap: real, rate: real, now: real): real
  {
    if b.Absent? || now >= b.expires then cap
    else Min(b.tokens + Gain(rate, Elapsed(b.ts, now)), cap)
  }

  function Save(tokens: real, now: real, ttl: real): Bucket
  {
    Bucket(tokens, now, now + ttl)
  }

  /** Every bucket stays between empty and full, is never from the future, and expires on time. */
  ghost predicate BucketOK(b: Bucket, cap: real, ttl: real, now: real)
  {
    b.Bucket? ==> 0.0 <= b.tokens <= cap && b.ts <= now && b.expires == b.ts + ttl
  }

  lemma RefillWithin(b: Bucket, cap: real, rate: real, ttl: real, now: real)
    requires BucketOK(b, cap, ttl, now) && rate > 0.0 && cap >= 0.0
    ensures 0.0 <= Refill(b, cap, rate, now) <= cap
  {
    if b.Bucket? { GainFacts(rate, now - b.ts, 0.0); }
  }

  /** A bucket just written holds what was written. */
  lemma RefillSaved(tokens: real, cap: real, rate: real, ttl: real, now: real)
    requires 0.0 <= tokens <= cap && ttl > 0.0 && rate > 0.0
    ensures Refill(Save(tokens, now, ttl), cap, rate, now) == tokens
    ensures BucketOK(Save(tokens, now, ttl), cap, ttl, now)
  {
    GainFacts(rate, 0.0, 0.0);
  }

  /**
    Refilling in two steps is refilling in one, expiry included, when a bucket can fill up
    within its lifetime.
   */
  lemma RefillLater(b: Bucket, cap: real, rate: real, ttl: real, s: real, t: real)
    requires BucketOK(b, cap, ttl, s) && rate > 0.0 && cap >= 0.0 && s <= t
    requires cap <= Gain(rate, ttl)
    ensures Refill(b, cap, rate, t) == Min(Refill(b, cap, rate, s) + Gain(rate, t - s), cap)
    ensures BucketOK(b, cap, ttl, t)
  {
    hide Gain;
    GainFacts(rate, t - s, 0.0);
    if b.Bucket? {
      GainFacts(rate, s - b.ts, t - s);
      GainFacts(rate, ttl, t - b.ts);
    }
  }

  /** The refill ignoring expiry. */
  function RefillKept(b: Bucket, cap: real, rate: real, now: real): real
  {
    if b.Absent? then cap else Min(b.tokens + Gain(rate, Elapsed(b.ts, now)), cap)
  }

  /** Expiry can never be observed exactly when a bucket refills within its lifetime. */
  lemma ExpiryUnobservableIff(cap: real, rate: real, ttl: real)
    requires cap >= 0.0 && rate > 0.0 && ttl > 0.0
    ensures cap <= Gain(rate, ttl) <==>
            forall b, now :: BucketOK(b, cap, ttl, now) ==>
                               Refill(b, cap, rate, now) == RefillKept(b, cap, rate, now)
  {
    hide Gain;
    if cap <= Gain(rate, ttl) {
      forall b, now | BucketOK(b, cap, ttl, now)
        ensures Refill(b, cap, rate, now) == RefillKept(b, cap, rate, now)
      {
        if b.Bucket? { GainFacts(rate, ttl, now - b.ts); }
      }
    } else {
      var b := Save(0.0, 0.0, ttl);
      assert BucketOK(b, cap, ttl, ttl) && Refill(b, cap, rate, ttl) != RefillKept(b, cap, rate, ttl);
    }
  }

  // -- the two scripts --------------------------------------------------------------------

  function Wait(have: real, need: real, rate: real): real
    requires rate > 0.0
  {
    if have < need then (need - have) / rate else 0.0
  }

  function Max(x: real, y: real): real
  {
    if x > y then x else y
  }

  const NEVER := Verdict(false, -1.0, -1.0, -1.0)

  /** `rateLimitScript`: the verdict, and the client's buckets after it. */
  function Admit(t: Tier, c: Client, now: real, cost: nat): (Client, Verdict)
    requires TierOK(t)
  {
    var need := cost as real;
    if need > t.tokCap then (c, NEVER)
    else
      var req := Refill(c.req, t.reqCap, t.reqRate, now);
      var tok := Refill(c.tok, t.tokCap, t.tokRate, now);
      if req >= 1.0 && tok >= need then
        (Client(Save(req - 1.0, now, t.ttl), Save(tok - need, now, t.ttl)),
         Verdict(true, req - 1.0, tok - need, 0.0))
      else
        (Client(Save(req, now, t.ttl), Save(tok, now, t.ttl)),
         Verdict(false, req, tok, Max(Wait(req, 1.0, t.reqRate), Wait(tok, need, t.tokRate))))
  }

  /** `Refund` and `refundScript`: nothing for a non-positive amount, else clamped at capacity. */
  function Repay(t: Tier, c: Client, now: real, amount: int): Client
    requires TierOK(t)
  {
    if amount <= 0 then c
    else
      var tokens, since :=
        if c.tok.Absent? || now >= c.tok.expires then t.tokCap else c.tok.tokens,
        if c.tok.Absent? || now >= c.tok.expires then now else c.tok.ts;
      var filled := tokens + Gain(t.tokRate, Elapsed(since, now)) + amount as real;
      c.(tok := Save(Min(filled, t.tokCap), now, t.ttl))
  }

  // -- one call, seen through the balances -------------------------------------------------------

  /** The two scarce resources. */
  datatype Dim = Requests | Tokens

  function Cap(t: Tier, d: Dim): real { if d.Requests? then t.reqCap else t.tokCap }

  function Rate(t: Tier, d: Dim): real { if d.Requests? then t.reqRate else t.tokRate }

  function Of(c: Client, d: Dim): Bucket { if d.Requests? then c.req else c.tok }

  function Price(d: Dim, cost: nat): real { if d.Requests? then 1.0 else cost as real }

  function Balance(t: Tier, c: Client, d: Dim, now: real): real
  {
    Refill(Of(c, d), Cap(t, d), Rate(t, d), now)
  }

  ghost predicate ClientOK(t: Tier, c: Client, now: real)
  {
    forall d: Dim :: BucketOK(Of(c, d), Cap(t, d), t.ttl, now)
  }

  /** A bucket can fill up from empty before it expires. */
  predicate Lasting(t: Tier)
  {
    t.reqCap <= Gain(t.reqRate, t.ttl) && t.tokCap <= Gain(t.tokRate, t.ttl)
  }

  lemma BalanceWithin(t: Tier, c: Client, d: Dim, now: real)
    requires TierOK(t) && ClientOK(t, c, now)
    ensures 0.0 <= Balance(t, c, d, now) <= Cap(t, d)
  {
    RefillWithin(Of(c, d), Cap(t, d), Rate(t, d), t.ttl, now);
  }

  lemma BalanceLater(t: Tier, c: Client, d: Dim, s: real, now: real)
    requires TierOK(t) && Lasting(t) && ClientOK(t, c, s) && s <= now
    ensures Balance(t, c, d, now) == Min(Balance(t, c, d, s) + Gain(Rate(t, d), now - s), Cap(t, d))
  {
    RefillLater(Of(c, d), Cap(t, d), Rate(t, d), t.ttl, s, now);
  }

  lemma OKLater(t: Tier, c: Client, s: real, now: real)
    requires ClientOK(t, c, s) && s <= now
    ensures ClientOK(t, c, now)
  {
  }

  /** Can this call be admitted, to judge by the balances? */
  ghost predicate Affordable(t: Tier, c: Client, now: real, cost: nat)
  {
    Balance(t, c, Requests, now) >= 1.0 && Balance(t, c, Tokens, now) >= cost as real
  }

  /** Charging is all or nothing and conserves: an admitted call pays both prices, any other none. */
  lemma AdmitCharges(t: Tier, c: Client, now: real, cost: nat)
    requires TierOK(t) && ClientOK(t, c, now)
    ensures var (c', v) := Admit(t, c, now, cost);
            && ClientOK(t, c', now)
            && (v.allowed <==> Affordable(t, c, now, cost))
            && forall d: Dim ::
                 Balance(t, c', d, now) == Balance(t, c, d, now) - if v.allowed then Price(d, cost) else 0.0
    ensures var (c', v) := Admit(t, c, now, cost);
            if cost as real > t.tokCap then c' == c && v == Verdict(false, -1.0, -1.0, -1.0)
            else v.reqLeft == Balance(t, c', Requests, now) && v.tokLeft == Balance(t, c', Tokens, now)
  {
    BalanceWithin(t, c, Requests, now);
    BalanceWithin(t, c, Tokens, now);
    var req, tok, need := Balance(t, c, Requests, now), Balance(t, c, Tokens, now), cost as real;
    hide Refill, BucketOK, Save;
    if need <= t.tokCap {
      if req >= 1.0 && tok >= need {
        RefillSaved(req - 1.0, t.reqCap, t.reqRate, t.ttl, now);
        RefillSaved(tok - need, t.tokCap, t.tokRate, t.ttl, now);
      } else {
        RefillSaved(req, t.reqCap, t.reqRate, t.ttl, now);
        RefillSaved(tok, t.tokCap, t.tokRate, t.ttl, now);
      }
    }
  }

  /** A client never seen, or idle for a whole lifetime, starts with both buckets full. */
  lemma NewcomerFull(t: Tier, c: Client, now: real, cost: nat)
    requires TierOK(t) && ClientOK(t, c, now)
    requires c.req.Absent? || now - c.req.ts >= t.ttl
    requires c.tok.Absent? || now - c.tok.ts >= t.ttl
    ensures var (c', v) := Admit(t, c, now, cost);
            && (v.allowed <==> cost as real <= t.tokCap)
            && (v.allowed ==> v.reqLeft == t.reqCap - 1.0 && v.tokLeft == t.tokCap - cost as real)
  {
    assert BucketOK(Of(c, Requests), t.reqCap, t.ttl, now) && BucketOK(Of(c, Tokens), t.tokCap, t.ttl, now);
  }

  /** Between two calls a bucket gains its rate, up to its capacity, and never loses. */
  lemma RefillMeans(b: Bucket, cap: real, rate: real, ttl: real, now: real)
    requires b.Bucket? && 0.0 <= b.tokens <= cap && rate > 0.0 && b.expires == b.ts + ttl && now < b.ts + ttl
    ensures var r := Refill(b, cap, rate, now);
            && (now <= b.ts ==> r == b.tokens)
            && (now >= b.ts ==> r <= cap && r <= b.tokens + rate * (now - b.ts)
                                && (r == cap || r == b.tokens + rate * (now - b.ts)))
  {
  }

  /** A refund restores budget and never mints any: clamped at capacity, requests untouched. */
  lemma RepayCredits(t: Tier, c: Client, now: real, amount: int)
    requires TierOK(t) && ClientOK(t, c, now)
    ensures ClientOK(t, Repay(t, c, now, amount), now) && Repay(t, c, now, amount).req == c.req
    ensures amount <= 0 ==> Repay(t, c, now, amount) == c
    ensures Balance(t, Repay(t, c, now, amount), Requests, now) == Balance(t, c, Requests, now)
    ensures Balance(t, Repay(t, c, now, amount), Tokens, now) ==
            Min(Balance(t, c, Tokens, now) + (if amount > 0 then amount as real else 0.0), t.tokCap)
  {
    BalanceWithin(t, c, Tokens, now);
    if amount > 0 {
      GainFacts(t.tokRate, 0.0, 0.0);
      var b := Min(Balance(t, c, Tokens, now) + amount as real, t.tokCap);
      RefillSaved(b, t.tokCap, t.tokRate, t.ttl, now);
    }
  }

  /** What is written at `now` still counts as written at `later`, or would have filled up anyway. */
  predicate Lives(t: Tier, d: Dim, now: real, later: real)
  {
    later < now + t.ttl || Cap(t, d) <= Gain(Rate(t, d), t.ttl)
  }

  lemma SavedLater(cap: real, rate: real, ttl: real, tokens: real, now: real, later: real)
    requires 0.0 <= tokens <= cap && rate > 0.0 && ttl > 0.0 && now <= later
    requires later < now + ttl || cap <= Gain(rate, ttl)
    ensures Refill(Save(tokens, now, ttl), cap, rate, later) == Min(tokens + Gain(rate, later - now), cap)
  {
    hide Gain;
    GainFacts(rate, ttl, later - now);
  }

  /**
    Reserve the worst case, refund what was not delivered: a request for `cost` tokens that
    delivered `delivered` has lowered the balance by what it delivered, up to `cost`, and by nothing
    else. Tokens delivered beyond `cost` are not charged.
   */
  lemma ReserveThenRefund(t: Tier, c: Client, now: real, later: real, cost: nat, delivered: nat)
    requires TierOK(t) && ClientOK(t, c, now) && now <= later && Affordable(t, c, now, cost)
    ensures var c' := Repay(t, Admit(t, c, now, cost).0, later, cost - delivered);
            && ClientOK(t, c', later)
            && (Lives(t, Tokens, now, later) ==>
                  var charged := if delivered < cost then delivered else cost;
                  Balance(t, c', Tokens, later)
                  == Min(Balance(t, c, Tokens, now) - charged as real + Gain(t.tokRate, later - now), t.tokCap))
            && (Lives(t, Requests, now, later) ==>
                  Balance(t, c', Requests, later)
                  == Min(Balance(t, c, Requests, now) - 1.0 + Gain(t.reqRate, later - now), t.reqCap))
  {
    var (mid, v) := Admit(t, c, now, cost);
    AdmitCharges(t, c, now, cost);
    BalanceWithin(t, c, Requests, now);
    BalanceWithin(t, c, Tokens, now);
    var req, tok := Balance(t, c, Requests, now) - 1.0, Balance(t, c, Tokens, now) - cost as real;
    assert mid == Client(Save(req, now, t.ttl), Save(tok, now, t.ttl));
    OKLater(t, mid, now, later);
    hide Refill, Save, Repay, Gain, ClientOK;
    RepayCredits(t, mid, later, cost - delivered);
    if Lives(t, Tokens, now, later) { SavedLater(t.tokCap, t.tokRate, t.ttl, tok, now, later); }
    if Lives(t, Requests, now, later) { SavedLater(t.reqCap, t.reqRate, t.ttl, req, now, later); }
  }

  // -- runs ---------------------------------------------------------------------------------------

  datatype Call = Ask(at: real, cost: nat) | Return(at: real, amount: int)

  ghost predicate Ordered(calls: seq<Call>, from: real)
    decreases |calls|
  {
    calls != [] ==> from <= calls[0].at && Ordered(calls[1..], calls[0].at)
  }

  function Next(t: Tier, c: Client, call: Call): Client
    requires TierOK(t)
  {
    match call
    case Ask(at, cost) => Admit(t, c, at, cost).0
    case Return(at, amount) => Repay(t, c, at, amount)
  }

  predicate Accepts(t: Tier, c: Client, call: Call)
    requires TierOK(t)
  {
    call.Ask? && Admit(t, c, call.at, call.cost).1.allowed
  }

  function Final(t: Tier, c: Client, calls: seq<Call>): Client
    requires TierOK(t)
    decreases |calls|
  {
    if calls == [] then c else Final(t, Next(t, c, calls[0]), calls[1..])
  }

  function End(calls: seq<Call>, from: real): real
  {
    if calls == [] then from else calls[|calls| - 1].at
  }

  /** What the run's admitted calls cost in one dimension. */
  function Spent(t: Tier, c: Client, calls: seq<Call>, d: Dim): real
    requires TierOK(t)
    decreases |calls|
  {
    if calls == [] then 0.0
    else (if Accepts(t, c, calls[0]) then Price(d, calls[0].cost) else 0.0)
         + Spent(t, Next(t, c, calls[0]), calls[1..], d)
  }

  function Returned(calls: seq<Call>, d: Dim): real
    decreases |calls|
  {
    if calls == [] then 0.0
    else (if d.Tokens? && calls[0].Return? && calls[0].amount > 0 then calls[0].amount as real else 0.0)
         + Returned(calls[1..], d)
  }

  /** One call: what it costs plus what is left is at most what there was plus what came in. */
  lemma CallBudget(t: Tier, c: Client, call: Call, d: Dim)
    requires TierOK(t) && ClientOK(t, c, call.at)
    ensures ClientOK(t, Next(t, c, call), call.at)
    ensures (if Accepts(t, c, call) then Price(d, call.cost) else 0.0) + Balance(t, Next(t, c, call), d, call.at)
            <= Balance(t, c, d, call.at) + Returned([call], d)
  {
    assert [call][1..] == [];
    if call.Ask? {
      AdmitCharges(t, c, call.at, call.cost);
    } else {
      RepayCredits(t, c, call.at, call.amount);
    }
  }

  /** What a run costs, plus what it leaves, is covered by what there was, the refill and the refunds. */
  ghost predicate Budgeted(t: Tier, c: Client, calls: seq<Call>, from: real, d: Dim)
    requires TierOK(t)
  {
    Spent(t, c, calls, d) + Balance(t, Final(t, c, calls), d, End(calls, from))
    <= Balance(t, c, d, from) + Gain(Rate(t, d), End(calls, from) - from) + Returned(calls, d)
  }

  lemma {:induction false} Budget(t: Tier, c: Client, calls: seq<Call>, from: real, d: Dim)
    requires TierOK(t) && Lasting(t) && ClientOK(t, c, from) && Ordered(calls, from)
    ensures ClientOK(t, Final(t, c, calls), End(calls, from)) && End(calls, from) >= from
    ensures Budgeted(t, c, calls, from, d)
    decreases |calls|
  {
    if calls == [] {
      GainFacts(Rate(t, d), 0.0, 0.0);
    } else {
      var call, rest := calls[0], calls[1..];
      var at, c' := call.at, Next(t, c, call);
      hide ClientOK, Admit, Repay, Refill, Gain, Price;
      OKLater(t, c, from, at);
      BalanceLater(t, c, d, from, at);
      CallBudget(t, c, call, d);
      assert [call][1..] == [] && Returned(calls, d) == Returned([call], d) + Returned(rest, d);
      Budget(t, c', rest, at, d);
      GainFacts(Rate(t, d), at - from, End(rest, at) - at);
      assert End(calls, from) == End(rest, at);
    }
  }

  /** Buckets stay within capacity over every run on a clock that never goes back. */
  lemma {:induction false} RunWithin(t: Tier, c: Client, calls: seq<Call>, from: real, d: Dim)
    requires TierOK(t) && ClientOK(t, c, from) && Ordered(calls, from)
    ensures ClientOK(t, Final(t, c, calls), End(calls, from))
    ensures 0.0 <= Balance(t, Final(t, c, calls), d, End(calls, from)) <= Cap(t, d)
    decreases |calls|
  {
    if calls != [] {
      OKLater(t, c, from, calls[0].at);
      CallBudget(t, c, calls[0], d);
      RunWithin(t, Next(t, c, calls[0]), calls[1..], calls[0].at, d);
      assert End(calls, from) == End(calls[1..], calls[0].at);
    }
    BalanceWithin(t, Final(t, c, calls), d, End(calls, from));
  }

  /**
    The rate bound: from any state, what any stretch of calls is admitted for, in requests or in
    tokens, is at most the capacity, plus the rate times the stretch's length, plus refunds.
   */
  lemma RateBound(t: Tier, c: Client, calls: seq<Call>, d: Dim)
    requires TierOK(t) && Lasting(t) && calls != []
    requires ClientOK(t, c, calls[0].at) && Ordered(calls, calls[0].at)
    ensures Spent(t, c, calls, d) <= Cap(t, d) + Gain(Rate(t, d), End(calls, 0.0) - calls[0].at) + Returned(calls, d)
  {
    var from := calls[0].at;
    Budget(t, c, calls, from, d);
    BalanceWithin(t, c, d, from);
    BalanceWithin(t, Final(t, c, calls), d, End(calls, from));
  }

  /** An emptied bucket left alone for its lifetime comes back full, whatever the rate. */
  lemma WaitedOut(t: Tier, d: Dim)
    requires TierOK(t) && Cap(t, d) > Gain(Rate(t, d), t.ttl)
    ensures var c := Client(Save(0.0, 0.0, t.ttl), Save(0.0, 0.0, t.ttl));
            && ClientOK(t, c, 0.0) && Ordered([Ask(t.ttl, 0)], 0.0) && !Budgeted(t, c, [Ask(t.ttl, 0)], 0.0, d)
  {
    var c, call := Client(Save(0.0, 0.0, t.ttl), Save(0.0, 0.0, t.ttl)), Ask(t.ttl, 0);
    OKLater(t, c, 0.0, t.ttl);
    AdmitCharges(t, c, t.ttl, 0);
    assert [call][1..] == [];
    RefillSaved(0.0, Cap(t, d), Rate(t, d), t.ttl, 0.0);
    assert Final(t, c, [call]) == Next(t, c, call);
    assert Affordable(t, c, t.ttl, 0) && Accepts(t, c, call);
    assert Spent(t, c, [call], d) == Price(d, 0) + Spent(t, Next(t, c, call), [], d);
    assert Balance(t, c, d, 0.0) == 0.0 && Balance(t, c, d, t.ttl) == Cap(t, d);
    assert Returned([call], d) == 0.0 + Returned([], d);
    assert End([call], 0.0) - 0.0 == t.ttl;
  }

  /** Every run stays on budget exactly when buckets refill within their lifetime. */
  lemma BudgetIff(t: Tier)
    requires TierOK(t)
    ensures Lasting(t) <==> forall c, calls, from, d: Dim ::
                              ClientOK(t, c, from) && Ordered(calls, from) ==> Budgeted(t, c, calls, from, d)
  {
    hide ClientOK, Budgeted, Ordered;
    if Lasting(t) {
      forall c, calls, from, d: Dim | ClientOK(t, c, from) && Ordered(calls, from)
        ensures Budgeted(t, c, calls, from, d)
      {
        Budget(t, c, calls, from, d);
      }
    } else {
      WaitedOut(t, if t.reqCap > Gain(t.reqRate, t.ttl) then Requests else Tokens);
    }
  }

  /** A bucket that cannot refill in its lifetime lets a client wait out its debt. */
  lemma ShortLifeBreaksBound()
    ensures var t := Tier(10.0, 1.0, 100.0, 1.0, 10.0);
            var calls := [Ask(0.0, 100), Ask(10.0, 100)];
            && TierOK(t) && !Lasting(t)
            && Spent(t, Client(Absent, Absent), calls, Tokens) == 200.0 > t.tokCap + Gain(t.tokRate, 10.0)
  {
    var t := Tier(10.0, 1.0, 100.0, 1.0, 10.0);
    var c := Client(Absent, Absent);
    var calls := [Ask(0.0, 100), Ask(10.0, 100)];
    var c1 := Next(t, c, calls[0]);
    assert calls[1..] == [Ask(10.0, 100)] && calls[1..][1..] == [];
    assert c1 == Client(Save(9.0, 0.0, 10.0), Save(0.0, 0.0, 10.0));
    assert Spent(t, c1, calls[1..], Tokens) == 100.0 + Spent(t, Next(t, c1, calls[1]), [], Tokens);
  }

  // -- the retry hint --------------------------------------------------------------------------------

  lemma DivBounds(x: real, y: real, rate: real)
    requires rate > 0.0
    ensures y >= x / rate <==> Gain(rate, y) >= x
  {
    var q := x / rate;
    assert Gain(rate, q) == x;
    if y < q { assert Gain(rate, q - y) > 0.0; }
    GainFacts(rate, y, q - y);
    GainFacts(rate, q, y);
  }

  /** From a bucket saved at `now`, `need` is there after `dt` exactly when the wait is over. */
  lemma WaitExact(have: real, need: real, cap: real, rate: real, ttl: real, now: real, dt: real)
    requires 0.0 <= have <= cap && need <= cap && rate > 0.0 && ttl > 0.0 && dt >= 0.0
    ensures Refill(Save(have, now, ttl), cap, rate, now + dt) >= need
            <==> dt >= Wait(have, need, rate) || dt >= ttl
  {
    DivBounds(need - have, dt, rate);
    GainFacts(rate, dt, 0.0);
  }

  /**
    The hint is exact. After a rejection that is not final, if nothing else touches the buckets,
    the same call is rejected at every time before the hint and admitted from it on; a hint
    longer than the buckets' life is cut short by their expiry.
   */
  lemma RetryExact(t: Tier, c: Client, now: real, cost: nat, dt: real)
    requires TierOK(t) && ClientOK(t, c, now) && dt >= 0.0
    requires var v := Admit(t, c, now, cost).1; !v.allowed && v.retry >= 0.0
    ensures var (c', v) := Admit(t, c, now, cost);
            Admit(t, c', now + dt, cost).1.allowed <==> dt >= v.retry || dt >= t.ttl
  {
    var (c', v) := Admit(t, c, now, cost);
    BalanceWithin(t, c, Requests, now);
    BalanceWithin(t, c, Tokens, now);
    WaitExact(Balance(t, c, Requests, now), 1.0, t.reqCap, t.reqRate, t.ttl, now, dt);
    WaitExact(Balance(t, c, Tokens, now), cost as real, t.tokCap, t.tokRate, t.ttl, now, dt);
  }

  /** Where buckets outlive a full refill the hint never exceeds their life, so it is exact as given. */
  lemma RetryWithinLife(t: Tier, c: Client, now: real, cost: nat)
    requires TierOK(t) && Lasting(t) && ClientOK(t, c, now)
    ensures Admit(t, c, now, cost).1.retry <= t.ttl
  {
    BalanceWithin(t, c, Requests, now);
    BalanceWithin(t, c, Tokens, now);
    DivBounds(1.0 - Balance(t, c, Requests, now), t.ttl, t.reqRate);
    DivBounds(cost as real - Balance(t, c, Tokens, now), t.ttl, t.tokRate);
  }

  /** A final rejection is exactly a cost above the capacity, and no state or time ever changes it. */
  lemma NeverIff(t: Tier, c: Client, now: real, cost: nat)
    requires TierOK(t)
    ensures var (c', v) := Admit(t, c, now, cost);
            && (!v.allowed && v.retry < 0.0 <==> cost as real > t.tokCap)
            && (v.retry < 0.0 ==> c' == c)
  {
    var req, tok := Balance(t, c, Requests, now), Balance(t, c, Tokens, now);
    WaitPositive(req, 1.0, t.reqRate);
    WaitPositive(tok, cost as real, t.tokRate);
  }

  lemma WaitPositive(have: real, need: real, rate: real)
    requires rate > 0.0
    ensures Wait(have, need, rate) >= 0.0
  {
  }

  // -- rejected calls leave no trace --------------------------------------------------------------------

  /** No later call can tell the two states apart. */
  ghost predicate Alike(t: Tier, c: Client, c2: Client, now: real)
  {
    ClientOK(t, c, now) && ClientOK(t, c2, now) && forall d: Dim :: Balance(t, c, d, now) == Balance(t, c2, d, now)
  }

  lemma AlikeLater(t: Tier, c: Client, c2: Client, s: real, now: real)
    requires TierOK(t) && Lasting(t) && Alike(t, c, c2, s) && s <= now
    ensures Alike(t, c, c2, now)
  {
    OKLater(t, c, s, now);
    OKLater(t, c2, s, now);
    forall d: Dim ensures Balance(t, c, d, now) == Balance(t, c2, d, now) {
      BalanceLater(t, c, d, s, now);
      BalanceLater(t, c2, d, s, now);
    }
  }

  /** Alike states answer alike and stay alike; a rejected call leaves a state alike to the one before. */
  lemma CallAlike(t: Tier, c: Client, c2: Client, call: Call)
    requires TierOK(t) && Alike(t, c, c2, call.at)
    ensures Alike(t, Next(t, c, call), Next(t, c2, call), call.at)
    ensures call.Ask? ==> Admit(t, c, call.at, call.cost).1 == Admit(t, c2, call.at, call.cost).1
    ensures call.Ask? && !Accepts(t, c, call) ==> Alike(t, Next(t, c, call), c2, call.at)
  {
    assert Balance(t, c, Requests, call.at) == Balance(t, c2, Requests, call.at);
    assert Balance(t, c, Tokens, call.at) == Balance(t, c2, Tokens, call.at);
    if call.Ask? {
      AdmitCharges(t, c, call.at, call.cost);
      AdmitCharges(t, c2, call.at, call.cost);
    } else {
      RepayCredits(t, c, call.at, call.amount);
      RepayCredits(t, c2, call.at, call.amount);
    }
  }

  /** The run with some of its rejected calls taken out: those `drop` marks. */
  function Thinned(t: Tier, c: Client, calls: seq<Call>, drop: seq<bool>): seq<Call>
    requires TierOK(t) && |drop| == |calls|
    decreases |calls|
  {
    if calls == [] then []
    else
      var rest := Thinned(t, Next(t, c, calls[0]), calls[1..], drop[1..]);
      if calls[0].Ask? && !Accepts(t, c, calls[0]) && drop[0] then rest else [calls[0]] + rest
  }

  /** The verdicts of a run, one per call; a refund has none and reads as `NEVER`. */
  function Answer(t: Tier, c: Client, call: Call): Verdict
    requires TierOK(t)
  {
    if call.Ask? then Admit(t, c, call.at, call.cost).1 else NEVER
  }

  function Verdicts(t: Tier, c: Client, calls: seq<Call>): seq<Verdict>
    requires TierOK(t)
    decreases |calls|
  {
    if calls == [] then [] else [Answer(t, c, calls[0])] + Verdicts(t, Next(t, c, calls[0]), calls[1..])
  }

  /** The verdicts of the calls that `Thinned` keeps, in the run that still has the others. */
  function KeptVerdicts(t: Tier, c: Client, calls: seq<Call>, drop: seq<bool>): seq<Verdict>
    requires TierOK(t) && |drop| == |calls|
    decreases |calls|
  {
    if calls == [] then []
    else
      var rest := KeptVerdicts(t, Next(t, c, calls[0]), calls[1..], drop[1..]);
      if calls[0].Ask? && !Accepts(t, c, calls[0]) && drop[0] then rest else [Answer(t, c, calls[0])] + rest
  }

  /** Taking any of its rejected calls out of a run changes no other verdict and no balance. */
  lemma {:induction false} RejectedUnobservable(
    t: Tier, c: Client, c2: Client, calls: seq<Call>, drop: seq<bool>, from: real)
    requires TierOK(t) && Lasting(t) && |drop| == |calls| && Ordered(calls, from) && Alike(t, c, c2, from)
    ensures Verdicts(t, c2, Thinned(t, c, calls, drop)) == KeptVerdicts(t, c, calls, drop)
    ensures Alike(t, Final(t, c, calls), Final(t, c2, Thinned(t, c, calls, drop)), End(calls, from))
    decreases |calls|
  {
    if calls != [] {
      var call, rest := calls[0], calls[1..];
      AlikeLater(t, c, c2, from, call.at);
      CallAlike(t, c, c2, call);
      assert End(calls, from) == End(rest, call.at);
      hide Alike, ClientOK, Admit, Repay;
      if call.Ask? && !Accepts(t, c, call) && drop[0] {
        RejectedUnobservable(t, Next(t, c, call), c2, rest, drop[1..], call.at);
      } else {
        RejectedUnobservable(t, Next(t, c, call), Next(t, c2, call), rest, drop[1..], call.at);
        var kept := Thinned(t, Next(t, c, call), rest, drop[1..]);
        assert ([call] + kept)[1..] == kept;
      }
    }
  }

  /** With the rejected calls marked in `drop` taken out, verdicts and balances are as they were. */
  ghost predicate Untraced(t: Tier, c: Client, calls: seq<Call>, drop: seq<bool>, from: real)
    requires TierOK(t) && |drop| == |calls|
  {
    && Verdicts(t, c, Thinned(t, c, calls, drop)) == KeptVerdicts(t, c, calls, drop)
    && Alike(t, Final(t, c, calls), Final(t, c, Thinned(t, c, calls, drop)), End(calls, from))
  }

  /** A rejection renews the buckets' life, so an emptied bucket that would have expired does not. */
  lemma RenewedLife(t: Tier, d: Dim) returns (c: Client, calls: seq<Call>, drop: seq<bool>)
    requires TierOK(t) && Cap(t, d) > Gain(Rate(t, d), t.ttl)
    ensures |drop| == |calls| && ClientOK(t, c, 0.0) && Ordered(calls, 0.0) && !Untraced(t, c, calls, drop, 0.0)
  {
    c := Client(Save(0.0, 0.0, t.ttl), Save(0.0, 0.0, t.ttl));
    var s := Min(t.ttl / 2.0, 1.0 / (2.0 * t.reqRate));
    var ask, idle := Ask(s, 0), Return(t.ttl, 0);
    calls, drop := [ask, idle], [true, true];
    HalfRequest(t.reqRate, s);
    GainFacts(t.reqRate, s, 0.0);
    OKLater(t, c, 0.0, s);
    AdmitCharges(t, c, s, 0);
    assert !Accepts(t, c, ask);
    assert calls[1..] == [idle] && [idle][1..] == [] && Ordered([idle], s);
    ShortRuns(t, c, ask, idle);
    hide Admit, Refill, ClientOK, Final, Thinned, Balance;
    assert Next(t, c, idle) == c && Next(t, Next(t, c, ask), idle) == Next(t, c, ask);
    EmptyAt(t, c, d, s);
  }

  lemma ShortRuns(t: Tier, c: Client, a: Call, b: Call)
    requires TierOK(t) && a.Ask? && !Accepts(t, c, a) && b.Return?
    ensures Final(t, c, [b]) == Next(t, c, b) && Final(t, c, [a, b]) == Next(t, Next(t, c, a), b)
    ensures Thinned(t, c, [a, b], [true, true]) == [b]
  {
    assert [a, b][1..] == [b] && [true, true][1..] == [true] && [b][1..] == [];
    var c' := Next(t, c, a);
    assert Final(t, c', [b]) == Final(t, Next(t, c', b), []);
    assert Thinned(t, c', [b], [true]) == [b] + Thinned(t, Next(t, c', b), [], [true][1..]);
  }

  lemma HalfRequest(rate: real, s: real)
    requires rate > 0.0 && s <= 1.0 / (2.0 * rate)
    ensures Gain(rate, s) < 1.0
  {
    var q := 1.0 / (2.0 * rate);
    assert Gain(rate, q) == 0.5;
    GainFacts(rate, s, q);
  }

  /** The bucket renewed at `s` is short of full when the one left alone has expired. */
  lemma EmptyAt(t: Tier, c: Client, d: Dim, s: real)
    requires TierOK(t) && Cap(t, d) > Gain(Rate(t, d), t.ttl) && 0.0 < s < t.ttl
    requires c == Client(Save(0.0, 0.0, t.ttl), Save(0.0, 0.0, t.ttl)) && !Accepts(t, c, Ask(s, 0))
    ensures Balance(t, Next(t, c, Ask(s, 0)), d, t.ttl) != Balance(t, c, d, t.ttl)
  {
    hide Gain;
    var rate := Rate(t, d);
    GainFacts(rate, s, t.ttl - s);
    GainFacts(rate, s, t.ttl);
  }

  /** Rejected calls leave no trace in any run exactly when buckets refill within their lifetime. */
  lemma UnobservableIff(t: Tier)
    requires TierOK(t)
    ensures Lasting(t) <==> forall c, calls, drop, from ::
                              |drop| == |calls| && ClientOK(t, c, from) && Ordered(calls, from)
                              ==> Untraced(t, c, calls, drop, from)
  {
    if Lasting(t) {
      forall c, calls, drop, from | |drop| == |calls| && ClientOK(t, c, from) && Ordered(calls, from)
        ensures Untraced(t, c, calls, drop, from)
      {
        RejectedUnobservable(t, c, c, calls, drop, from);
      }
    } else {
      var c, calls, drop := RenewedLife(t, if t.reqCap > Gain(t.reqRate, t.ttl) then Requests else Tokens);
    }
  }

  // -- the store, where the scripts run ---------------------------------------------------------------------

  datatype Key = ReqKey(client: string) | TokKey(client: string)

  /** The shared store: a hash per key, with its expiry. */
  class Store {
    var buckets: map<Key, Bucket>

    constructor ()
      ensures buckets == map[]
    {
      buckets := map[];
    }

    function Get(k: Key): Bucket
      reads this
    {
      if k in buckets then buckets[k] else Absent
    }

    /** One client's two buckets. */
    function View(client: string): Client
      reads this
    {
      Client(Get(ReqKey(client)), Get(TokKey(client)))
    }

    method RefillNow(k: Key, cap: real, rate: real, now: real) returns (filled: real)
      ensures filled == Refill(Get(k), cap, rate, now)
    {
      var b := Get(k);
      if b.Absent? || now >= b.expires {
        return cap;
      }
      var elapsed := now - b.ts;
      if elapsed < 0.0 { elapsed := 0.0; }
      filled := b.tokens + Gain(rate, elapsed);
      if filled > cap { filled := cap; }
    }

    method Write(k: Key, tokens: real, now: real, ttl: real)
      modifies this
      ensures buckets == old(buckets)[k := Save(tokens, now, ttl)]
    {
      buckets := buckets[k := Bucket(tokens, now, now + ttl)];
    }

    /** `Allow`: both buckets are checked and charged together; no other client's change. */
    method Allow(t: Tier, client: string, now: real, cost: nat) returns (v: Verdict)
      requires TierOK(t)
      modifies this
      ensures View(client) == Admit(t, old(View(client)), now, cost).0
      ensures v == Admit(t, old(View(client)), now, cost).1
      ensures forall other :: other != client ==> View(other) == old(View(other))
    {
      var need := cost as real;
      if need > t.tokCap {
        return NEVER;
      }
      var req := RefillNow(ReqKey(client), t.reqCap, t.reqRate, now);
      var tok := RefillNow(TokKey(client), t.tokCap, t.tokRate, now);
      var retry, allowed := 0.0, true;
      if req < 1.0 {
        allowed := false;
        var wait := (1.0 - req) / t.reqRate;
        if wait > retry { retry := wait; }
      }
      if tok < need {
        allowed := false;
        var wait := (need - tok) / t.tokRate;
        if wait > retry { retry := wait; }
      }
      WaitPositive(req, 1.0, t.reqRate);
      WaitPositive(tok, need, t.tokRate);
      if allowed {
        req, tok := req - 1.0, tok - need;
      }
      Write(ReqKey(client), req, now, t.ttl);
      Write(TokKey(client), tok, now, t.ttl);
      return Verdict(allowed, req, tok, retry);
    }

    method Refund(t: Tier, client: string, now: real, amount: int)
      requires TierOK(t)
      modifies this
      ensures View(client) == Repay(t, old(View(client)), now, amount)
      ensures forall other :: other != client ==> View(other) == old(View(other))
    {
      if amount <= 0 {
        return;
      }
      var b := Get(TokKey(client));
      var tokens, ts := t.tokCap, now;
      if b.Bucket? && now < b.expires {
        tokens, ts := b.tokens, b.ts;
      }
      var elapsed := now - ts;
      if elapsed < 0.0 { elapsed := 0.0; }
      tokens := tokens + Gain(t.tokRate, elapsed) + amount as real;
      if tokens > t.tokCap { tokens := t.tokCap; }
      Write(TokKey(client), tokens, now, t.ttl);
    }
  }
}
