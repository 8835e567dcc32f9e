/**
  The autoscaler (router/autoscaler.go): proportional demand with a dead band, a KV guard that
  only ever adds, immediate scale-up and scale-down held by a stabilization window. Reals stand
  for floats; decisions carry no reason text.
 */
module Autoscaling {
  import opened Arith

  datatype Policy = Policy(target: real, min: int, max: int, tolerance: real, window: real, kvHigh: real)

  /** `validate`. */
  predicate PolicyOK(p: Policy)
  {
    && p.target > 0.0 && 1 <= p.min <= p.max
    && 0.0 <= p.tolerance < 1.0 && 0.0 < p.kvHigh <= 1.0
  }

  datatype Load = Load(registered: int, ready: int, waiting: nat, kv: real)

  datatype Decision = Decision(desired: int, current: int, held: bool)

  /** A demand recorded in the history. */
  datatype Sample = Sample(at: real, desired: int)

  function Clamp(v: int, lo: int, hi: int): (r: int)
    requires lo <= hi
    ensures lo <= r <= hi && (lo <= v <= hi ==> r == v)
  {
    if v < lo then lo else if v > hi then hi else v
  }

  function Abs(x: real): real
  {
    if x < 0.0 then -x else x
  }

  // -- the demand for one observation --------------------------------------------------------

  /** Queue depth per replica over its target. */
  function Ratio(p: Policy, waiting: nat, current: int): real
    requires p.target > 0.0 && current > 0
  {
    waiting as real / current as real / p.target
  }

  predicate InBand(p: Policy, waiting: nat, current: int)
    requires p.target > 0.0 && current > 0
  {
    !(Abs(Ratio(p, waiting, current) - 1.0) > p.tolerance)
  }

  function Proportional(p: Policy, waiting: nat, current: int): int
    requires p.target > 0.0 && current > 0
  {
    Ceil(current as real * Ratio(p, waiting, current))
  }

  /** The demand `Decide` records. */
  function Raw(p: Policy, l: Load, current: int): int
    requires PolicyOK(p) && current > 0
  {
    var raw := if InBand(p, l.waiting, current) then current
               else Proportional(p, l.waiting, current);
    var raw := if l.kv >= p.kvHigh && raw <= current then current + 1 else raw;
    Clamp(raw, p.min, p.max)
  }

  /** Outside the band the proportional demand does not depend on the current count. */
  lemma DemandIgnoresCount(p: Policy, waiting: nat, n: int)
    requires p.target > 0.0 && n > 0
    ensures Proportional(p, waiting, n) == Ceil(waiting as real / p.target)
  {
    var w, m := waiting as real, n as real;
    assert m * (w / m / p.target) == w / p.target by {
      assert m * (w / m) == w;
      assert w / m / p.target == (w / m) * (1.0 / p.target);
      assert m * ((w / m) * (1.0 / p.target)) == (m * (w / m)) * (1.0 / p.target);
    }
  }

  // -- the demand, said by multiplication ---------------------------------------------------------

  /** The queue is within the tolerance of the target for `n` replicas. */
  predicate NearTarget(p: Policy, waiting: nat, n: int)
  {
    var t := p.target * (n as real);
    t - p.tolerance * t <= waiting as real <= t + p.tolerance * t
  }

  /** The fewest replicas that bring the queue down to its target. */
  predicate Fewest(p: Policy, waiting: nat, k: int)
  {
    p.target * ((k - 1) as real) < waiting as real <= p.target * (k as real)
  }

  /** `v` brought into the policy's range. */
  predicate Clamped(p: Policy, v: int, r: int)
  {
    (v < p.min && r == p.min) || (p.min <= v <= p.max && r == v) || (v > p.max && r == p.max)
  }

  /**
    The demand for one observation: the current count near the target and else the fewest replicas
    that meet it, with KV pressure at least one more than there are, brought into range.
   */
  ghost predicate Demanded(p: Policy, l: Load, raw: int)
  {
    exists k: int :: Fewest(p, l.waiting, k)
      && var v := if NearTarget(p, l.waiting, l.ready) then l.ready else k;
         Clamped(p, if l.kv >= p.kvHigh && v < l.ready + 1 then l.ready + 1 else v, raw)
  }

  function Times(x: real, y: real): real
  {
    x * y
  }

  lemma TimesFacts(x: real, y: real, t: real)
    requires t > 0.0
    ensures x <= y <==> Times(x, t) <= Times(y, t)
    ensures Times(x - y, t) == Times(x, t) - Times(y, t)
    ensures Times(1.0, t) == t
  {
    if x < y { assert (y - x) * t > 0.0; }
    if y < x { assert (x - y) * t > 0.0; }
  }

  /** With `r` the ratio of `w` to `t`: within the tolerance of 1 is within as much of `t`. */
  lemma Band(r: real, tolerance: real, t: real, w: real)
    requires t > 0.0 && Times(r, t) == w
    ensures !(Abs(r - 1.0) > tolerance) <==> t - Times(tolerance, t) <= w <= t + Times(tolerance, t)
  {
    hide Times;
    TimesFacts(r - 1.0, tolerance, t);
    TimesFacts(1.0 - r, tolerance, t);
    TimesFacts(r, 1.0, t);
    TimesFacts(1.0, r, t);
  }

  lemma RatioTimes(w: real, n: real, target: real)
    requires n > 0.0 && target > 0.0
    ensures target * n > 0.0 && Times(w / n / target, target * n) == w
  {
    var x := w / n;
    assert x * n == w && x / target * target == x;
    assert x / target * (target * n) == x / target * target * n;
  }

  lemma InBandIff(p: Policy, waiting: nat, n: int)
    requires p.target > 0.0 && n > 0
    ensures InBand(p, waiting, n) <==> NearTarget(p, waiting, n)
  {
    var t := p.target * (n as real);
    RatioTimes(waiting as real, n as real, p.target);
    assert p.tolerance * t == Times(p.tolerance, t);
    hide Times;
    Band(Ratio(p, waiting, n), p.tolerance, t, waiting as real);
  }

  lemma FewestTimes(p: Policy, waiting: nat, k: int)
    ensures Fewest(p, waiting, k)
       <==> Times((k - 1) as real, p.target) < waiting as real <= Times(k as real, p.target)
  {
    assert p.target * (k as real) == Times(k as real, p.target);
    assert p.target * ((k - 1) as real) == Times((k - 1) as real, p.target);
  }

  lemma FewestIs(p: Policy, waiting: nat)
    requires p.target > 0.0
    ensures Fewest(p, waiting, Ceil(waiting as real / p.target))
  {
    var w := waiting as real;
    var q := w / p.target;
    var k := Ceil(q);
    assert Times(q, p.target) == w;
    FewestTimes(p, waiting, k);
    hide Times, Fewest;
    TimesFacts(q, k as real, p.target);
    TimesFacts(q, (k - 1) as real, p.target);
  }

  lemma RawDemanded(p: Policy, l: Load)
    requires PolicyOK(p) && l.ready > 0
    ensures Demanded(p, l, Raw(p, l, l.ready))
  {
    hide InBand, NearTarget, Fewest, Proportional, Ceil;
    InBandIff(p, l.waiting, l.ready);
    FewestIs(p, l.waiting);
    DemandIgnoresCount(p, l.waiting, l.ready);
    assert Fewest(p, l.waiting, Ceil(l.waiting as real / p.target));
  }

  /** There is one such number, so a demand is determined. */
  lemma FewestUnique(p: Policy, waiting: nat, a: int, b: int)
    requires p.target > 0.0 && Fewest(p, waiting, a) && Fewest(p, waiting, b)
    ensures a == b
  {
    FewestTimes(p, waiting, a);
    FewestTimes(p, waiting, b);
    hide Times, Fewest;
    TimesFacts(a as real, (b - 1) as real, p.target);
    TimesFacts(b as real, (a - 1) as real, p.target);
  }

  lemma DemandUnique(p: Policy, l: Load, a: int, b: int)
    requires PolicyOK(p) && Demanded(p, l, a) && Demanded(p, l, b)
    ensures a == b
  {
    var x, y :| Fewest(p, l.waiting, x) && Fewest(p, l.waiting, y)
      && (var v := if NearTarget(p, l.waiting, l.ready) then l.ready else x;
          Clamped(p, if l.kv >= p.kvHigh && v < l.ready + 1 then l.ready + 1 else v, a))
      && (var v := if NearTarget(p, l.waiting, l.ready) then l.ready else y;
          Clamped(p, if l.kv >= p.kvHigh && v < l.ready + 1 then l.ready + 1 else v, b));
    FewestUnique(p, l.waiting, x, y);
  }

  lemma RawInRange(p: Policy, l: Load, n: int)
    requires PolicyOK(p) && n > 0
    ensures p.min <= Raw(p, l, n) <= p.max
  {
  }

  /** Coming down to anything at or above the demand, the demand stays at or below the count. */
  lemma DemandFalls(p: Policy, l: Load, n: int, s: int)
    requires PolicyOK(p) && n > 0 && Raw(p, l, n) <= s <= n
    ensures s > 0 && Raw(p, l, s) <= s
  {
    hide InBand, Proportional, Ceil;
    RawInRange(p, l, n);
    DemandIgnoresCount(p, l.waiting, n);
    DemandIgnoresCount(p, l.waiting, s);
  }

  /** Going up to the demand, the demand stays at or above the count. */
  lemma DemandRises(p: Policy, l: Load, n: int)
    requires PolicyOK(p) && n > 0 && Raw(p, l, n) >= n
    ensures Raw(p, l, n) > 0 && Raw(p, l, Raw(p, l, n)) >= Raw(p, l, n)
  {
    hide InBand, Proportional, Ceil;
    RawInRange(p, l, n);
    DemandIgnoresCount(p, l.waiting, n);
    DemandIgnoresCount(p, l.waiting, Raw(p, l, n));
  }

  // -- the window ------------------------------------------------------------------------------

  /** `trim`: cut the leading samples that are older than the cutoff. */
  function Trim(h: seq<Sample>, cutoff: real): seq<Sample>
  {
    if h == [] || h[0].at >= cutoff then h else Trim(h[1..], cutoff)
  }

  /** The samples recorded no earlier than the cutoff. */
  function Recent(log: seq<Sample>, cutoff: real): seq<Sample>
  {
    if log == [] then []
    else if log[0].at >= cutoff then [log[0]] + Recent(log[1..], cutoff)
    else Recent(log[1..], cutoff)
  }

  ghost predicate InOrder(log: seq<Sample>)
  {
    forall i, j :: 0 <= i < j < |log| ==> log[i].at <= log[j].at
  }

  lemma {:induction false} RecentAll(log: seq<Sample>, cutoff: real)
    requires forall i :: 0 <= i < |log| ==> log[i].at >= cutoff
    ensures Recent(log, cutoff) == log
  {
    if log != [] { RecentAll(log[1..], cutoff); }
  }

  /** On a log in time order, cutting the head is taking the window. */
  lemma {:induction false} TrimIsRecent(log: seq<Sample>, cutoff: real)
    requires InOrder(log)
    ensures Trim(log, cutoff) == Recent(log, cutoff)
  {
    if log != [] {
      if log[0].at >= cutoff { RecentAll(log, cutoff); } else { TrimIsRecent(log[1..], cutoff); }
    }
  }

  lemma RecentNone(cutoff: real)
    ensures Recent([], cutoff) == []
  {
  }

  lemma RecentUnfold(log: seq<Sample>, cutoff: real)
    requires log != []
    ensures Recent(log, cutoff) == (if log[0].at >= cutoff then [log[0]] else []) + Recent(log[1..], cutoff)
  {
  }

  lemma {:induction false} RecentAppend(a: seq<Sample>, b: seq<Sample>, cutoff: real)
    ensures Recent(a + b, cutoff) == Recent(a, cutoff) + Recent(b, cutoff)
  {
    hide Recent;
    if a == [] {
      assert a + b == b;
      assert Recent(a, cutoff) == [] by { RecentNone(cutoff); }
    } else {
      var h := if a[0].at >= cutoff then [a[0]] else [];
      RecentAppend(a[1..], b, cutoff);
      assert Recent(a, cutoff) == h + Recent(a[1..], cutoff) by { RecentUnfold(a, cutoff); }
      assert Recent(a + b, cutoff) == h + Recent(a[1..] + b, cutoff) by {
        RecentUnfold(a + b, cutoff);
        assert (a + b)[1..] == a[1..] + b;
      }
    }
  }

  lemma {:induction false} RecentTwice(log: seq<Sample>, c: real, c2: real)
    requires c <= c2
    ensures Recent(Recent(log, c), c2) == Recent(log, c2)
  {
    if log != [] {
      RecentTwice(log[1..], c, c2);
      if log[0].at >= c { assert Recent(log, c)[1..] == Recent(log[1..], c); }
    }
  }

  lemma {:induction false} RecentFrom(log: seq<Sample>, cutoff: real, i: nat)
    requires i < |Recent(log, cutoff)|
    ensures exists j :: 0 <= j < |log| && log[j] == Recent(log, cutoff)[i] && log[j].at >= cutoff
  {
    var r := Recent(log, cutoff);
    if log[0].at >= cutoff && i == 0 {
    } else {
      var k := if log[0].at >= cutoff then i - 1 else i;
      RecentFrom(log[1..], cutoff, k);
      var j :| 0 <= j < |log[1..]| && log[1..][j] == Recent(log[1..], cutoff)[k] && log[1..][j].at >= cutoff;
      assert log[j + 1] == r[i];
    }
  }

  lemma {:induction false} RecentAre(log: seq<Sample>, cutoff: real, x: Sample)
    ensures x in Recent(log, cutoff) <==> x in log && x.at >= cutoff
  {
    if log != [] {
      RecentAre(log[1..], cutoff, x);
      assert x in log <==> x == log[0] || x in log[1..];
    }
  }

  lemma {:induction false} RecentOrdered(log: seq<Sample>, cutoff: real)
    requires InOrder(log)
    ensures InOrder(Recent(log, cutoff))
  {
    if log != [] {
      RecentOrdered(log[1..], cutoff);
      var r := Recent(log[1..], cutoff);
      forall i | 0 <= i < |r| ensures log[0].at <= r[i].at {
        RecentFrom(log[1..], cutoff, i);
      }
    }
  }

  /** Keeping a trimmed history is keeping the whole record and reading its window. */
  lemma TrimKeepsWindow(log: seq<Sample>, x: Sample, c: real, c2: real)
    requires InOrder(log + [x]) && c <= c2
    ensures Trim(Recent(log, c) + [x], c2) == Recent(log + [x], c2)
  {
    var h := Recent(log, c) + [x];
    assert InOrder(log) by {
      forall i, j | 0 <= i < j < |log| ensures log[i].at <= log[j].at {
        assert (log + [x])[i].at <= (log + [x])[j].at;
      }
    }
    RecentOrdered(log, c);
    forall i | 0 <= i < |Recent(log, c)| ensures Recent(log, c)[i].at <= x.at {
      RecentFrom(log, c, i);
      var j :| 0 <= j < |log| && log[j] == Recent(log, c)[i];
      assert (log + [x])[j].at <= (log + [x])[|log|].at;
    }
    TrimIsRecent(h, c2);
    RecentAppend(Recent(log, c), [x], c2);
    RecentTwice(log, c, c2);
    RecentAppend(log, [x], c2);
  }

  /** The largest demand in a history, or `least` if that is larger. */
  function Peak(h: seq<Sample>, least: int): int
  {
    if h == [] then least
    else
      var n := |h| - 1;
      var m := Peak(h[..n], least);
      if h[n].desired > m then h[n].desired else m
  }

  lemma {:induction false} PeakIsLargest(h: seq<Sample>, least: int)
    ensures Peak(h, least) >= least && forall i :: 0 <= i < |h| ==> h[i].desired <= Peak(h, least)
    ensures Peak(h, least) == least || exists i :: 0 <= i < |h| && h[i].desired == Peak(h, least)
  {
    if h != [] {
      var t := h[..|h| - 1];
      PeakIsLargest(t, least);
      assert forall i :: 0 <= i < |t| ==> t[i] == h[i];
    }
  }

  // -- one decision ------------------------------------------------------------------------------------

  /** `Decide`, given the history after this observation's demand was recorded and old ones cut. */
  function Conclude(h: seq<Sample>, raw: int, current: int): Decision
  {
    if raw >= current then Decision(raw, current, false)
    else
      var stabilized := Peak(h, raw);
      if stabilized >= current then Decision(current, current, true) else Decision(stabilized, current, false)
  }

  function Recorded(p: Policy, h: seq<Sample>, now: real, raw: int): seq<Sample>
  {
    Trim(h + [Sample(now, raw)], now - p.window)
  }

  /** The decision with no replica ready: hold an outage, or ask for the floor. */
  function NoneReady(p: Policy, l: Load): Decision
  {
    Decision(if l.registered > 0 then l.registered else p.min, l.ready, false)
  }

  function Decided(p: Policy, h: seq<Sample>, now: real, l: Load): (Decision, seq<Sample>)
    requires PolicyOK(p)
  {
    if l.ready <= 0 then (NoneReady(p, l), h)
    else
      var raw := Raw(p, l, l.ready);
      var h' := Recorded(p, h, now, raw);
      (Conclude(h', raw, l.ready), h')
  }

  ghost predicate HistoryOK(p: Policy, h: seq<Sample>)
  {
    forall i :: 0 <= i < |h| ==> p.min <= h[i].desired <= p.max
  }

  lemma {:induction false} TrimOK(p: Policy, h: seq<Sample>, cutoff: real)
    requires HistoryOK(p, h)
    ensures HistoryOK(p, Trim(h, cutoff))
  {
    if h != [] && h[0].at < cutoff { TrimOK(p, h[1..], cutoff); }
  }

  lemma {:induction false} TrimKeepsLast(h: seq<Sample>, cutoff: real)
    requires h != [] && h[|h| - 1].at >= cutoff
    ensures Trim(h, cutoff) != [] && Trim(h, cutoff)[|Trim(h, cutoff)| - 1] == h[|h| - 1]
  {
    if h[0].at < cutoff { TrimKeepsLast(h[1..], cutoff); }
  }

  /** With a ready replica every decision is in range, held ones too, and the history stays in range. */
  lemma DecisionInRange(p: Policy, h: seq<Sample>, now: real, l: Load)
    requires PolicyOK(p) && HistoryOK(p, h) && l.ready > 0
    ensures p.min <= Decided(p, h, now, l).0.desired <= p.max
    ensures HistoryOK(p, Decided(p, h, now, l).1)
  {
    var raw := Raw(p, l, l.ready);
    RawInRange(p, l, l.ready);
    TrimOK(p, h + [Sample(now, raw)], now - p.window);
    PeakIsLargest(Recorded(p, h, now, raw), raw);
  }

  /**
    A scale-down goes to the largest demand in the window, which this observation's is one of;
    it is held exactly when the window still holds a demand for the current count.
   */
  lemma ScaleDownTarget(p: Policy, h: seq<Sample>, now: real, l: Load)
    requires PolicyOK(p) && l.ready > 0 && Raw(p, l, l.ready) < l.ready
    ensures var (d, h') := Decided(p, h, now, l);
            && (d.held <==> exists i :: 0 <= i < |h'| && h'[i].desired >= l.ready)
            && (d.held ==> d.desired == l.ready)
            && (!d.held ==>
                  && d.desired < l.ready
                  && (d.desired == Raw(p, l, l.ready) || exists i :: 0 <= i < |h'| && h'[i].desired == d.desired)
                  && Raw(p, l, l.ready) <= d.desired
                  && forall i :: 0 <= i < |h'| ==> h'[i].desired <= d.desired)
            && (p.window >= 0.0 ==> h' != [] && h'[|h'| - 1] == Sample(now, Raw(p, l, l.ready)))
  {
    var raw := Raw(p, l, l.ready);
    var h' := Recorded(p, h, now, raw);
    if p.window >= 0.0 { TrimKeepsLast(h + [Sample(now, raw)], now - p.window); }
    PeakIsLargest(h', raw);
  }

  /**
    A decision with replicas ready, from everything recorded so far: a demand at or above the count
    is taken at once; a lower one is held while the window has a demand for the count, and otherwise
    the count comes down to the largest demand in the window.
   */
  ghost predicate Decides(p: Policy, log: seq<Sample>, now: real, current: int, raw: int, d: Decision)
  {
    && d.current == current
    && (raw >= current ==> d.desired == raw && !d.held)
    && (raw < current ==>
          && (d.held <==> exists x :: x in log && x.at >= now - p.window && x.desired >= current)
          && (d.held ==> d.desired == current)
          && (!d.held ==>
                && raw <= d.desired < current
                && (d.desired == raw || exists x :: x in log && x.at >= now - p.window && x.desired == d.desired)
                && forall x :: x in log && x.at >= now - p.window ==> x.desired <= d.desired))
  }

  lemma ConcludeDecides(p: Policy, log: seq<Sample>, now: real, current: int, raw: int)
    ensures Decides(p, log, now, current, raw, Conclude(Recent(log, now - p.window), raw, current))
  {
    var h := Recent(log, now - p.window);
    PeakIsLargest(h, raw);
    forall x ensures x in h <==> x in log && x.at >= now - p.window { RecentAre(log, now - p.window, x); }
    hide Recent, Peak;
    assert forall x :: x in h ==> exists i :: 0 <= i < |h| && h[i] == x;
    assert forall i :: 0 <= i < |h| ==> h[i] in h;
  }

  // -- runs under constant load ---------------------------------------------------------------------------

  /**
    The fleet once a decision is applied: that many replicas registered and ready. Holding an outage
    adds and removes none, so it leaves the fleet as unready as it was.
   */
  function Applied(l: Load, d: Decision): Load
  {
    if l.ready <= 0 < l.registered then l else l.(ready := d.desired, registered := d.desired)
  }

  /** The counts of a run in which every decision is applied before the next observation. */
  function Counts(p: Policy, h: seq<Sample>, l: Load, times: seq<real>): (r: seq<int>)
    requires PolicyOK(p)
    ensures |r| == |times| + 1 && r[0] == l.ready
    decreases |times|
  {
    if times == [] then [l.ready]
    else
      var (d, h') := Decided(p, h, times[0], l);
      [l.ready] + Counts(p, h', Applied(l, d), times[1..])
  }

  ghost predicate Falling(ns: seq<int>)
  {
    forall i, j :: 0 <= i < j < |ns| ==> ns[i] >= ns[j]
  }

  ghost predicate Rising(ns: seq<int>)
  {
    forall i, j :: 0 <= i < j < |ns| ==> ns[i] <= ns[j]
  }

  lemma FallStep(p: Policy, h: seq<Sample>, now: real, l: Load)
    requires PolicyOK(p) && l.ready > 0 && Raw(p, l, l.ready) <= l.ready
    ensures var d := Decided(p, h, now, l).0; 0 < d.desired <= l.ready && Raw(p, l, d.desired) <= d.desired
  {
    var raw := Raw(p, l, l.ready);
    RawInRange(p, l, l.ready);
    PeakIsLargest(Recorded(p, h, now, raw), raw);
    DemandFalls(p, l, l.ready, Decided(p, h, now, l).0.desired);
  }

  lemma ConsFalls(n: int, ns: seq<int>)
    requires ns != [] && n >= ns[0] && Falling(ns)
    ensures Falling([n] + ns)
  {
  }

  lemma ConsRises(n: int, ns: seq<int>)
    requires ns != [] && n <= ns[0] && Rising(ns)
    ensures Rising([n] + ns)
  {
  }

  lemma {:induction false} KeepsFalling(p: Policy, h: seq<Sample>, l: Load, times: seq<real>)
    requires PolicyOK(p) && l.ready > 0 && Raw(p, l, l.ready) <= l.ready
    ensures Falling(Counts(p, h, l, times))
    decreases |times|
  {
    hide InBand, Proportional, Ceil;
    if times != [] {
      FallStep(p, h, times[0], l);
      var (d, h') := Decided(p, h, times[0], l);
      var l' := Applied(l, d);
      KeepsFalling(p, h', l', times[1..]);
      ConsFalls(l.ready, Counts(p, h', l', times[1..]));
    }
  }

  lemma {:induction false} KeepsRising(p: Policy, h: seq<Sample>, l: Load, times: seq<real>)
    requires PolicyOK(p) && l.ready > 0 && Raw(p, l, l.ready) >= l.ready
    ensures Rising(Counts(p, h, l, times))
    decreases |times|
  {
    hide InBand, Proportional, Ceil;
    if times != [] {
      DemandRises(p, l, l.ready);
      var (d, h') := Decided(p, h, times[0], l);
      var l' := Applied(l, d);
      KeepsRising(p, h', l', times[1..]);
      ConsRises(l.ready, Counts(p, h', l', times[1..]));
    }
  }

  /** An outage is held for as long as it lasts. */
  lemma {:induction false} OutageHeld(p: Policy, h: seq<Sample>, l: Load, times: seq<real>)
    requires PolicyOK(p) && l.ready <= 0 < l.registered
    ensures forall i :: 0 <= i < |Counts(p, h, l, times)| ==> Counts(p, h, l, times)[i] == l.ready
    decreases |times|
  {
    if times != [] { OutageHeld(p, h, l, times[1..]); }
  }

  /** An empty registry asks for the floor and only rises from there. */
  lemma ColdStartRises(p: Policy, h: seq<Sample>, l: Load, times: seq<real>)
    requires PolicyOK(p) && l.ready <= 0 && l.registered <= 0
    ensures Rising(Counts(p, h, l, times))
  {
    if times != [] {
      var l' := l.(ready := p.min, registered := p.min);
      RawInRange(p, l', p.min);
      KeepsRising(p, h, l', times[1..]);
      ConsRises(l.ready, Counts(p, h, l', times[1..]));
    }
  }

  /**
    No oscillation: under a constant queue and KV load, with every decision applied before the
    next, the count moves in one direction only, from any fleet, any history and at any times.
   */
  lemma NeverReverses(p: Policy, h: seq<Sample>, l: Load, times: seq<real>)
    requires PolicyOK(p)
    ensures Rising(Counts(p, h, l, times)) || Falling(Counts(p, h, l, times))
  {
    if l.ready <= 0 {
      if l.registered > 0 { OutageHeld(p, h, l, times); } else { ColdStartRises(p, h, l, times); }
    } else if Raw(p, l, l.ready) >= l.ready {
      KeepsRising(p, h, l, times);
    } else {
      KeepsFalling(p, h, l, times);
    }
  }

  // -- the controller ---------------------------------------------------------------------------------------

  class Autoscaler {
    const policy: Policy
    var history: seq<Sample>
    /** Every demand ever recorded, and the time of the last observation. */
    ghost var log: seq<Sample>
    ghost var clock: real

    /** The history is the part of the record inside the window. */
    ghost predicate Valid()
      reads this
    {
      && PolicyOK(policy)
      && InOrder(log) && HistoryOK(policy, history)
      && (log != [] ==> log[|log| - 1].at <= clock)
      && exists cutoff :: cutoff <= clock - policy.window && history == Recent(log, cutoff)
    }

    constructor (policy: Policy, now: real)
      requires PolicyOK(policy)
      ensures Valid() && this.policy == policy && history == [] && log == [] && clock == now
    {
      this.policy := policy;
      history := [];
      log := [];
      clock := now;
      new;
      assert history == Recent(log, now - policy.window);
    }

    method TrimHistory(now: real)
      modifies this`history
      ensures history == Trim(old(history), now - policy.window)
    {
      var cutoff, i := now - policy.window, 0;
      while i < |history| && history[i].at < cutoff
        invariant 0 <= i <= |history|
        invariant Trim(history[i..], cutoff) == Trim(history, cutoff)
      {
        assert history[i..][1..] == history[i + 1..];
        i := i + 1;
      }
      history := history[i..];
    }

    method FindPeak(least: int) returns (m: int)
      ensures m == Peak(history, least)
    {
      m := least;
      var i := 0;
      while i < |history|
        invariant 0 <= i <= |history| && m == Peak(history[..i], least)
      {
        assert history[..i + 1][..i] == history[..i];
        if history[i].desired > m { m := history[i].desired; }
        i := i + 1;
      }
      assert history[..i] == history;
    }

    /** The demand: proportional outside the band, raised for KV pressure, clamped. */
    method ComputeRaw(l: Load) returns (raw: int)
      requires PolicyOK(policy) && l.ready > 0
      ensures raw == Raw(policy, l, l.ready)
    {
      hide Ratio, Proportional;
      raw := l.ready;
      if Abs(Ratio(policy, l.waiting, l.ready) - 1.0) > policy.tolerance {
        raw := Proportional(policy, l.waiting, l.ready);
      }
      if l.kv >= policy.kvHigh && raw <= l.ready {
        raw := l.ready + 1;
      }
      raw := Clamp(raw, policy.min, policy.max);
    }

    /** `Decide`: the decision is that of the specification on the window of the whole record. */
    method Decide(l: Load, now: real) returns (d: Decision)
      requires Valid() && now >= clock
      modifies this
      ensures Valid() && clock == now
      ensures l.ready <= 0 ==>
                && d == Decision(if l.registered > 0 then l.registered else policy.min, l.ready, false)
                && d == NoneReady(policy, l) && log == old(log) && history == old(history)
      ensures l.ready > 0 ==>
                var raw := Raw(policy, l, l.ready);
                && log == old(log) + [Sample(now, raw)]
                && history == Recent(log, now - policy.window)
                && Demanded(policy, l, raw) && Decides(policy, log, now, l.ready, raw, d)
                && (d, history) == Decided(policy, old(history), now, l)
                && d == Conclude(Recent(log, now - policy.window), raw, l.ready)
                && policy.min <= d.desired <= policy.max
    {
      hide Raw, Recent, Trim, InOrder, HistoryOK, Demanded, Decides;
      clock := now;
      if l.ready <= 0 {
        return Decision(if l.registered > 0 then l.registered else policy.min, l.ready, false);
      }
      var raw := ComputeRaw(l);
      ghost var cutoff :| cutoff <= old(clock) - policy.window && old(history) == Recent(old(log), cutoff);
      RecordOrdered(log, old(clock), now, raw);
      TrimKeepsWindow(log, Sample(now, raw), cutoff, now - policy.window);
      DecisionInRange(policy, history, now, l);
      RawDemanded(policy, l);
      ConcludeDecides(policy, log + [Sample(now, raw)], now, l.ready, raw);
      history := history + [Sample(now, raw)];
      log := log + [Sample(now, raw)];
      TrimHistory(now);
      if raw >= l.ready {
        return Decision(raw, l.ready, false);
      }
      var stabilized := FindPeak(raw);
      if stabilized >= l.ready {
        return Decision(l.ready, l.ready, true);
      }
      return Decision(stabilized, l.ready, false);
    }
  }

  lemma RecordOrdered(log: seq<Sample>, clock: real, now: real, raw: int)
    requires InOrder(log) && (log != [] ==> log[|log| - 1].at <= clock) && clock <= now
    ensures InOrder(log + [Sample(now, raw)])
  {
    if log != [] { assert forall i :: 0 <= i < |log| ==> log[i].at <= log[|log| - 1].at; }
  }
}
