/**
  Consistent hashing with bounded loads (router/ring.go), on values: the clockwise walk, the
  load cap and the pigeonhole argument, and how the walk behaves when the ring changes.
  The hash function is arbitrary; epsilon is a real number or unbounded.
 */
module Hashing {
  import opened Wrappers
  import opened Arith

  type Id = string

  datatype Replica = Replica(addr: string, load: nat, ready: bool)

  datatype Point = Point(hash: nat, id: Id)

  type Replicas = map<Id, Replica>

  datatype Epsilon = Finite(value: real) | Unbounded

  const MaxInt32: nat := 0x7fff_ffff

  // -- the cap ---------------------------------------------------------------------

  lemma MulLess(x: real, y: real, b: real)
    requires b > 0.0
    ensures x <= y ==> x * b <= y * b
    ensures x < y ==> x * b < y * b
  {
    if x < y { assert (y - x) * b > 0.0; }
  }

  lemma DivTimes(a: real, b: real)
    requires b > 0.0
    ensures a / b * b == a
  {
  }

  lemma DivMono(a: real, a': real, b: real)
    requires a <= a' && b > 0.0
    ensures a / b <= a' / b
  {
    DivTimes(a, b);
    DivTimes(a', b);
    MulLess(a' / b, a / b, b);
  }

  /** `c * total`, with `c = 1 + epsilon`. */
  function Demand(total: nat, eps: Epsilon): (r: real)
    requires eps.Finite? && eps.value >= 0.0
    ensures r >= total as real
  {
    var t := total as real;
    assert eps.value * t >= 0.0;
    (1.0 + eps.value) * t
  }

  lemma DemandMono(total: nat, total': nat, eps: Epsilon)
    requires total <= total' && eps.Finite? && eps.value >= 0.0
    ensures Demand(total, eps) <= Demand(total', eps)
  {
    var d := (total' - total) as real;
    assert d == (total' as real) - (total as real);
    assert (1.0 + eps.value) * d >= 0.0;
  }

  /** `loadCap`. */
  function LoadCap(total: nat, n: nat, eps: Epsilon): nat
    requires eps.Finite? ==> eps.value >= 0.0
  {
    if n == 0 then 0
    else if eps.Unbounded? then MaxInt32
    else
      var limit := Ceil(Demand(total, eps) / (n as real));
      if limit < 1 then 1 else limit
  }

  function ReadyIds(m: Replicas): set<Id>
  {
    set id | id in m && m[id].ready
  }

  /** Total load of a set of replicas; the order of summation does not matter. */
  ghost function Sum(m: Replicas, ids: set<Id>): nat
    requires ids <= m.Keys
  {
    if ids == {} then 0 else var x :| x in ids; m[x].load + Sum(m, ids - {x})
  }

  lemma {:induction false} SumPick(m: Replicas, ids: set<Id>, y: Id)
    requires ids <= m.Keys && y in ids
    ensures Sum(m, ids) == m[y].load + Sum(m, ids - {y})
    decreases |ids|
  {
    var x :| x in ids && Sum(m, ids) == m[x].load + Sum(m, ids - {x});
    if x != y {
      SumPick(m, ids - {x}, y);
      SumPick(m, ids - {y}, x);
      assert ids - {x} - {y} == ids - {y} - {x};
    }
  }

  lemma {:induction false} SumSame(m: Replicas, m': Replicas, ids: set<Id>)
    requires ids <= m.Keys && ids <= m'.Keys && forall x :: x in ids ==> m'[x].load == m[x].load
    ensures Sum(m', ids) == Sum(m, ids)
    decreases |ids|
  {
    if ids != {} {
      var x :| x in ids;
      SumPick(m, ids, x);
      SumPick(m', ids, x);
      SumSame(m, m', ids - {x});
    }
  }

  lemma MulSucc(n: nat, l: nat)
    ensures (n + 1) * l == n * l + l
  {
  }

  lemma {:induction false} SumAtLeast(m: Replicas, ids: set<Id>, l: nat)
    requires ids <= m.Keys && forall x :: x in ids ==> m[x].load >= l
    ensures Sum(m, ids) >= |ids| * l
    decreases |ids|
  {
    if ids != {} {
      var x :| x in ids;
      SumPick(m, ids, x);
      SumAtLeast(m, ids - {x}, l);
      MulSucc(|ids| - 1, l);
    }
  }

  /** `n * ceil(c * m / n) >= m` for every `c >= 1`. */
  lemma CapCovers(total: nat, n: nat, eps: Epsilon)
    requires n > 0 && eps.Finite? && eps.value >= 0.0
    ensures n * LoadCap(total, n, eps) >= total
  {
    var d, l := Demand(total, eps), LoadCap(total, n, eps);
    hide Demand;
    DivTimes(d, n as real);
    MulLess(d / (n as real), l as real, n as real);
    assert (l as real) * (n as real) == (l * n) as real;
  }

  lemma CapMono(total: nat, total': nat, n: nat, eps: Epsilon)
    requires total <= total' && (eps.Finite? ==> eps.value >= 0.0)
    ensures LoadCap(total, n, eps) <= LoadCap(total', n, eps)
  {
    if n > 0 && eps.Finite? {
      DemandMono(total, total', eps);
      hide Demand;
      DivMono(Demand(total, eps), Demand(total', eps), n as real);
    }
  }

  /** The cap is the least whole number from 1 on whose `n`-fold covers `1 + epsilon` times the total. */
  lemma CapIsLeast(total: nat, n: nat, eps: Epsilon, k: nat)
    requires n > 0 && eps.Finite? && eps.value >= 0.0
    ensures LoadCap(total, n, eps) >= 1
    ensures k >= 1 ==> (LoadCap(total, n, eps) <= k <==> (k * n) as real >= (1.0 + eps.value) * (total as real))
  {
    var d, m := Demand(total, eps), n as real;
    assert d == (1.0 + eps.value) * (total as real);
    hide Demand;
    QuotientIff(d, m, k as real);
    CeilLeast(d / m, k);
    RealTimes(k, n);
  }

  lemma QuotientIff(d: real, m: real, k: real)
    requires m > 0.0
    ensures d / m <= k <==> d <= k * m
  {
    DivTimes(d, m);
    MulLess(d / m, k, m);
    MulLess(k, d / m, m);
  }

  lemma RealTimes(k: nat, n: nat)
    ensures (k as real) * (n as real) == (k * n) as real
  {
  }

  lemma CeilLeast(q: real, k: int)
    ensures Ceil(q) <= k <==> q <= k as real
  {
  }

  /**
    The pigeonhole: for every finite epsilon >= 0 some ready replica is under the cap that
    placing one more request would impose.
   */
  lemma SomeoneUnderCap(m: Replicas, eps: Epsilon) returns (id: Id)
    requires ReadyIds(m) != {} && eps.Finite? && eps.value >= 0.0
    ensures id in ReadyIds(m)
    ensures m[id].load < LoadCap(Sum(m, ReadyIds(m)) + 1, |ReadyIds(m)|, eps)
    ensures m[id].load > 0 ==>
              (m[id].load * |ReadyIds(m)|) as real < (1.0 + eps.value) * ((Sum(m, ReadyIds(m)) + 1) as real)
  {
    var ids := ReadyIds(m);
    var n, l := |ids|, LoadCap(Sum(m, ids) + 1, |ids|, eps);
    assert n > 0;
    if forall x :: x in ids ==> m[x].load >= l {
      SumAtLeast(m, ids, l);
      CapCovers(Sum(m, ids) + 1, n, eps);
      assert false;
    }
    id :| id in ids && m[id].load < l;
    CapIsLeast(Sum(m, ids) + 1, n, eps, m[id].load);
  }

  // -- the clockwise walk --------------------------------------------------------------

  ghost predicate Sorted(ps: seq<Point>)
  {
    forall i, j :: 0 <= i < j < |ps| ==> ps[i].hash <= ps[j].hash
  }

  /** The points of which `f` holds, in order. */
  function Keep(ps: seq<Point>, f: Point -> bool): seq<Point>
  {
    if ps == [] then [] else if f(ps[0]) then [ps[0]] + Keep(ps[1..], f) else Keep(ps[1..], f)
  }

  function From(h: nat): Point -> bool { (p: Point) => p.hash >= h }

  function Until(h: nat): Point -> bool { (p: Point) => p.hash < h }

  function Not(id: Id): Point -> bool { (p: Point) => p.id != id }

  /** The order in which a key at `h` meets the ring's points: onwards, then around. */
  function Walk(ps: seq<Point>, h: nat): seq<Point>
  {
    Keep(ps, From(h)) + Keep(ps, Until(h))
  }

  /** `search`: the first point at or after `h`, wrapping to 0. */
  ghost predicate Start(ps: seq<Point>, h: nat, i: nat)
  {
    && i < |ps|
    && (forall j :: 0 <= j < i ==> ps[j].hash < h)
    && (ps[i].hash >= h || (i == 0 && forall j :: 0 <= j < |ps| ==> ps[j].hash < h))
  }

  function Rotated(ps: seq<Point>, i: nat): (r: seq<Point>)
    requires i <= |ps|
    ensures |r| == |ps|
  {
    ps[i..] + ps[..i]
  }

  lemma {:induction false} KeepAll(ps: seq<Point>, f: Point -> bool)
    requires forall j :: 0 <= j < |ps| ==> f(ps[j])
    ensures Keep(ps, f) == ps
  {
    if ps != [] { KeepAll(ps[1..], f); }
  }

  lemma {:induction false} KeepNone(ps: seq<Point>, f: Point -> bool)
    requires forall j :: 0 <= j < |ps| ==> !f(ps[j])
    ensures Keep(ps, f) == []
  {
    if ps != [] { KeepNone(ps[1..], f); }
  }

  lemma {:induction false} KeepConcat(a: seq<Point>, b: seq<Point>, f: Point -> bool)
    ensures Keep(a + b, f) == Keep(a, f) + Keep(b, f)
  {
    if a == [] {
      assert a + b == b;
    } else {
      var rest, r, t := a[1..], Keep(a[1..], f), Keep(b, f);
      KeepConcat(rest, b, f);
      assert (a + b)[1..] == rest + b && (a + b)[0] == a[0];
      assert [a[0]] + (r + t) == [a[0]] + r + t;
    }
  }

  lemma {:induction false} KeepKeep(ps: seq<Point>, f: Point -> bool, g: Point -> bool)
    ensures Keep(Keep(ps, f), g) == Keep(Keep(ps, g), f)
  {
    if ps != [] {
      KeepKeep(ps[1..], f, g);
      if f(ps[0]) { assert Keep(ps, f)[1..] == Keep(ps[1..], f); }
      if g(ps[0]) { assert Keep(ps, g)[1..] == Keep(ps[1..], g); }
    }
  }

  lemma WalkSplit(a: seq<Point>, b: seq<Point>, h: nat)
    requires (forall j :: 0 <= j < |a| ==> a[j].hash < h) && forall j :: 0 <= j < |b| ==> b[j].hash >= h
    ensures Walk(a + b, h) == b + a
  {
    KeepConcat(a, b, From(h));
    KeepConcat(a, b, Until(h));
    KeepAll(a, Until(h));
    KeepNone(a, From(h));
    KeepAll(b, From(h));
    KeepNone(b, Until(h));
  }

  /** On a sorted ring, walking from `search`'s index with wrap-around is the walk. */
  lemma RotatedIsWalk(ps: seq<Point>, h: nat, i: nat)
    requires Sorted(ps) && Start(ps, h, i)
    ensures Rotated(ps, i) == Walk(ps, h)
  {
    if ps[i].hash >= h {
      assert ps == ps[..i] + ps[i..];
      WalkSplit(ps[..i], ps[i..], h);
    } else {
      KeepAll(ps, Until(h));
      KeepNone(ps, From(h));
    }
  }

  function Without(ps: seq<Point>, id: Id): seq<Point>
  {
    Keep(ps, Not(id))
  }

  lemma WithoutSnoc(ps: seq<Point>, i: nat, id: Id)
    requires i < |ps|
    ensures Without(ps[..i + 1], id) == Without(ps[..i], id) + if ps[i].id != id then [ps[i]] else []
  {
    KeepConcat(ps[..i], [ps[i]], Not(id));
    assert ps[..i + 1] == ps[..i] + [ps[i]];
  }

  /** The walk commutes with taking a replica's points off the ring. */
  lemma WalkWithout(ps: seq<Point>, id: Id, h: nat)
    ensures Walk(Without(ps, id), h) == Without(Walk(ps, h), id)
  {
    KeepKeep(ps, Not(id), From(h));
    KeepKeep(ps, Not(id), Until(h));
    KeepConcat(Keep(ps, From(h)), Keep(ps, Until(h)), Not(id));
  }

  // -- who serves a key --------------------------------------------------------------------

  /** The first replica of `good` the walk meets. */
  function Owner(walk: seq<Point>, good: set<Id>): Option<Id>
  {
    if walk == [] then None else if walk[0].id in good then Some(walk[0].id) else Owner(walk[1..], good)
  }

  lemma {:induction false} OwnerIs(walk: seq<Point>, good: set<Id>, i: nat)
    requires i <= |walk| && forall j :: 0 <= j < i ==> walk[j].id !in good
    ensures i == |walk| ==> Owner(walk, good) == None
    ensures i < |walk| && walk[i].id in good ==> Owner(walk, good) == Some(walk[i].id)
  {
    if i > 0 { OwnerIs(walk[1..], good, i - 1); }
  }

  lemma {:induction false} OwnerExists(walk: seq<Point>, good: set<Id>, i: nat)
    requires i < |walk| && walk[i].id in good
    ensures Owner(walk, good).Some? && Owner(walk, good).value in good
  {
    if walk[0].id !in good { OwnerExists(walk[1..], good, i - 1); }
  }

  /** Taking points off is the same as not accepting their replica. */
  lemma {:induction false} OwnerWithout(walk: seq<Point>, id: Id, good: set<Id>)
    ensures Owner(Without(walk, id), good - {id}) == Owner(walk, good - {id})
  {
    if walk != [] {
      OwnerWithout(walk[1..], id, good);
      if walk[0].id != id { assert Without(walk, id)[1..] == Without(walk[1..], id); }
    }
  }

  lemma {:induction false} OwnerLess(walk: seq<Point>, id: Id, good: set<Id>)
    requires Owner(walk, good) != Some(id)
    ensures Owner(walk, good - {id}) == Owner(walk, good)
  {
    if walk != [] && walk[0].id !in good { OwnerLess(walk[1..], id, good); }
  }

  /** The replicas a pick may choose in its walk. */
  function Under(m: Replicas, limit: nat, exclude: set<Id>): set<Id>
  {
    set id | id in m && m[id].ready && id !in exclude && m[id].load < limit
  }

  /** Which replica an unbounded ring gives a key. */
  ghost function Served(m: Replicas, ps: seq<Point>, h: nat): Option<Id>
  {
    Owner(Walk(ps, h), Under(m, MaxInt32, {}))
  }

  /** With no bound, a pick that succeeds below the integer ceiling is the key's server. */
  lemma UnboundedPicksServed(m: Replicas, ps: seq<Point>, h: nat, r: Option<Id>)
    requires Picks(m, ps, h, {}, Unbounded, r) && Served(m, ps, h).Some?
    ensures r == Served(m, ps, h)
  {
    OwnerSound(Walk(ps, h), Under(m, MaxInt32, {}));
    assert Served(m, ps, h).value in ReadyIds(m);
  }

  /** Removing a replica moves only the keys it served. */
  lemma RemoveMovesOwn(m: Replicas, ps: seq<Point>, h: nat, id: Id)
    requires Served(m, ps, h) != Some(id)
    ensures Served(m - {id}, Without(ps, id), h) == Served(m, ps, h)
  {
    var good := Under(m, MaxInt32, {});
    WalkWithout(ps, id, h);
    OwnerWithout(Walk(ps, h), id, good);
    OwnerLess(Walk(ps, h), id, good);
    assert Under(m - {id}, MaxInt32, {}) == good - {id};
  }

  /** Marking a replica unready moves only the keys it served, though its points stay. */
  lemma UnreadyMovesOwn(m: Replicas, ps: seq<Point>, h: nat, id: Id)
    requires id in m && Served(m, ps, h) != Some(id)
    ensures Served(m[id := m[id].(ready := false)], ps, h) == Served(m, ps, h)
  {
    var good := Under(m, MaxInt32, {});
    OwnerLess(Walk(ps, h), id, good);
    assert Under(m[id := m[id].(ready := false)], MaxInt32, {}) == good - {id};
  }

  // -- one pick ------------------------------------------------------------------------------------

  ghost function Limit(m: Replicas, eps: Epsilon): nat
    requires eps.Finite? ==> eps.value >= 0.0
  {
    LoadCap(Sum(m, ReadyIds(m)) + 1, |ReadyIds(m)|, eps)
  }

  /** Every point belongs to a replica and every replica has a point. */
  ghost predicate OnRing(m: Replicas, ps: seq<Point>)
  {
    && (forall p :: p in ps ==> p.id in m)
    && (forall id :: id in m ==> exists p :: p in ps && p.id == id)
  }

  ghost predicate LeastLoaded(m: Replicas, id: Id, among: set<Id>)
    requires among <= m.Keys
  {
    id in among && forall x :: x in among ==> m[id].load <= m[x].load
  }

  /** What a pick may answer: the walk's owner under the cap, else a least loaded candidate. */
  ghost predicate Picks(m: Replicas, ps: seq<Point>, h: nat, exclude: set<Id>, eps: Epsilon, r: Option<Id>)
    requires eps.Finite? ==> eps.value >= 0.0
  {
    var owner := Owner(Walk(ps, h), Under(m, Limit(m, eps), exclude));
    if owner.Some? then r == owner
    else if r.Some? then LeastLoaded(m, r.value, ReadyIds(m) - exclude)
    else ReadyIds(m) - exclude == {}
  }

  lemma {:induction false} OwnerSound(walk: seq<Point>, good: set<Id>)
    ensures Owner(walk, good).Some? ==> Owner(walk, good).value in good
  {
    if walk != [] { OwnerSound(walk[1..], good); }
  }

  lemma KeepIn(ps: seq<Point>, f: Point -> bool, p: Point)
    requires p in ps && f(p)
    ensures p in Keep(ps, f)
  {
  }

  /** The walk visits every point. */
  lemma WalkIn(ps: seq<Point>, h: nat, p: Point)
    requires p in ps
    ensures p in Walk(ps, h)
  {
    if p.hash >= h { KeepIn(ps, From(h), p); } else { KeepIn(ps, Until(h), p); }
  }

  lemma NothingToPick(m: Replicas, ps: seq<Point>, h: nat, exclude: set<Id>, eps: Epsilon)
    requires (eps.Finite? ==> eps.value >= 0.0) && ReadyIds(m) == {}
    ensures Picks(m, ps, h, exclude, eps, None)
  {
    OwnerSound(Walk(ps, h), Under(m, Limit(m, eps), exclude));
  }

  /** A pick fails exactly when no ready replica is left to try. */
  lemma PickFailsIff(m: Replicas, ps: seq<Point>, h: nat, exclude: set<Id>, eps: Epsilon, r: Option<Id>)
    requires (eps.Finite? ==> eps.value >= 0.0) && Picks(m, ps, h, exclude, eps, r)
    ensures r.None? <==> ReadyIds(m) - exclude == {}
    ensures r.Some? ==> r.value in ReadyIds(m) - exclude && r.value in m
  {
    OwnerSound(Walk(ps, h), Under(m, Limit(m, eps), exclude));
    assert r.Some? ==> r.value in ReadyIds(m) - exclude;
  }

  /** With no exclusions and a finite epsilon the walk itself always finds a replica under the cap. */
  lemma WalkSuffices(m: Replicas, ps: seq<Point>, h: nat, eps: Epsilon)
    requires ReadyIds(m) != {} && OnRing(m, ps) && eps.Finite? && eps.value >= 0.0
    ensures Owner(Walk(ps, h), Under(m, Limit(m, eps), {})).Some?
  {
    var id := SomeoneUnderCap(m, eps);
    var p :| p in ps && p.id == id;
    WalkIn(ps, h, p);
    var i :| 0 <= i < |Walk(ps, h)| && Walk(ps, h)[i] == p;
    OwnerExists(Walk(ps, h), Under(m, Limit(m, eps), {}), i);
  }

  function Loaded(m: Replicas, id: Id): Replicas
    requires id in m
  {
    m[id := m[id].(load := m[id].load + 1)]
  }

  /** No ready replica is above the cap of the current load. */
  ghost predicate Capped(m: Replicas, eps: Epsilon)
    requires eps.Finite? ==> eps.value >= 0.0
  {
    forall id :: id in ReadyIds(m) ==> m[id].load <= LoadCap(Sum(m, ReadyIds(m)), |ReadyIds(m)|, eps)
  }

  /** Placing a request raises the total by one and keeps every load within the cap. */
  lemma PickCapped(m: Replicas, ps: seq<Point>, h: nat, eps: Epsilon, id: Id)
    requires ReadyIds(m) != {} && OnRing(m, ps) && eps.Finite? && eps.value >= 0.0
    requires Capped(m, eps) && Picks(m, ps, h, {}, eps, Some(id))
    ensures id in m && Capped(Loaded(m, id), eps)
  {
    PickUnder(m, ps, h, eps, id);
    LoadedSum(m, id);
    var ids := ReadyIds(m);
    hide LoadCap, ReadyIds, Sum;
    CapMono(Sum(m, ids), Sum(m, ids) + 1, |ids|, eps);
  }

  lemma PickUnder(m: Replicas, ps: seq<Point>, h: nat, eps: Epsilon, id: Id)
    requires ReadyIds(m) != {} && OnRing(m, ps) && eps.Finite? && eps.value >= 0.0
    requires Picks(m, ps, h, {}, eps, Some(id))
    ensures id in ReadyIds(m) && m[id].load < Limit(m, eps)
  {
    WalkSuffices(m, ps, h, eps);
    OwnerSound(Walk(ps, h), Under(m, Limit(m, eps), {}));
  }

  lemma LoadedSum(m: Replicas, id: Id)
    requires id in ReadyIds(m)
    ensures ReadyIds(Loaded(m, id)) == ReadyIds(m)
    ensures Sum(Loaded(m, id), ReadyIds(m)) == Sum(m, ReadyIds(m)) + 1
  {
    var m', ids := Loaded(m, id), ReadyIds(m);
    SumPick(m, ids, id);
    SumPick(m', ids, id);
    SumSame(m, m', ids - {id});
  }

  lemma LoadedSame(m: Replicas, id: Id, ps: seq<Point>)
    requires id in m
    ensures ReadyIds(Loaded(m, id)) == ReadyIds(m)
    ensures OnRing(m, ps) ==> OnRing(Loaded(m, id), ps)
  {
  }

  /** A run of picks: `ms[i + 1]` is `ms[i]` with the i-th pick's replica loaded. */
  ghost predicate PickRun(ms: seq<Replicas>, hs: seq<nat>, ps: seq<Point>, eps: Epsilon)
    requires eps.Finite? ==> eps.value >= 0.0
  {
    && |ms| == |hs| + 1
    && forall i :: 0 <= i < |hs| ==> PickStep(ms[i], ms[i + 1], hs[i], ps, eps)
  }

  ghost predicate PickStep(m: Replicas, m': Replicas, h: nat, ps: seq<Point>, eps: Epsilon)
    requires eps.Finite? ==> eps.value >= 0.0
  {
    exists id :: id in m && Picks(m, ps, h, {}, eps, Some(id)) && m' == Loaded(m, id)
  }

  /** Over a run of picks with readiness fixed no load ever exceeds the cap. */
  lemma {:induction false} PicksStayCapped(ms: seq<Replicas>, hs: seq<nat>, ps: seq<Point>, eps: Epsilon, i: nat)
    requires eps.Finite? && eps.value >= 0.0 && PickRun(ms, hs, ps, eps) && i < |ms|
    requires ReadyIds(ms[0]) != {} && OnRing(ms[0], ps) && Capped(ms[0], eps)
    ensures ReadyIds(ms[i]) == ReadyIds(ms[0]) && OnRing(ms[i], ps) && Capped(ms[i], eps) && Bounded(ms[i], eps)
  {
    CappedIffBounded(ms[i], eps);
    hide Bounded;
    if i > 0 {
      var m, h := ms[i - 1], hs[i - 1];
      PicksStayCapped(ms, hs, ps, eps, i - 1);
      assert PickStep(m, ms[i], h, ps, eps);
      hide Picks, Capped, OnRing, ReadyIds, PickRun;
      var id :| id in m && Picks(m, ps, h, {}, eps, Some(id)) && ms[i] == Loaded(m, id);
      PickCapped(m, ps, h, eps, id);
      LoadedSame(m, id, ps);
    }
  }

  /** With more than one request, less than one above `1 + epsilon` times the mean of `total` over `n`. */
  predicate NearMean(load: nat, n: nat, eps: real, total: nat)
  {
    load > 1 ==> ((load - 1) * n) as real < (1.0 + eps) * (total as real)
  }

  ghost predicate Bounded(m: Replicas, eps: Epsilon)
    requires eps.Finite?
  {
    var ready := set x | x in m && m[x].ready;
    forall id :: id in ready ==> NearMean(m[id].load, |ready|, eps.value, Sum(m, ready))
  }

  lemma CapIff(load: nat, n: nat, eps: Epsilon, total: nat)
    requires n > 0 && eps.Finite? && eps.value >= 0.0
    ensures load <= LoadCap(total, n, eps) <==> NearMean(load, n, eps.value, total)
  {
    CapIsLeast(total, n, eps, if load > 1 then load - 1 else 1);
  }

  lemma CappedIffBounded(m: Replicas, eps: Epsilon)
    requires eps.Finite? && eps.value >= 0.0
    ensures Capped(m, eps) <==> Bounded(m, eps)
  {
    var ready := ReadyIds(m);
    assert ready == (set x | x in m && m[x].ready);
    hide LoadCap, Sum, ReadyIds, NearMean;
    forall id | id in ready
      ensures m[id].load <= LoadCap(Sum(m, ready), |ready|, eps) <==>
              NearMean(m[id].load, |ready|, eps.value, Sum(m, ready))
    {
      assert |ready| > 0;
      CapIff(m[id].load, |ready|, eps, Sum(m, ready));
    }
  }

  /** The bound itself holds over every run of picks with readiness fixed. */
  lemma LoadsBounded(ms: seq<Replicas>, hs: seq<nat>, ps: seq<Point>, eps: Epsilon, i: nat)
    requires eps.Finite? && eps.value >= 0.0 && PickRun(ms, hs, ps, eps) && i < |ms|
    requires ReadyIds(ms[0]) != {} && OnRing(ms[0], ps) && Bounded(ms[0], eps)
    ensures Bounded(ms[i], eps)
  {
    hide *;
    CappedIffBounded(ms[0], eps);
    PicksStayCapped(ms, hs, ps, eps, i);
    CappedIffBounded(ms[i], eps);
  }

  // -- which replica a pick is -------------------------------------------------------------------

  /** Ready, not excluded, and still below the bound with this request counted in. */
  ghost predicate Eligible(m: Replicas, exclude: set<Id>, eps: Epsilon, id: Id)
  {
    var ready := set x | x in m && m[x].ready;
    && id in m && m[id].ready && id !in exclude
    && (eps.Unbounded? ==> m[id].load < 0x7fff_ffff)
    && (eps.Finite? ==>
          || m[id].load == 0
          || (m[id].load * |ready|) as real < (1.0 + eps.value) * ((Sum(m, ready) + 1) as real))
  }

  /** Going clockwise from `h`, `p` comes no later than `q`. */
  predicate Before(p: Point, q: Point, h: nat)
  {
    (p.hash >= h && q.hash < h) || ((p.hash >= h <==> q.hash >= h) && p.hash <= q.hash)
  }

  /**
    The pick, said outright: the first eligible replica clockwise from the key, if one has a point
    on the ring; else a ready replica that is not excluded and has the least load, if there is one.
   */
  ghost predicate Chosen(m: Replicas, ps: seq<Point>, h: nat, exclude: set<Id>, eps: Epsilon, r: Option<Id>)
  {
    if exists p :: p in ps && Eligible(m, exclude, eps, p.id) then
      r.Some? && exists p :: p in ps && p.id == r.value && Eligible(m, exclude, eps, p.id)
                        && forall q :: q in ps && Eligible(m, exclude, eps, q.id) ==> Before(p, q, h)
    else if r.Some? then
      && r.value in m && m[r.value].ready && r.value !in exclude
      && forall x :: x in m && m[x].ready && x !in exclude ==> m[r.value].load <= m[x].load
    else forall x :: x in m && m[x].ready ==> x in exclude
  }

  lemma UnderIff(m: Replicas, exclude: set<Id>, eps: Epsilon, id: Id)
    requires eps.Finite? ==> eps.value >= 0.0
    ensures id in Under(m, Limit(m, eps), exclude) <==> Eligible(m, exclude, eps, id)
  {
    if id in ReadyIds(m) && eps.Finite? {
      assert |ReadyIds(m)| > 0;
      hide LoadCap, Sum;
      CapIsLeast(Sum(m, ReadyIds(m)) + 1, |ReadyIds(m)|, eps, m[id].load);
    }
  }

  lemma {:induction false} KeepAre(ps: seq<Point>, f: Point -> bool, p: Point)
    ensures p in Keep(ps, f) <==> p in ps && f(p)
  {
    if ps != [] {
      KeepAre(ps[1..], f, p);
      assert p in ps <==> p == ps[0] || p in ps[1..];
    }
  }

  lemma SortedPoint(x: Point, q: seq<Point>)
    requires Sorted(q) && forall p :: p in q ==> x.hash <= p.hash
    ensures Sorted([x] + q)
  {
    assert q != [] ==> q[0] in q;
    SortedCons(x, q);
  }

  lemma {:induction false} KeepSorted(ps: seq<Point>, f: Point -> bool)
    requires Sorted(ps)
    ensures Sorted(Keep(ps, f))
  {
    if ps != [] {
      var rest := ps[1..];
      KeepSorted(rest, f);
      assert forall i :: 0 <= i < |rest| ==> rest[i] == ps[i + 1] && ps[0].hash <= rest[i].hash;
      hide Sorted;
      forall p | p in Keep(rest, f) ensures ps[0].hash <= p.hash { KeepAre(rest, f, p); }
      SortedPoint(ps[0], Keep(rest, f));
    }
  }

  lemma WalkOrdered(ps: seq<Point>, h: nat, i: nat, j: nat)
    requires Sorted(ps) && i <= j < |Walk(ps, h)|
    ensures Walk(ps, h)[i] in ps && Before(Walk(ps, h)[i], Walk(ps, h)[j], h)
  {
    var a, b := Keep(ps, From(h)), Keep(ps, Until(h));
    KeepSorted(ps, From(h));
    KeepSorted(ps, Until(h));
    hide Keep;
    var p, q := Walk(ps, h)[i], Walk(ps, h)[j];
    assert if i < |a| then p == a[i] && p in a else p == b[i - |a|] && p in b;
    assert if j < |a| then q == a[j] && q in a else q == b[j - |a|] && q in b;
    KeepAre(ps, From(h), p);
    KeepAre(ps, Until(h), p);
    KeepAre(ps, From(h), q);
    KeepAre(ps, Until(h), q);
  }

  lemma {:induction false} OwnerFirst(walk: seq<Point>, good: set<Id>) returns (i: nat)
    requires Owner(walk, good).Some?
    ensures i < |walk| && walk[i].id == Owner(walk, good).value && walk[i].id in good
    ensures forall j :: 0 <= j < i ==> walk[j].id !in good
  {
    if walk[0].id in good {
      i := 0;
    } else {
      var k := OwnerFirst(walk[1..], good);
      i := k + 1;
    }
  }

  lemma {:induction false} OwnerNone(walk: seq<Point>, good: set<Id>, i: nat)
    requires Owner(walk, good).None? && i < |walk|
    ensures walk[i].id !in good
  {
    if i > 0 { OwnerNone(walk[1..], good, i - 1); }
  }

  lemma PickChosen(m: Replicas, ps: seq<Point>, h: nat, exclude: set<Id>, eps: Epsilon, r: Option<Id>)
    requires (eps.Finite? ==> eps.value >= 0.0) && Sorted(ps) && Picks(m, ps, h, exclude, eps, r)
    ensures Chosen(m, ps, h, exclude, eps, r)
  {
    var walk, good := Walk(ps, h), Under(m, Limit(m, eps), exclude);
    forall id ensures id in good <==> Eligible(m, exclude, eps, id) { UnderIff(m, exclude, eps, id); }
    hide Eligible, Limit, Under, Walk;
    if Owner(walk, good).Some? {
      var i := OwnerFirst(walk, good);
      WalkOrdered(ps, h, i, i);
      forall q | q in ps && q.id in good ensures Before(walk[i], q, h) {
        WalkIn(ps, h, q);
        var j :| 0 <= j < |walk| && walk[j] == q;
        WalkOrdered(ps, h, i, j);
      }
    } else {
      forall p | p in ps ensures p.id !in good {
        WalkIn(ps, h, p);
        var j :| 0 <= j < |walk| && walk[j] == p;
        OwnerNone(walk, good, j);
      }
      LeastMeans(m, exclude, r);
    }
  }

  lemma LeastMeans(m: Replicas, exclude: set<Id>, r: Option<Id>)
    requires if r.Some? then LeastLoaded(m, r.value, ReadyIds(m) - exclude) else ReadyIds(m) - exclude == {}
    ensures r.Some? ==>
              && r.value in m && m[r.value].ready && r.value !in exclude
              && forall x :: x in m && m[x].ready && x !in exclude ==> m[r.value].load <= m[x].load
    ensures r.None? ==> forall x :: x in m && m[x].ready ==> x in exclude
  {
    assert forall x :: x in ReadyIds(m) - exclude <==> x in m && m[x].ready && x !in exclude;
  }

  // -- adding points ----------------------------------------------------------------------------

  /** No two different points share a hash, that is, no two replicas collide. */
  ghost predicate Collisionless(ps: seq<Point>)
  {
    forall i, j :: 0 <= i < j < |ps| && ps[i].hash == ps[j].hash ==> ps[i] == ps[j]
  }

  lemma SameHead(a: seq<Point>, b: seq<Point>)
    requires Sorted(a) && Sorted(b) && Collisionless(a) && multiset(a) == multiset(b) && a != []
    ensures b != [] && a[0] == b[0]
  {
    assert a[0] in multiset(b);
    var j :| 0 <= j < |b| && b[j] == a[0];
    assert b[0] in multiset(a);
    var i :| 0 <= i < |a| && a[i] == b[0];
    assert a[0].hash <= a[i].hash && b[0].hash <= b[j].hash;
  }

  lemma TailOf(a: seq<Point>)
    requires a != [] && Sorted(a)
    ensures Sorted(a[1..]) && (Collisionless(a) ==> Collisionless(a[1..]))
    ensures multiset(a[1..]) == multiset(a) - multiset{a[0]} && a == [a[0]] + a[1..]
  {
    assert a == [a[0]] + a[1..];
  }

  /** Without collisions a sorted ring is determined by its points. */
  lemma {:induction false} SortedUnique(a: seq<Point>, b: seq<Point>)
    requires Sorted(a) && Sorted(b) && Collisionless(a) && multiset(a) == multiset(b)
    ensures a == b
  {
    if a == [] {
      assert |multiset(b)| == 0;
    } else {
      SameHead(a, b);
      TailOf(a);
      TailOf(b);
      hide Sorted, Collisionless;
      SortedUnique(a[1..], b[1..]);
      assert a[1..] == b[1..];
    }
  }

  lemma {:induction false} WithoutCount(ps: seq<Point>, id: Id, p: Point)
    ensures multiset(Without(ps, id))[p] == if p.id == id then 0 else multiset(ps)[p]
  {
    if ps != [] {
      WithoutCount(ps[1..], id, p);
      assert ps == [ps[0]] + ps[1..];
    }
  }

  lemma WithoutIn(ps: seq<Point>, id: Id, i: nat)
    requires i < |Without(ps, id)|
    ensures Without(ps, id)[i] in ps && Without(ps, id)[i].id != id
  {
    WithoutCount(ps, id, Without(ps, id)[i]);
    assert Without(ps, id)[i] in multiset(Without(ps, id));
    assert Without(ps, id)[i] in multiset(ps);
  }

  lemma {:induction false} WithoutOrder(ps: seq<Point>, id: Id)
    requires Sorted(ps)
    ensures Sorted(Without(ps, id))
  {
    if ps != [] {
      var rest := Without(ps[1..], id);
      WithoutOrder(ps[1..], id);
      forall i | 0 <= i < |rest| ensures exists j :: 0 < j < |ps| && ps[j] == rest[i] {
        WithoutIn(ps[1..], id, i);
        var j :| 0 <= j < |ps[1..]| && ps[1..][j] == rest[i];
        assert ps[j + 1] == rest[i];
      }
    }
  }

  /** `ps'` is what sorting `ps + added` may leave: the sort is not stable. */
  ghost predicate SortOf(ps': seq<Point>, ps: seq<Point>, added: seq<Point>)
  {
    Sorted(ps') && multiset(ps') == multiset(ps + added)
  }

  /** `added` are points of the newcomer `id`, and `ps` has none of its points. */
  ghost predicate Newcomer(ps: seq<Point>, added: seq<Point>, id: Id)
  {
    (forall p :: p in ps ==> p.id != id) && (forall p :: p in added ==> p.id == id)
  }

  /** The ring after `Add`, less the newcomer's points, is the ring before it. */
  lemma AddThenWithout(ps: seq<Point>, added: seq<Point>, ps': seq<Point>, id: Id)
    requires Sorted(ps) && Collisionless(ps) && SortOf(ps', ps, added) && Newcomer(ps, added, id)
    ensures Without(ps', id) == ps
  {
    var w := Without(ps', id);
    WithoutOrder(ps', id);
    forall p ensures multiset(w)[p] == multiset(ps)[p] {
      WithoutCount(ps', id, p);
      assert multiset(ps')[p] == multiset(ps)[p] + multiset(added)[p];
      assert p.id == id ==> p !in ps;
      assert p.id != id ==> p !in added;
    }
    assert multiset(w) == multiset(ps);
    SortedUnique(ps, w);
  }

  /** Some sorted arrangement of `ps` and `added` keeps `ps` in its order. */
  lemma {:induction false} Merged(ps: seq<Point>, added: seq<Point>, id: Id) returns (ps': seq<Point>)
    requires Sorted(ps) && Newcomer(ps, added, id)
    ensures SortOf(ps', ps, added) && Without(ps', id) == ps
    decreases |added|
  {
    if added == [] {
      ps' := ps;
      assert ps + added == ps;
      KeepAll(ps, Not(id));
    } else {
      var x, rest := added[0], added[1..];
      var q := Merged(ps, rest, id);
      ps' := Inserted(q, x, id);
      assert added == [x] + rest;
      assert multiset(ps + added) == multiset(ps) + multiset(added) == multiset(ps + rest) + multiset{x};
    }
  }

  lemma WithoutCons(x: Point, q: seq<Point>, id: Id)
    ensures Without([x] + q, id) == (if x.id != id then [x] else []) + Without(q, id)
    ensures multiset([x] + q) == multiset{x} + multiset(q)
  {
    assert ([x] + q)[1..] == q;
  }

  lemma BagAssoc<T>(a: multiset<T>, b: multiset<T>, c: multiset<T>)
    ensures a + (b + c) == a + b + c
  {
  }

  lemma SortedCons(x: Point, q: seq<Point>)
    requires Sorted(q) && (q == [] || x.hash <= q[0].hash)
    ensures Sorted([x] + q)
  {
  }

  lemma {:induction false} Inserted(q: seq<Point>, x: Point, id: Id) returns (r: seq<Point>)
    requires Sorted(q) && x.id == id
    ensures Sorted(r) && multiset(r) == multiset(q) + multiset{x} && Without(r, id) == Without(q, id)
    ensures r != [] && (r[0] == x || (q != [] && r[0] == q[0]))
    decreases |q|
  {
    if q == [] || x.hash <= q[0].hash {
      r := [x] + q;
      SortedCons(x, q);
      WithoutCons(x, q, id);
    } else {
      var t := Inserted(q[1..], x, id);
      r := [q[0]] + t;
      SortedCons(q[0], t);
      hide *;
      InsertedCons(q, t, x, id);
    }
  }

  lemma InsertedCons(q: seq<Point>, t: seq<Point>, x: Point, id: Id)
    requires q != [] && multiset(t) == multiset(q[1..]) + multiset{x} && Without(t, id) == Without(q[1..], id)
    ensures multiset([q[0]] + t) == multiset(q) + multiset{x} && Without([q[0]] + t, id) == Without(q, id)
  {
    hide *;
    WithoutCons(q[0], t, id);
    WithoutCons(q[0], q[1..], id);
    assert q == [q[0]] + q[1..];
    BagAssoc(multiset{q[0]}, multiset(q[1..]), multiset{x});
  }

  lemma Swapped(ps: seq<Point>, i: nat, j: nat) returns (q: seq<Point>)
    requires Sorted(ps) && i < j < |ps| && ps[i].hash == ps[j].hash
    ensures q == ps[i := ps[j]][j := ps[i]] && Sorted(q) && multiset(q) == multiset(ps)
  {
    q := ps[i := ps[j]][j := ps[i]];
  }

  /**
    Exactly when adding a replica leaves the others' order alone, whatever the sort does with
    equal hashes: when no two of the ring's replicas collide.
   */
  lemma AddKeepsOrderIff(ps: seq<Point>, added: seq<Point>, id: Id)
    requires Sorted(ps) && Newcomer(ps, added, id)
    ensures Collisionless(ps) <==> forall ps' :: SortOf(ps', ps, added) ==> Without(ps', id) == ps
  {
    if Collisionless(ps) {
      forall ps' | SortOf(ps', ps, added) ensures Without(ps', id) == ps {
        AddThenWithout(ps, added, ps', id);
      }
    } else {
      var i, j :| 0 <= i < j < |ps| && ps[i].hash == ps[j].hash && ps[i] != ps[j];
      var q := Swapped(ps, i, j);
      assert forall p :: p in q ==> p in multiset(ps);
      var ps' := Merged(q, added, id);
      assert multiset(q + added) == multiset(q) + multiset(added) == multiset(ps + added);
      assert Without(ps', id)[i] != ps[i];
      assert SortOf(ps', ps, added);
    }
  }

  /** Adding a replica to a ring without collisions moves keys only onto the newcomer. */
  lemma AddMovesOntoNewcomer(
    m: Replicas, ps: seq<Point>, added: seq<Point>, ps': seq<Point>, h: nat, id: Id, r: Replica)
    requires Sorted(ps) && Collisionless(ps) && SortOf(ps', ps, added) && Newcomer(ps, added, id) && id !in m
    ensures Served(m[id := r], ps', h) == Some(id) || Served(m[id := r], ps', h) == Served(m, ps, h)
  {
    AddThenWithout(ps, added, ps', id);
    var m' := m[id := r];
    if Served(m', ps', h) != Some(id) {
      RemoveMovesOwn(m', ps', h, id);
      assert m' - {id} == m;
    }
  }
}
