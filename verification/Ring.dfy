/** The ring itself (router/ring.go): replicas and sorted points, changed in place. */
module RingState {
  import opened Wrappers
  import opened Hashing

  const DEFAULT_VIRTUAL_NODES: nat := 150
  const DEFAULT_EPSILON := 0.25

  class Ring {
    const virtualNodes: nat
    const epsilon: Epsilon
    /** The ring position of a key, and of a replica's i-th virtual node. */
    const keyHash: string -> nat
    const pointHash: (Id, nat) -> nat
    var replicas: Replicas
    var points: seq<Point>

    ghost predicate Valid()
      reads this
    {
      && virtualNodes > 0
      && (epsilon.Finite? ==> epsilon.value >= 0.0)
      && Sorted(points)
      && OnRing(replicas, points)
    }

    lemma ValidEpsilon()
      requires Valid()
      ensures epsilon.Finite? ==> epsilon.value >= 0.0
    {
    }

    constructor (virtualNodes: int, epsilon: Epsilon, keyHash: string -> nat, pointHash: (Id, nat) -> nat)
      ensures Valid() && replicas == map[] && points == []
      ensures this.virtualNodes as int == if virtualNodes <= 0 then DEFAULT_VIRTUAL_NODES else virtualNodes
      ensures this.epsilon == if epsilon.Finite? && epsilon.value < 0.0 then Finite(DEFAULT_EPSILON) else epsilon
      ensures this.keyHash == keyHash && this.pointHash == pointHash
    {
      this.virtualNodes := if virtualNodes <= 0 then DEFAULT_VIRTUAL_NODES else virtualNodes;
      this.epsilon := if epsilon.Finite? && epsilon.value < 0.0 then Finite(DEFAULT_EPSILON) else epsilon;
      this.keyHash := keyHash;
      this.pointHash := pointHash;
      replicas := map[];
      points := [];
    }

    /** A newcomer joins unready, with `virtualNodes` points; a known replica only changes address. */
    method Add(id: Id, addr: string)
      requires Valid()
      modifies this
      ensures Valid()
      ensures id in old(replicas) ==>
                && points == old(points)
                && replicas == old(replicas)[id := old(replicas)[id].(addr := addr)]
      ensures id !in old(replicas) ==>
                && replicas == old(replicas)[id := Replica(addr, 0, false)]
                && SortOf(points, old(points), VirtualNodes(id, virtualNodes, pointHash))
                && Newcomer(old(points), VirtualNodes(id, virtualNodes, pointHash), id)
    {
      if id in replicas {
        replicas := replicas[id := replicas[id].(addr := addr)];
        return;
      }
      ghost var before := points;
      replicas := replicas[id := Replica(addr, 0, false)];
      var i := 0;
      while i < virtualNodes
        invariant 0 <= i <= virtualNodes
        invariant points == before + VirtualNodes(id, i, pointHash)
        invariant replicas == old(replicas)[id := Replica(addr, 0, false)]
      {
        points := points + [Point(pointHash(id, i), id)];
        i := i + 1;
      }
      points := SortPoints(points);
      AddOnRing(old(replicas), before, VirtualNodes(id, virtualNodes, pointHash), points, id, Replica(addr, 0, false))
        by { VirtualNodesOf(id, virtualNodes, pointHash); }
    }

    /** The replica and all its points are gone; an unknown id changes nothing. */
    method Remove(id: Id)
      requires Valid()
      modifies this
      ensures Valid()
      ensures replicas == old(replicas) - {id} && points == Without(old(points), id)
    {
      if id !in replicas {
        KeepAll(points, Not(id));
        assert replicas - {id} == replicas;
        return;
      }
      hide Sorted, OnRing, Without;
      replicas := replicas - {id};
      var kept: seq<Point>, i := [], 0;
      assert points[..0] == [] && Without([], id) == [] by { KeepAll([], Not(id)); }
      while i < |points|
        invariant 0 <= i <= |points|
        invariant kept == Without(points[..i], id)
        invariant points == old(points) && replicas == old(replicas) - {id}
      {
        WithoutSnoc(points, i, id);
        if points[i].id != id {
          kept := kept + [points[i]];
        }
        i := i + 1;
      }
      assert points[..i] == points;
      WithoutOrder(points, id);
      WithoutOnRing(old(replicas), points, id);
      points := kept;
    }

    method SetReady(id: Id, ready: bool)
      requires Valid()
      modifies this`replicas
      ensures Valid()
      ensures replicas == if id in old(replicas) then old(replicas)[id := old(replicas)[id].(ready := ready)]
                          else old(replicas)
    {
      if id in replicas {
        replicas := replicas[id := replicas[id].(ready := ready)];
      }
    }

    method Release(id: Id)
      requires Valid()
      modifies this`replicas
      ensures Valid()
      ensures replicas == if id in old(replicas) && old(replicas)[id].load > 0
                          then old(replicas)[id := old(replicas)[id].(load := old(replicas)[id].load - 1)]
                          else old(replicas)
    {
      if id in replicas && replicas[id].load > 0 {
        replicas := replicas[id := replicas[id].(load := replicas[id].load - 1)];
      }
    }

    /** How many replicas are ready and what they carry together. */
    method CountReady() returns (ready: nat, total: nat)
      ensures ready == |ReadyIds(replicas)| && total == Sum(replicas, ReadyIds(replicas))
    {
      ready, total := 0, 0;
      var todo := replicas.Keys;
      ghost var done: set<Id> := {};
      while todo != {}
        invariant done !! todo && done + todo == replicas.Keys
        invariant Counted(replicas, done, ready, total)
        decreases |todo|
      {
        var id :| id in todo;
        CountOne(replicas, done, id, ready, total);
        todo, done := todo - {id}, done + {id};
        if replicas[id].ready {
          ready, total := ready + 1, total + replicas[id].load;
        }
      }
      assert ReadyIds(replicas) * done == ReadyIds(replicas);
    }

    /** The index of the first point at or after `h`, wrapping to 0, by binary search. */
    method Search(h: nat) returns (i: nat)
      requires Sorted(points) && points != []
      ensures Start(points, h, i)
    {
      i := 0;
      var hi := |points|;
      while i < hi
        invariant 0 <= i <= hi <= |points|
        invariant forall j :: 0 <= j < i ==> points[j].hash < h
        invariant forall j :: hi <= j < |points| ==> points[j].hash >= h
      {
        var mid := (i + hi) / 2;
        if points[mid].hash >= h { hi := mid; } else { i := mid + 1; }
      }
      if i == |points| { i := 0; }
    }

    /** A least loaded ready replica outside `exclude`, if there is one. */
    method FindLeastLoaded(exclude: set<Id>) returns (best: Option<Id>)
      ensures best.Some? ==> LeastLoaded(replicas, best.value, ReadyIds(replicas) - exclude)
      ensures best.None? ==> ReadyIds(replicas) - exclude == {}
    {
      best := None;
      var todo := replicas.Keys;
      while todo != {}
        invariant todo <= replicas.Keys
        invariant best.Some? ==> LeastLoaded(replicas, best.value, ReadyIds(replicas) - exclude - todo)
        invariant best.None? ==> ReadyIds(replicas) - exclude - todo == {}
        decreases |todo|
      {
        var id :| id in todo;
        todo := todo - {id};
        if id !in exclude && replicas[id].ready && (best.None? || replicas[id].load < replicas[best.value].load) {
          best := Some(id);
        }
      }
    }

    /**
      The walk: the first ready replica under the cap that is not excluded. It stops early once
      every ready replica has been seen.
     */
    method WalkFrom(start: nat, h: nat, ready: nat, limit: nat, exclude: set<Id>) returns (r: Option<Id>)
      requires Valid() && Start(points, h, start) && ready == |ReadyIds(replicas)|
      ensures r == Owner(Walk(points, h), Under(replicas, limit, exclude))
    {
      ghost var rot, good := Rotated(points, start), Under(replicas, limit, exclude);
      RotatedIsWalk(points, h, start);
      hide Owner, Walk, Start, Sorted, OnRing, Rotated, Wrap, Under, Passed, ReadyIds;
      var seen: set<Id>, i := {}, 0;
      PassedStart(replicas, rot, good);
      while i < |points| && |seen| < ready
        invariant i <= |points| && Passed(replicas, rot, i, seen, good)
      {
        var k := Wrap(start + i, |points|);
        var p := points[k];
        RotatedAt(points, start, i);
        PointKnown(replicas, points, k);
        PassedStep(replicas, rot, i, seen, limit, exclude);
        if p.id !in seen && replicas[p.id].ready {
          seen := seen + {p.id};
          if p.id !in exclude && replicas[p.id].load < limit {
            return Some(p.id);
          }
        }
        i := i + 1;
      }
      PassedAll(replicas, rot, i, seen, good);
      return None;
    }

    /** `PickExcluding`: the chosen replica's load goes up by one and nothing else changes. */
    method PickExcluding(key: string, exclude: set<Id>) returns (r: Option<Id>)
      requires Valid()
      modifies this`replicas
      ensures Valid()
      ensures Picks(old(replicas), points, keyHash(key), exclude, epsilon, r)
      ensures Chosen(old(replicas), points, keyHash(key), exclude, epsilon, r)
      ensures r.Some? ==> r.value in old(replicas) && replicas == Loaded(old(replicas), r.value)
      ensures r.None? ==> replicas == old(replicas)
    {
      hide LoadCap, Start, Sorted, OnRing, Owner, Walk, Under, ReadyIds, LeastLoaded, Chosen;
      if points == [] {
        NoReplicas(replicas);
        NothingToPick(replicas, points, keyHash(key), exclude, epsilon);
        PickChosen(replicas, points, keyHash(key), exclude, epsilon, None);
        return None;
      }
      var ready, total := CountReady();
      if ready == 0 {
        NothingToPick(replicas, points, keyHash(key), exclude, epsilon);
        PickChosen(replicas, points, keyHash(key), exclude, epsilon, None);
        return None;
      }
      var limit := LoadCap(total + 1, ready, epsilon);
      var start := Search(keyHash(key));
      r := WalkFrom(start, keyHash(key), ready, limit, exclude);
      if r.None? {
        r := FindLeastLoaded(exclude);
      }
      PickFailsIff(replicas, points, keyHash(key), exclude, epsilon, r);
      PickChosen(replicas, points, keyHash(key), exclude, epsilon, r);
      if r.Some? {
        LoadedSame(replicas, r.value, points);
        replicas := Loaded(replicas, r.value);
      }
    }
  }

  /** `ready` and `total` are right for the replicas in `done`. */
  ghost predicate Counted(m: Replicas, done: set<Id>, ready: nat, total: nat)
  {
    var ids := ReadyIds(m) * done;
    ids <= m.Keys && ready == |ids| && total == Sum(m, ids)
  }

  lemma CountOne(m: Replicas, done: set<Id>, id: Id, ready: nat, total: nat)
    requires id in m && id !in done && Counted(m, done, ready, total)
    ensures m[id].ready ==> Counted(m, done + {id}, ready + 1, total + m[id].load)
    ensures !m[id].ready ==> Counted(m, done + {id}, ready, total)
  {
    var ids := ReadyIds(m) * done;
    if m[id].ready {
      assert ReadyIds(m) * (done + {id}) == ids + {id};
      SumPick(m, ids + {id}, id);
      assert ids + {id} - {id} == ids;
    } else {
      assert ReadyIds(m) * (done + {id}) == ids;
    }
  }

  /** A replica's first `n` virtual nodes. */
  function VirtualNodes(id: Id, n: nat, pointHash: (Id, nat) -> nat): (ps: seq<Point>)
    ensures |ps| == n && forall i :: 0 <= i < n ==> ps[i] == Point(pointHash(id, i), id)
  {
    if n == 0 then [] else VirtualNodes(id, n - 1, pointHash) + [Point(pointHash(id, n - 1), id)]
  }

  lemma {:induction false} VirtualNodesOf(id: Id, n: nat, pointHash: (Id, nat) -> nat)
    ensures forall p :: p in VirtualNodes(id, n, pointHash) ==> p.id == id
  {
    if n > 0 { VirtualNodesOf(id, n - 1, pointHash); }
  }

  lemma SameMembers(a: seq<Point>, b: seq<Point>)
    requires multiset(a) == multiset(b)
    ensures forall p :: p in a <==> p in b
  {
    forall p ensures p in a <==> p in b {
      assert p in a <==> p in multiset(a);
      assert p in b <==> p in multiset(b);
    }
  }

  lemma AddOnRing(m: Replicas, ps: seq<Point>, added: seq<Point>, ps': seq<Point>, id: Id, r: Replica)
    requires OnRing(m, ps) && id !in m && SortOf(ps', ps, added)
    requires added != [] && forall p :: p in added ==> p.id == id
    ensures OnRing(m[id := r], ps') && Newcomer(ps, added, id)
  {
    SameMembers(ps + added, ps');
    var m' := m[id := r];
    forall x | x in m' ensures exists p :: p in ps' && p.id == x {
      if x == id {
        assert added[0] in ps + added;
      } else {
        var p :| p in ps && p.id == x;
        assert p in ps + added;
      }
    }
  }

  lemma WithoutOnRing(m: Replicas, ps: seq<Point>, id: Id)
    requires OnRing(m, ps)
    ensures OnRing(m - {id}, Without(ps, id))
  {
    forall p | p in Without(ps, id) ensures p.id in m - {id} {
      var i :| 0 <= i < |Without(ps, id)| && Without(ps, id)[i] == p;
      WithoutIn(ps, id, i);
    }
    forall x | x in m - {id} ensures exists p :: p in Without(ps, id) && p.id == x {
      var p :| p in ps && p.id == x;
      KeepIn(ps, Not(id), p);
    }
  }

  lemma PointKnown(m: Replicas, ps: seq<Point>, i: nat)
    requires OnRing(m, ps) && i < |ps|
    ensures ps[i].id in m
  {
  }

  function Wrap(a: nat, n: nat): (r: nat)
    requires n > 0
    ensures r < n
  {
    a % n
  }

  lemma WrapOnce(a: nat, n: nat)
    requires n > 0 && a < 2 * n
    ensures Wrap(a, n) == if a < n then a else a - n
  {
  }

  lemma RotatedAt(ps: seq<Point>, start: nat, i: nat)
    requires start < |ps| && i < |ps|
    ensures Rotated(ps, start)[i] == ps[Wrap(start + i, |ps|)]
  {
    WrapOnce(start + i, |ps|);
  }

  /** What the walk has established after `i` points: `seen` are ready and none will do. */
  ghost predicate Passed(m: Replicas, rot: seq<Point>, i: nat, seen: set<Id>, good: set<Id>)
  {
    && i <= |rot|
    && seen <= ReadyIds(m) && seen !! good && good <= ReadyIds(m)
    && forall j :: 0 <= j < i ==> rot[j].id in seen || rot[j].id !in ReadyIds(m)
  }

  lemma PassedStart(m: Replicas, rot: seq<Point>, good: set<Id>)
    requires good <= ReadyIds(m)
    ensures Passed(m, rot, 0, {}, good)
  {
  }

  lemma PassedStep(m: Replicas, rot: seq<Point>, i: nat, seen: set<Id>, limit: nat, exclude: set<Id>)
    requires i < |rot| && rot[i].id in m
    requires Passed(m, rot, i, seen, Under(m, limit, exclude))
    ensures var id, good := rot[i].id, Under(m, limit, exclude);
            if id in seen || !m[id].ready then Passed(m, rot, i + 1, seen, good)
            else if id !in exclude && m[id].load < limit then Owner(rot, good) == Some(id)
            else Passed(m, rot, i + 1, seen + {id}, good)
  {
    OwnerIs(rot, Under(m, limit, exclude), i);
  }

  /** When every point, or every ready replica, has been passed, nobody will do. */
  lemma PassedAll(m: Replicas, rot: seq<Point>, i: nat, seen: set<Id>, good: set<Id>)
    requires Passed(m, rot, i, seen, good) && (i == |rot| || |seen| >= |ReadyIds(m)|)
    ensures Owner(rot, good) == None
  {
    if i < |rot| {
      var all := ReadyIds(m);
      assert |all| == |seen| + |all - seen| by { assert all == seen + (all - seen); }
      assert good == {};
    }
    OwnerIs(rot, good, |rot|);
  }

  lemma NoReplicas(m: Replicas)
    requires OnRing(m, [])
    ensures m == map[] && ReadyIds(m) == {}
  {
  }

  /** `sortPoints`, by insertion; only sortedness and the multiset are promised. */
  method SortPoints(ps: seq<Point>) returns (r: seq<Point>)
    ensures Sorted(r) && multiset(r) == multiset(ps)
  {
    r := [];
    var n := 0;
    while n < |ps|
      invariant 0 <= n <= |ps| && Sorted(r) && multiset(r) == multiset(ps[..n])
    {
      assert ps[..n + 1] == ps[..n] + [ps[n]];
      r := InsertPoint(r, ps[n]);
      n := n + 1;
    }
    assert ps[..n] == ps;
  }

  method InsertPoint(ps: seq<Point>, p: Point) returns (r: seq<Point>)
    requires Sorted(ps)
    ensures Sorted(r) && multiset(r) == multiset(ps) + multiset{p}
  {
    var i := 0;
    while i < |ps| && ps[i].hash < p.hash
      invariant 0 <= i <= |ps| && forall j :: 0 <= j < i ==> ps[j].hash < p.hash
    {
      i := i + 1;
    }
    r := ps[..i] + [p] + ps[i..];
    InsertedAt(ps, i, p);
  }

  lemma JoinSorted(a: seq<Point>, p: Point, b: seq<Point>)
    requires Sorted(a) && Sorted(b)
    requires forall i :: 0 <= i < |a| ==> a[i].hash <= p.hash
    requires forall i :: 0 <= i < |b| ==> p.hash <= b[i].hash
    ensures Sorted(a + [p] + b)
  {
    var r := a + [p] + b;
    assert forall i :: 0 <= i < |a| ==> r[i] == a[i];
    assert forall i :: |a| < i < |r| ==> r[i] == b[i - |a| - 1];
    assert r[|a|] == p;
  }

  lemma SplitSorted(ps: seq<Point>, i: nat)
    requires Sorted(ps) && i <= |ps|
    ensures Sorted(ps[..i]) && Sorted(ps[i..])
  {
  }

  lemma InsertedAt(ps: seq<Point>, i: nat, p: Point)
    requires Sorted(ps) && i <= |ps| && forall j :: i <= j < |ps| ==> ps[j].hash >= p.hash
    requires forall j :: 0 <= j < i ==> ps[j].hash < p.hash
    ensures Sorted(ps[..i] + [p] + ps[i..])
    ensures multiset(ps[..i] + [p] + ps[i..]) == multiset(ps) + multiset{p}
  {
    SplitSorted(ps, i);
    hide Sorted;
    JoinSorted(ps[..i], p, ps[i..]);
    assert ps == ps[..i] + ps[i..];
  }
}
