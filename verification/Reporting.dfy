/**
  What an engine reports over a run: why each request ended, and the tokens emitted for it as
  they are sampled (engine/scheduler.py `_record_finished`, `drain_emitted`).
 */
module Reporting {
  import opened Wrappers
  import opened Paging
  import opened Batch
  import opened Transformer
  import opened PrefixCaching
  import opened Content
  import opened Requests
  import opened Prefilling
  import opened Scheduling
  import opened Bookkeeping
  import opened Refinement

  // -- what is reported ---------------------------------------------------------------------

  /** The tokens emitted for one id, in order. */
  function Spoken(es: seq<(nat, Token)>, id: nat): seq<Token>
  {
    if es == [] then []
    else
      var n := |es| - 1;
      Spoken(es[..n], id) + if es[n].0 == id then [es[n].1] else []
  }

  lemma SpokenSnoc(es: seq<(nat, Token)>, x: (nat, Token), id: nat)
    ensures Spoken(es + [x], id) == Spoken(es, id) + if x.0 == id then [x.1] else []
  {
    assert (es + [x])[..|es|] == es;
  }

  lemma {:induction false} SpokenNone(es: seq<(nat, Token)>, id: nat)
    requires forall i :: 0 <= i < |es| ==> es[i].0 != id
    ensures Spoken(es, id) == []
  {
    if es != [] { SpokenNone(es[..|es| - 1], id); }
  }

  /** What a run was told: the ids let in, the ids refused on arrival, and the ids to be cancelled. */
  datatype Calls = Calls(admitted: set<nat>, refused: set<nat>, cancelled: set<nat>)

  function Heeded(h: Calls, op: Op): Calls
  {
    match op
    case AddRequest(r, true) => h.(admitted := h.admitted + {r.id})
    case AddRequest(r, false) => h.(refused := h.refused + {r.id})
    case RequestCancel(id) => h.(cancelled := h.cancelled + {id})
    case _ => h
  }

  predicate LetsIn(op: Op, id: nat, admit: bool)
  {
    op.AddRequest? && op.r.id == id && op.admit == admit
  }

  function CallsOf(ops: seq<Op>): (h: Calls)
    ensures forall x :: x in h.admitted <==> exists i :: 0 <= i < |ops| && LetsIn(ops[i], x, true)
    ensures forall x :: x in h.refused <==> exists i :: 0 <= i < |ops| && LetsIn(ops[i], x, false)
    ensures forall x :: x in h.cancelled <==> exists i :: 0 <= i < |ops| && ops[i] == RequestCancel(x)
  {
    if ops == [] then Calls({}, {}, {})
    else
      var n := |ops| - 1;
      Heeded(CallsOf(ops[..n]), ops[n])
  }

  function Reqs(q: seq<Sequence>): (r: seq<Request>)
    ensures |r| == |q|
  {
    seq(|q|, i requires 0 <= i < |q| => q[i].req)
  }

  /** Every request the engine knows: outcomes, batch and queue. */
  function Everyone<K>(e: Engine<K>): seq<Request>
  {
    Outcomes(e) + Reqs(e.running) + e.waiting
  }

  /** Refused exactly on arrival, and cancelled only when asked to be. */
  ghost predicate Excused(h: Calls, r: Request)
  {
    && r.reason.Some?
    && (r.reason == Some(Rejected) ==> r.id in h.refused)
    && (r.reason != Some(Rejected) ==> r.id in h.admitted)
    && (r.reason == Some(Cancelled) ==> r.id in h.cancelled)
  }

  /** What was emitted for an id ends with the output, and is the output unless somebody was preempted. */
  ghost predicate Heard(said: seq<(nat, Token)>, calm: bool, id: nat, output: seq<Token>)
  {
    Suffix(output, Spoken(said, id)) && (calm ==> Spoken(said, id) == output)
  }

  /** Ids and outputs of every request the engine knows. */
  ghost function Voices<K>(e: Engine<K>): set<(nat, seq<Token>)>
  {
    set r | r in Everyone(e) :: (r.id, r.output)
  }

  ghost predicate Known<K>(h: Calls, e: Engine<K>, said: seq<(nat, Token)>)
  {
    && (forall i :: 0 <= i < |e.running| ==> e.running[i].req.id in h.admitted)
    && (forall i :: 0 <= i < |e.waiting| ==> e.waiting[i].id in h.admitted)
    && (forall i :: 0 <= i < |said| ==> said[i].0 in h.admitted)
    && e.cancels <= h.cancelled
  }

  /** Let in or refused, not both, and only what was submitted. */
  ghost predicate Enrolled(h: Calls, arrivals: seq<Request>)
  {
    h.admitted !! h.refused && h.admitted + h.refused <= IdSet(arrivals)
  }

  function IdSet(rs: seq<Request>): set<nat>
  {
    set r | r in rs :: r.id
  }

  /** The report is right; `past` is what was emitted and already handed over. */
  ghost predicate Told<K, H>(c: Config<K, H>, h: Calls, past: seq<(nat, Token)>, e: Engine<K>)
  {
    && Books(c, e) && DistinctIds(e.arrivals) && Enrolled(h, e.arrivals) && |e.running| <= c.maxBatch
    && Known(h, e, past + e.emitted)
    && (forall r :: r in Outcomes(e) ==> Excused(h, r))
    && (forall v :: v in Voices(e) ==> Heard(past + e.emitted, e.preemptions == 0, v.0, v.1))
  }

  // -- one id, one request --------------------------------------------------------------------

  lemma Twice<T>(s: seq<T>, i: nat, j: nat)
    requires i < j < |s| && s[i] == s[j]
    ensures multiset(s)[s[i]] >= 2
  {
    MultisetRemove(s, i);
    assert RemoveAt(s, i)[j - 1] == s[i];
  }

  lemma BagDistinct(a: seq<Request>, b: seq<Request>)
    requires multiset(a) == multiset(b) && DistinctIds(a)
    ensures DistinctIds(b)
  {
    forall i, j | 0 <= i < j < |b| ensures b[i].id != b[j].id {
      assert b[i] in multiset(b) && b[j] in multiset(b);
      if b[i].id == b[j].id {
        SameCore(a, b[i], b[j]);
        DistinctOnce(a, b[i]);
        Twice(b, i, j);
      }
    }
  }

  lemma CoresDistinct(s: seq<Request>)
    requires DistinctIds(Cores(s))
    ensures DistinctIds(s)
  {
    forall i, j | 0 <= i < j < |s| ensures s[i].id != s[j].id {
      assert Cores(s)[i].id != Cores(s)[j].id;
    }
  }

  lemma EveryoneDistinct<K, H>(c: Config<K, H>, e: Engine<K>)
    requires Books(c, e) && DistinctIds(e.arrivals)
    ensures DistinctIds(Everyone(e))
  {
    hide *;
    EveryoneBag(c, e);
    BagDistinct(e.arrivals, Cores(Everyone(e)));
    CoresDistinct(Everyone(e));
  }

  lemma EveryoneBag<K, H>(c: Config<K, H>, e: Engine<K>)
    requires Books(c, e)
    ensures multiset(e.arrivals) == multiset(Cores(Everyone(e)))
  {
    var o, q, w := Outcomes(e), Reqs(e.running), e.waiting;
    assert Cores(q) == RunCores(e.running);
    CoresJoin(o, q);
    CoresJoin(o + q, w);
    hide Subseq, Newest, RunCores, Cores;
    Regroup(multiset(Cores(o)), multiset(Cores(q)), multiset(Cores(w)));
  }

  lemma Regroup<T>(a: multiset<T>, b: multiset<T>, c: multiset<T>)
    ensures b + c + a == a + b + c
  {
  }

  // -- elementary changes -----------------------------------------------------------------------

  /** Nothing emitted; everybody known after is somebody known before, outcome aside. */
  ghost predicate Quiet<K>(e: Engine<K>, a: Engine<K>)
  {
    && a.emitted == e.emitted && a.preemptions == e.preemptions && a.cancels <= e.cancels
    && a.arrivals == e.arrivals && |a.running| <= |e.running|
    && Voices(a) <= Voices(e)
    && (forall q :: q in a.running ==> q in e.running) && (forall r :: r in a.waiting ==> r in e.waiting)
  }

  lemma QuietTold<K, H>(c: Config<K, H>, h: Calls, past: seq<(nat, Token)>, e: Engine<K>, a: Engine<K>)
    requires Told(c, h, past, e) && Books(c, a) && Quiet(e, a)
    requires forall r :: r in Outcomes(a) ==> r in Outcomes(e) || Excused(h, r)
    ensures Told(c, h, past, a)
  {
    hide Books, DistinctIds, Outcomes, Voices, Excused, Heard, Enrolled;
    KnownStays(h, e, a, past);
  }

  lemma KnownStays<K>(h: Calls, e: Engine<K>, a: Engine<K>, past: seq<(nat, Token)>)
    requires Quiet(e, a) && Known(h, e, past + e.emitted)
    ensures Known(h, a, past + a.emitted)
  {
    hide Voices;
    forall i | 0 <= i < |a.running| ensures a.running[i].req.id in h.admitted {
      assert a.running[i] in e.running;
    }
    forall i | 0 <= i < |a.waiting| ensures a.waiting[i].id in h.admitted {
      assert a.waiting[i] in e.waiting;
    }
  }

  lemma VoicesAre<K>(e: Engine<K>, v: (nat, seq<Token>))
    ensures v in Voices(e) <==>
            || (exists r :: r in Outcomes(e) && v == (r.id, r.output))
            || (exists q :: q in e.running && v == (q.req.id, q.req.output))
            || (exists r :: r in e.waiting && v == (r.id, r.output))
  {
    var o, q := Outcomes(e), Reqs(e.running);
    assert forall i :: 0 <= i < |q| ==> q[i] == e.running[i].req;
    assert forall x :: x in q ==> exists y :: y in e.running && y.req == x;
    assert forall y :: y in e.running ==> y.req in q;
    assert forall r :: r in Everyone(e) <==> r in o || r in q || r in e.waiting;
  }

  lemma FinishQuiet<K, H>(c: Config<K, H>, e: Engine<K>, b: Engine<K>, r: Request, why: FinishReason)
    requires Outcomes(b) == Outcomes(e) && b.emitted == e.emitted && b.preemptions == e.preemptions
    requires b.cancels == e.cancels && b.arrivals == e.arrivals && |b.running| <= |e.running|
    requires forall q :: q in b.running ==> q in e.running
    requires forall q :: q in b.waiting ==> q in e.waiting
    requires (r.id, r.output) in Voices(e)
    ensures Quiet(e, Record(c, b, r, why))
  {
    var a := Record(c, b, r, why);
    RecordOutcomes(c, b, r, why);
    hide Newest, Voices;
    forall v | v in Voices(a) ensures v in Voices(e) {
      VoicesAre(a, v);
      VoicesAre(e, v);
    }
  }

  lemma LeaveTold<K, H>(c: Config<K, H>, h: Calls, past: seq<(nat, Token)>, e: Engine<K>, k: nat, why: FinishReason)
    requires Told(c, h, past, e) && Shaped(e) && k < |e.running|
    requires why != Rejected && (why == Cancelled ==> e.running[k].req.id in h.cancelled)
    ensures Told(c, h, past, Record(c, Leave(e, k), e.running[k].req, why))
  {
    var r := e.running[k].req;
    var b := Leave(e, k);
    assert e.running[k] in e.running && b.running == RemoveAt(e.running, k);
    VoicesAre(e, (r.id, r.output));
    LeaveBooks(c, e, k, r, why);
    assert Excused(h, r.(reason := Some(why)));
    hide Books, Shaped, Voices, Leave, Record, Excused;
    FinishQuiet(c, e, b, r, why);
    RecordOutcomes(c, b, r, why);
    QuietTold(c, h, past, e, Record(c, b, r, why));
  }

  lemma DropTold<K, H>(c: Config<K, H>, h: Calls, past: seq<(nat, Token)>, e: Engine<K>, k: nat)
    requires Told(c, h, past, e) && k < |e.waiting| && e.waiting[k].id in h.cancelled
    ensures Told(c, h, past, Record(c, e.(waiting := RemoveAt(e.waiting, k)), e.waiting[k], Cancelled))
  {
    var r := e.waiting[k];
    var b := e.(waiting := RemoveAt(e.waiting, k));
    VoicesAre(e, (r.id, r.output));
    DropBooks(c, e, b, k, Cancelled);
    assert Excused(h, r.(reason := Some(Cancelled)));
    hide Books, Voices, Record, Excused;
    FinishQuiet(c, e, b, r, Cancelled);
    RecordOutcomes(c, b, r, Cancelled);
    QuietTold(c, h, past, e, Record(c, b, r, Cancelled));
  }

  lemma MovedTold<K, H>(c: Config<K, H>, h: Calls, past: seq<(nat, Token)>, e: Engine<K>, s: Store<seq<K>>)
    requires Told(c, h, past, e)
    ensures Told(c, h, past, e.(st := s))
  {
    MovedBooks(c, e, s);
    hide Books, DistinctIds, Excused, Heard, Enrolled;
  }

  /** The sequence at `k` takes a token that it records: the token is emitted for it and for nobody else. */
  lemma SpeakVoices<K, H>(c: Config<K, H>, past: seq<(nat, Token)>, e: Engine<K>, k: nat, t: Token)
    requires Books(c, e) && DistinctIds(e.arrivals) && k < |e.running|
    requires forall v :: v in Voices(e) ==> Heard(past + e.emitted, e.preemptions == 0, v.0, v.1)
    ensures var r := e.running[k].req;
            var a := e.(running := e.running[k := Sequence(r.(output := r.output + [t]), t)],
                        emitted := e.emitted + [(r.id, t)]);
            forall v :: v in Voices(a) ==> Heard(past + a.emitted, a.preemptions == 0, v.0, v.1)
  {
    var r, all, j := e.running[k].req, Everyone(e), |Outcomes(e)| + k;
    var r' := r.(output := r.output + [t]);
    var a := e.(running := e.running[k := Sequence(r', t)], emitted := e.emitted + [(r.id, t)]);
    EveryoneDistinct(c, e);
    EveryoneAt(e, k, Sequence(r', t), a.emitted);
    hide Books, Everyone, Heard;
    assert past + a.emitted == past + e.emitted + [(r.id, t)];
    assert forall i :: 0 <= i < |all| ==> (all[i].id, all[i].output) in Voices(e);
    HeardAll(all, j, t, past + e.emitted, e.preemptions == 0);
    assert Everyone(a) == all[j := r'];
  }

  lemma EveryoneAt<K>(e: Engine<K>, k: nat, q: Sequence, es: seq<(nat, Token)>)
    requires k < |e.running|
    ensures var j := |Outcomes(e)| + k;
            && j < |Everyone(e)| && Everyone(e)[j] == e.running[k].req
            && Everyone(e.(running := e.running[k := q], emitted := es)) == Everyone(e)[j := q.req]
  {
    var j := |Outcomes(e)| + k;
    assert Reqs(e.running[k := q]) == Reqs(e.running)[k := q.req];
    assert Everyone(e.(running := e.running[k := q], emitted := es)) == Everyone(e)[j := q.req];
  }

  lemma HeardAll(all: seq<Request>, j: nat, t: Token, said: seq<(nat, Token)>, calm: bool)
    requires DistinctIds(all) && j < |all|
    requires forall i :: 0 <= i < |all| ==> Heard(said, calm, all[i].id, all[i].output)
    ensures var now, more := all[j := all[j].(output := all[j].output + [t])], said + [(all[j].id, t)];
            forall r :: r in now ==> Heard(more, calm, r.id, r.output)
  {
    var now, more := all[j := all[j].(output := all[j].output + [t])], said + [(all[j].id, t)];
    forall i | 0 <= i < |now| ensures Heard(more, calm, now[i].id, now[i].output) {
      SpokenSnoc(said, (all[j].id, t), all[i].id);
      hide Spoken;
    }
  }

  lemma SpeakTold<K, H>(c: Config<K, H>, h: Calls, past: seq<(nat, Token)>, e: Engine<K>, k: nat, t: Token)
    requires Told(c, h, past, e) && k < |e.running|
    ensures Told(c, h, past, Taken(c, e, k, t))
  {
    var r, a := e.running[k].req, Taken(c, e, k, t);
    EmitBooks(c, e, k, t);
    SpeakVoices(c, past, e, k, t);
    EveryoneAt(e, k, Sequence(r, t), e.emitted);
    hide Books, DistinctIds, Excused, Heard, Enrolled, Everyone, Known;
    SpeakKnown(c, h, past, e, k, t);
    if Accept(c, r, t).0 == r { assert Everyone(a) == Everyone(e); }
  }

  lemma SpeakKnown<K, H>(c: Config<K, H>, h: Calls, past: seq<(nat, Token)>, e: Engine<K>, k: nat, t: Token)
    requires Known(h, e, past + e.emitted) && k < |e.running|
    ensures Known(h, Taken(c, e, k, t), past + Taken(c, e, k, t).emitted)
  {
    var r := e.running[k].req;
    assert past + (e.emitted + [(r.id, t)]) == past + e.emitted + [(r.id, t)];
  }

  // -- the engine's operations --------------------------------------------------------------------

  lemma {:induction false} AcceptTold<K, H>(
    c: Config<K, H>, h: Calls, past: seq<(nat, Token)>, e: Engine<K>, k: nat, toks: seq<Token>)
    requires Told(c, h, past, e)
    ensures Told(c, h, past, AcceptAll(c, e, k, toks))
    decreases |toks|
  {
    hide Told, Shaped, Accept, Emit, Leave, Record;
    if toks != [] && k < |e.running| && Shaped(e) {
      var f, e1 := Accept(c, e.running[k].req, toks[0]).1, Taken(c, e, k, toks[0]);
      SpeakTold(c, h, past, e, k, toks[0]);
      TakenShape(c, e, k, toks[0]);
      if f.None? {
        AcceptTold(c, h, past, e1, k + 1, toks[1..]);
      } else {
        LeaveTold(c, h, past, e1, k, f.value);
        AcceptTold(c, h, past, Record(c, Leave(e1, k), e1.running[k].req, f.value), k, toks[1..]);
      }
    }
  }

  lemma TakenShape<K, H>(c: Config<K, H>, e: Engine<K>, k: nat, t: Token)
    requires Shaped(e) && k < |e.running|
    ensures var (a, f) := (Taken(c, e, k, t), Accept(c, e.running[k].req, t).1);
            && Shaped(a) && k < |a.running| && a.running[k].req == Accept(c, e.running[k].req, t).0
            && f != Some(Rejected) && f != Some(Cancelled)
  {
    hide StoreOK;
  }

  lemma {:induction false} CancelRunningTold<K, H>(
    c: Config<K, H>, h: Calls, past: seq<(nat, Token)>, e: Engine<K>, wanted: set<nat>, k: nat)
    requires Told(c, h, past, e) && wanted <= h.cancelled
    ensures Told(c, h, past, CancelRunning(c, e, wanted, k))
    decreases |e.running| - k
  {
    hide Told, Shaped;
    if Shaped(e) && k < |e.running| {
      if e.running[k].req.id in wanted {
        LeaveTold(c, h, past, e, k, Cancelled);
        CancelRunningTold(c, h, past, Record(c, Leave(e, k), e.running[k].req, Cancelled), wanted, k);
      } else {
        CancelRunningTold(c, h, past, e, wanted, k + 1);
      }
    }
  }

  lemma {:induction false} CancelWaitingTold<K, H>(
    c: Config<K, H>, h: Calls, past: seq<(nat, Token)>, e: Engine<K>, wanted: set<nat>, k: nat)
    requires Told(c, h, past, e) && wanted <= h.cancelled
    ensures Told(c, h, past, CancelWaiting(c, e, wanted, k))
    decreases |e.waiting| - k
  {
    hide Told;
    if k < |e.waiting| {
      if e.waiting[k].id in wanted {
        DropTold(c, h, past, e, k);
        CancelWaitingTold(c, h, past, Record(c, e.(waiting := RemoveAt(e.waiting, k)), e.waiting[k], Cancelled),
                          wanted, k);
      } else {
        CancelWaitingTold(c, h, past, e, wanted, k + 1);
      }
    }
  }

  lemma CancelTold<K, H>(c: Config<K, H>, h: Calls, past: seq<(nat, Token)>, e: Engine<K>)
    requires Told(c, h, past, e)
    ensures Told(c, h, past, ApplyCancellations(c, e))
  {
    var e0 := e.(cancels := {});
    SameBooks(c, e, e0);
    assert Told(c, h, past, e0) && e.cancels <= h.cancelled by { hide Books, DistinctIds, Excused, Heard, Enrolled; }
    hide Told;
    CancelRunningTold(c, h, past, e0, e.cancels, 0);
    CancelWaitingTold(c, h, past, CancelRunning(c, e0, e.cancels, 0), e.cancels, 0);
  }

  /** The head of the queue takes its place at the end of the batch. */
  lemma SeatTold<K, H>(c: Config<K, H>, h: Calls, past: seq<(nat, Token)>, e: Engine<K>, s: Store<seq<K>>)
    requires Told(c, h, past, e) && e.waiting != [] && |e.running| < c.maxBatch
    ensures Told(c, h, past, e.(st := s, waiting := e.waiting[1..], running := e.running + [Sequence(e.waiting[0], 0)]))
  {
    hide Books, DistinctIds, Excused, Heard, Enrolled;
    var r := e.waiting[0];
    var a := e.(st := s, waiting := e.waiting[1..], running := e.running + [Sequence(r, 0)]);
    assert Books(c, a) by {
      assert RunCores(a.running) == RunCores(e.running) + [Core(r)];
      assert Cores(e.waiting) == [Core(r)] + Cores(a.waiting);
      SameBooks(c, e, a);
    }
    assert Reqs(a.running) == Reqs(e.running) + [r] && e.waiting == [r] + a.waiting;
    assert Everyone(a) == Everyone(e);
    hide Everyone;
  }

  lemma AdmitOneTold<K, H>(c: Config<K, H>, h: Calls, past: seq<(nat, Token)>, e: Engine<K>)
    requires Serving(c, e) && Told(c, h, past, e) && e.waiting != [] && |e.running| < c.maxBatch
    requires Shaped(e) && e.waiting[0].prompt != []
    ensures Told(c, h, past, AdmitOne(c, e).e)
  {
    hide *;
    ServingShape(c, e);
    AdmitOneFacts(c, e);
    PoolStore(c.m, e.st);
    var a, f, r := AdmitOne(c, e), EnsureFree(e.st, Room(c, e)), e.waiting[0];
    MovedTold(c, h, past, e, f.s);
    if a.more {
      var p := Prefill(c, f.s, r.prompt);
      SeatTold(c, h, past, e, p.s);
      FreedRight(c.m, e.st, Room(c, e));
      ExtendsShape(c.m, f.s, p.s);
      var e2 := e.(st := p.s, waiting := e.waiting[1..]);
      PoolShaped(c.m, e2.(running := e.running + [Sequence(r, 0)]));
      JoinedIsAccept(c, e2, r, p.token);
      AcceptTold(c, h, past, e2.(running := e.running + [Sequence(r, 0)]), |e.running|, [p.token]);
    }
  }

  lemma {:induction false} AdmitTold<K, H>(c: Config<K, H>, h: Calls, past: seq<(nat, Token)>, e: Engine<K>)
    requires Serving(c, e) && Told(c, h, past, e)
    ensures Told(c, h, past, Admit(c, e))
    decreases |e.waiting|
  {
    hide Serving, AdmitOne, Shaped, Told;
    ServingShape(c, e);
    if e.waiting != [] && |e.running| < c.maxBatch {
      AdmitOneServing(c, e);
      AdmitOneTold(c, h, past, e);
      var a := AdmitOne(c, e);
      if a.more && |a.e.waiting| < |e.waiting| { AdmitTold(c, h, past, a.e); }
    }
  }

  lemma PreemptTold<K, H>(c: Config<K, H>, h: Calls, past: seq<(nat, Token)>, e: Engine<K>)
    requires Told(c, h, past, e) && Shaped(e) && e.running != []
    ensures Told(c, h, past, Preempt(e))
  {
    var n, a := |e.running| - 1, Preempt(e);
    var r := e.running[n].req;
    PreemptBooks(c, e);
    hide Books, DistinctIds, Excused, Enrolled, Shaped, Spoken, Voices;
    assert forall i :: 0 <= i < |a.running| ==> a.running[i] == e.running[i];
    assert a.waiting == [r.(output := [])] + e.waiting;
    forall v | v in Voices(a) ensures Heard(past + a.emitted, false, v.0, v.1) {
      VoicesAre(a, v);
      VoicesAre(e, v);
    }
  }

  lemma DecodeTold<K, H>(c: Config<K, H>, h: Calls, past: seq<(nat, Token)>, e: Engine<K>)
    requires Told(c, h, past, e) && Shaped(e) && AllTight(e.st.w) && e.running != []
    ensures Told(c, h, past, Decode(c, e))
  {
    var s, toks := DecodeCases(c, e);
    hide Told, Shaped, AllTight, AcceptAll, Preempt, Decode;
    if Decode(c, e) == Preempt(e) {
      PreemptTold(c, h, past, e);
    } else {
      MovedTold(c, h, past, e, s);
      AcceptTold(c, h, past, e.(st := s), 0, toks);
    }
  }

  lemma StepTold<K, H>(c: Config<K, H>, h: Calls, past: seq<(nat, Token)>, e: Engine<K>)
    requires Serving(c, e) && Told(c, h, past, e)
    ensures Told(c, h, past, Step(c, e))
  {
    hide Told, Serving, AllTight, Decode, Admit, ApplyCancellations;
    CancelTold(c, h, past, e);
    CancelServing(c, e);
    var a := Admit(c, ApplyCancellations(c, e));
    AdmitTold(c, h, past, ApplyCancellations(c, e));
    if a.running != [] && Shaped(a) && AllTight(a.st.w) { DecodeTold(c, h, past, a); }
  }

  // -- cancellation, exactly -----------------------------------------------------------------------

  /** The elements whose id is in `ids`, or those whose id is not, in order. */
  function Picked(s: seq<Request>, ids: set<nat>, among: bool): seq<Request>
  {
    if s == [] then []
    else if s[0].id in ids <==> among then [s[0]] + Picked(s[1..], ids, among)
    else Picked(s[1..], ids, among)
  }

  lemma {:induction false} PickedAre(s: seq<Request>, ids: set<nat>, among: bool, x: Request)
    ensures x in Picked(s, ids, among) <==> x in s && (x.id in ids <==> among)
  {
    if s != [] {
      PickedAre(s[1..], ids, among, x);
      assert x in s <==> x == s[0] || x in s[1..];
    }
  }

  function Ended(s: seq<Request>, why: FinishReason): (r: seq<Request>)
    ensures |r| == |s|
  {
    seq(|s|, i requires 0 <= i < |s| => s[i].(reason := Some(why)))
  }

  lemma EndedCons(r: Request, s: seq<Request>, why: FinishReason)
    ensures Ended([r] + s, why) == [r.(reason := Some(why))] + Ended(s, why)
  {
  }

  /** From position `k` on the wanted requests of `s` are cut out, leaving `left`, and added to the outcomes. */
  ghost predicate Cuts(
    s: seq<Request>, k: nat, wanted: set<nat>, left: seq<Request>, newly: seq<Request>, newly': seq<Request>)
  {
    && k <= |s| && left == s[..k] + Picked(s[k..], wanted, false)
    && newly' == newly + Ended(Picked(s[k..], wanted, true), Cancelled)
  }

  lemma CutsNone(s: seq<Request>, wanted: set<nat>, newly: seq<Request>)
    ensures Cuts(s, |s|, wanted, s, newly, newly)
  {
  }

  lemma CutsNext(
    s: seq<Request>, k: nat, wanted: set<nat>, left: seq<Request>, newly: seq<Request>, newly': seq<Request>)
    requires k < |s|
    requires s[k].id in wanted ==>
               Cuts(RemoveAt(s, k), k, wanted, left, newly + [s[k].(reason := Some(Cancelled))], newly')
    requires s[k].id !in wanted ==> Cuts(s, k + 1, wanted, left, newly, newly')
    ensures Cuts(s, k, wanted, left, newly, newly')
  {
    var rest, r := s[k + 1..], s[k];
    PickedAt(s, k, wanted, true);
    PickedAt(s, k, wanted, false);
    var more, kept := Picked(rest, wanted, true), Picked(rest, wanted, false);
    EndedCons(r, more, Cancelled);
    hide Ended, Picked;
    if r.id in wanted {
      RemovedAt(s, k);
      Appended(newly, r.(reason := Some(Cancelled)), Ended(more, Cancelled));
    } else {
      assert s[..k + 1] == s[..k] + [r];
      Appended(s[..k], r, kept);
    }
  }

  lemma PickedAt(s: seq<Request>, k: nat, ids: set<nat>, among: bool)
    requires k < |s|
    ensures Picked(s[k..], ids, among) ==
            if s[k].id in ids <==> among then [s[k]] + Picked(s[k + 1..], ids, among)
            else Picked(s[k + 1..], ids, among)
  {
    assert s[k..][1..] == s[k + 1..];
  }

  lemma RemovedAt<T>(s: seq<T>, k: nat)
    requires k < |s|
    ensures k <= |RemoveAt(s, k)| && RemoveAt(s, k)[..k] == s[..k] && RemoveAt(s, k)[k..] == s[k + 1..]
  {
  }

  lemma Appended<T>(a: seq<T>, x: T, b: seq<T>)
    ensures a + [x] + b == a + ([x] + b)
  {
  }

  lemma {:induction false} CancelWaitingExact<K, H>(c: Config<K, H>, e: Engine<K>, wanted: set<nat>, k: nat)
    requires k <= |e.waiting|
    ensures var a := CancelWaiting(c, e, wanted, k);
            && a == e.(waiting := a.waiting, newly := a.newly, finished := a.finished, numFinished := a.numFinished)
            && Cuts(e.waiting, k, wanted, a.waiting, e.newly, a.newly)
    decreases |e.waiting| - k
  {
    hide Cuts, Newest;
    if k == |e.waiting| {
      CutsNone(e.waiting, wanted, e.newly);
    } else {
      if e.waiting[k].id in wanted {
        CancelWaitingExact(c, Record(c, e.(waiting := RemoveAt(e.waiting, k)), e.waiting[k], Cancelled), wanted, k);
      } else {
        CancelWaitingExact(c, e, wanted, k + 1);
      }
      CutsNext(e.waiting, k, wanted, CancelWaiting(c, e, wanted, k).waiting, e.newly,
               CancelWaiting(c, e, wanted, k).newly);
    }
  }

  lemma {:induction false} CancelRunningExact<K, H>(c: Config<K, H>, e: Engine<K>, wanted: set<nat>, k: nat)
    requires Shaped(e) && k <= |e.running|
    ensures var a := CancelRunning(c, e, wanted, k);
            && a == e.(running := a.running, st := a.st, newly := a.newly,
                       finished := a.finished, numFinished := a.numFinished)
            && Cuts(Reqs(e.running), k, wanted, Reqs(a.running), e.newly, a.newly)
    decreases |e.running| - k
  {
    hide Cuts, Newest, Shaped, Leave;
    var reqs := Reqs(e.running);
    if k == |e.running| {
      CutsNone(reqs, wanted, e.newly);
    } else {
      var r := reqs[k];
      if r.id in wanted {
        LeaveShape(e, k);
        var e1 := Record(c, Leave(e, k), r, Cancelled);
        SameShape(Leave(e, k), e1);
        CancelRunningExact(c, e1, wanted, k);
      } else {
        CancelRunningExact(c, e, wanted, k + 1);
      }
      var a := CancelRunning(c, e, wanted, k);
      CutsNext(reqs, k, wanted, Reqs(a.running), e.newly, a.newly);
    }
  }

  lemma SameShape<K>(e: Engine<K>, a: Engine<K>)
    requires Shaped(e) && a.st == e.st && a.running == e.running
    ensures Shaped(a)
  {
  }

  lemma LeaveShape<K>(e: Engine<K>, k: nat)
    requires Shaped(e) && k < |e.running|
    ensures var a := Leave(e, k);
            && a == e.(running := a.running, st := a.st) && Shaped(a)
            && Reqs(a.running) == RemoveAt(Reqs(e.running), k) && |a.running| == |e.running| - 1
  {
    CloseInv(e.st.w, k);
  }

  /**
    Cancelling ends exactly the live requests whose ids were asked for, those of the batch and then
    those of the queue, each in order and with the output it has; the others stay, in order.
   */
  lemma CancelsExactly<K, H>(c: Config<K, H>, e: Engine<K>)
    requires Shaped(e)
    ensures var (a, reqs) := (ApplyCancellations(c, e), Reqs(e.running));
            && a.cancels == {} && a.emitted == e.emitted && a.preemptions == e.preemptions
            && a.waiting == Picked(e.waiting, e.cancels, false)
            && Reqs(a.running) == Picked(reqs, e.cancels, false)
            && a.newly == e.newly + Ended(Picked(reqs, e.cancels, true), Cancelled)
                          + Ended(Picked(e.waiting, e.cancels, true), Cancelled)
            && (forall r :: r in a.waiting <==> r in e.waiting && r.id !in e.cancels)
            && (forall r :: r in Reqs(a.running) <==> r in reqs && r.id !in e.cancels)
            && (forall r :: r in a.newly <==>
                  r in e.newly || CutFrom(reqs, e.cancels, r) || CutFrom(e.waiting, e.cancels, r))
  {
    CancelsInOrder(c, e);
    var a, reqs := ApplyCancellations(c, e), Reqs(e.running);
    hide Picked, Ended, ApplyCancellations, CutFrom;
    forall r
      ensures r in a.waiting <==> r in e.waiting && r.id !in e.cancels
      ensures r in Reqs(a.running) <==> r in reqs && r.id !in e.cancels
      ensures r in a.newly <==> r in e.newly || CutFrom(reqs, e.cancels, r) || CutFrom(e.waiting, e.cancels, r)
    {
      PickedAre(e.waiting, e.cancels, false, r);
      PickedAre(reqs, e.cancels, false, r);
      EndedAre(reqs, e.cancels, r);
      EndedAre(e.waiting, e.cancels, r);
    }
  }

  /** A cancellation asked for takes effect the next time cancellations are applied, or at the next step. */
  lemma CancelLands<K, H>(c: Config<K, H>, e: Engine<K>, id: nat)
    requires Shaped(e)
    ensures var a := ApplyCancellations(c, Apply(c, e, RequestCancel(id)));
            && (forall r :: r in a.waiting || r in Reqs(a.running) ==> r.id != id)
            && (forall r :: (r in e.waiting || r in Reqs(e.running)) && r.id == id ==>
                  r.(reason := Some(Cancelled)) in a.newly)
  {
    var e1 := Apply(c, e, RequestCancel(id));
    SameShape(e, e1);
    CancelsExactly(c, e1);
    hide ApplyCancellations, Picked, Ended;
  }

  /** `r` is a request of `s` with a wanted id, ended as cancelled. */
  ghost predicate CutFrom(s: seq<Request>, wanted: set<nat>, r: Request)
  {
    exists q :: q in s && q.id in wanted && r == q.(reason := Some(Cancelled))
  }

  lemma EndedAre(s: seq<Request>, wanted: set<nat>, r: Request)
    ensures r in Ended(Picked(s, wanted, true), Cancelled) <==> CutFrom(s, wanted, r)
  {
    var p := Picked(s, wanted, true);
    if r in Ended(p, Cancelled) {
      var i :| 0 <= i < |p| && Ended(p, Cancelled)[i] == r;
      PickedAre(s, wanted, true, p[i]);
    }
    if q :| q in s && q.id in wanted && r == q.(reason := Some(Cancelled)) {
      PickedAre(s, wanted, true, q);
      var i :| 0 <= i < |p| && p[i] == q;
      assert Ended(p, Cancelled)[i] == r;
    }
  }

  lemma CancelsInOrder<K, H>(c: Config<K, H>, e: Engine<K>)
    requires Shaped(e)
    ensures var (a, reqs) := (ApplyCancellations(c, e), Reqs(e.running));
            && a.cancels == {} && a.emitted == e.emitted && a.preemptions == e.preemptions
            && a.waiting == Picked(e.waiting, e.cancels, false)
            && Reqs(a.running) == Picked(reqs, e.cancels, false)
            && a.newly == e.newly + Ended(Picked(reqs, e.cancels, true), Cancelled)
                          + Ended(Picked(e.waiting, e.cancels, true), Cancelled)
  {
    var e0, reqs := e.(cancels := {}), Reqs(e.running);
    assert reqs[0..] == reqs && e.waiting[0..] == e.waiting;
    SameShape(e, e0);
    if e.cancels == {} {
      NoneWanted(reqs);
      NoneWanted(e.waiting);
      assert e.newly + [] + [] == e.newly;
    } else {
      hide Picked, Ended, Shaped;
      CancelRunningExact(c, e0, e.cancels, 0);
      CancelWaitingExact(c, CancelRunning(c, e0, e.cancels, 0), e.cancels, 0);
    }
  }

  lemma {:induction false} NoneWanted(s: seq<Request>)
    ensures Picked(s, {}, false) == s && Picked(s, {}, true) == []
  {
    if s != [] { NoneWanted(s[1..]); }
  }

  // -- over every run --------------------------------------------------------------------------------

  /** What a run has emitted and handed over to `drain_emitted`. */
  ghost function Handed<K, H>(c: Config<K, H>, e: Engine<K>, ops: seq<Op>): seq<(nat, Token)>
  {
    if ops == [] then []
    else
      var n := |ops| - 1;
      Handed(c, e, ops[..n]) + if ops[n].DrainEmitted? then Run(c, e, ops[..n]).emitted else []
  }

  /** Everything emitted over a run. */
  ghost function Emitted<K, H>(c: Config<K, H>, e: Engine<K>, ops: seq<Op>): seq<(nat, Token)>
  {
    Handed(c, e, ops) + Run(c, e, ops).emitted
  }

  lemma NewcomerUnheard<K, H>(c: Config<K, H>, h: Calls, past: seq<(nat, Token)>, e: Engine<K>, r: Request)
    requires Told(c, h, past, e) && DistinctIds(e.arrivals + [Core(r)])
    ensures r.id !in h.admitted && r.id !in h.refused && Spoken(past + e.emitted, r.id) == []
  {
    hide Books, Excused, Heard, Voices, Spoken;
    var all, n := e.arrivals + [Core(r)], |e.arrivals|;
    forall i | 0 <= i < n ensures e.arrivals[i].id != r.id { assert all[i].id != all[n].id; }
    assert r.id !in IdSet(e.arrivals);
    SpokenNone(past + e.emitted, r.id);
  }

  lemma EnrolledMore(h: Calls, arrivals: seq<Request>, r: Request, admit: bool)
    requires Enrolled(h, arrivals) && r.id !in h.admitted && r.id !in h.refused
    ensures Enrolled(Heeded(h, AddRequest(r, admit)), arrivals + [Core(r)])
  {
    var all := arrivals + [Core(r)];
    assert forall q :: q in arrivals ==> q in all;
    assert Core(r) in all && IdSet(all) == IdSet(arrivals) + {r.id};
  }

  lemma AddTold<K, H>(c: Config<K, H>, h: Calls, past: seq<(nat, Token)>, e: Engine<K>, r: Request, admit: bool)
    requires Told(c, h, past, e) && DistinctIds(e.arrivals + [Core(r)]) && WaitOK(r)
    ensures Told(c, Heeded(h, AddRequest(r, admit)), past, Add(c, e, r, admit))
  {
    var a := Add(c, e, r, admit);
    NewcomerUnheard(c, h, past, e, r);
    AddBooks(c, e, r, admit);
    EnrolledMore(h, e.arrivals, r, admit);
    hide Books, DistinctIds, Enrolled, Voices, Spoken, Newest, Heeded;
    AddKnown(c, h, past, e, r, admit);
    forall v | v in Voices(a) ensures Heard(past + a.emitted, a.preemptions == 0, v.0, v.1) {
      VoicesAre(a, v);
      VoicesAre(e, v);
    }
  }

  lemma AddKnown<K, H>(c: Config<K, H>, h: Calls, past: seq<(nat, Token)>, e: Engine<K>, r: Request, admit: bool)
    requires Known(h, e, past + e.emitted) && forall q :: q in Outcomes(e) ==> Excused(h, q)
    ensures var (a, g) := (Add(c, e, r, admit), Heeded(h, AddRequest(r, admit)));
            Known(g, a, past + a.emitted) && forall q :: q in Outcomes(a) ==> Excused(g, q)
  {
    RecordOutcomes(c, e, r, Rejected);
    hide Newest;
    var a, g := Add(c, e, r, admit), Heeded(h, AddRequest(r, admit));
    assert forall q :: q in Outcomes(a) ==> q in Outcomes(e) || (!admit && q == r.(reason := Some(Rejected)));
  }

  lemma ApplyTold<K, H>(c: Config<K, H>, h: Calls, past: seq<(nat, Token)>, e: Engine<K>, op: Op)
    requires Serving(c, e) && Told(c, h, past, e) && OpOK(op) && DistinctIds(e.arrivals + Arriving(op))
    ensures Told(c, Heeded(h, op), past + if op.DrainEmitted? then e.emitted else [], Apply(c, e, op))
  {
    assert past + [] == past;
    match op
    case AddRequest(r, admit) => AddTold(c, h, past, e, r, admit);
    case ApplyPending => CancelTold(c, h, past, e);
    case RunStep => StepTold(c, h, past, e);
    case RequestCancel(id) => OtherTold(c, h, past, e, op);
    case DrainEmitted => OtherTold(c, h, past, e, op);
    case Drain => OtherTold(c, h, past, e, op);
  }

  lemma OtherTold<K, H>(c: Config<K, H>, h: Calls, past: seq<(nat, Token)>, e: Engine<K>, op: Op)
    requires Told(c, h, past, e) && (op.RequestCancel? || op.DrainEmitted? || op.Drain?)
    ensures Told(c, Heeded(h, op), past + if op.DrainEmitted? then e.emitted else [], Apply(c, e, op))
  {
    var a := Apply(c, e, op);
    var past' := past + if op.DrainEmitted? then e.emitted else [];
    assert past' + a.emitted == past + e.emitted;
    assert Outcomes(a) == Outcomes(e) && Everyone(a) == Everyone(e);
    SameBooks(c, e, a);
    hide Books, DistinctIds, Heard, Everyone, Outcomes;
  }

  lemma DistinctPrefix(a: seq<Request>, b: seq<Request>)
    requires DistinctIds(a + b)
    ensures DistinctIds(a)
  {
    assert forall i :: 0 <= i < |a| ==> a[i] == (a + b)[i];
  }

  lemma {:induction false} RunTold<K, H>(c: Config<K, H>, e: Engine<K>, ops: seq<Op>)
    requires Serving(c, e) && Told(c, Calls({}, {}, {}), [], e) && e.arrivals == []
    requires (forall i :: 0 <= i < |ops| ==> OpOK(ops[i])) && DistinctIds(Submitted(ops))
    ensures Told(c, CallsOf(ops), Handed(c, e, ops), Run(c, e, ops))
  {
    if ops != [] {
      var n := |ops| - 1;
      var past := ops[..n];
      DistinctPrefix(Submitted(past), Arriving(ops[n]));
      hide Serving, Told, DistinctIds, Apply, OpOK;
      RunTold(c, e, past);
      RunServing(c, e, past);
      RunArrivals(c, e, past);
      assert [] + Submitted(past) == Submitted(past);
      ApplyTold(c, CallsOf(past), Handed(c, e, past), Run(c, e, past), ops[n]);
    }
  }

  lemma BootTold<K, H>(c: Config<K, H>, bs: nat, slab: seq<seq<K>>, n: nat)
    ensures Told(c, Calls({}, {}, {}), [], Boot(bs, slab, n))
  {
    BootBooks(c, bs, slab, n);
    hide Books;
    var e: Engine<K> := Boot(bs, slab, n);
    assert Everyone(e) == [];
  }

  /**
    Over every run with distinct ids. The batch never exceeds its limit. An outcome is REJECTED if
    and only if its request was refused on arrival, and CANCELLED only if its cancellation was asked
    for. The tokens emitted for a request end with its output, whatever was preempted and recomputed,
    and are exactly its output in a run without preemption; nothing is emitted for any other id.
   */
  lemma Reported<K, H>(c: Config<K, H>, bs: nat, slab: seq<seq<K>>, n: nat, ops: seq<Op>, r: Request)
    requires BootOK(c, bs, slab, n) && (forall i :: 0 <= i < |ops| ==> OpOK(ops[i])) && DistinctIds(Submitted(ops))
    requires var e := Run(c, Boot(bs, slab, n), ops);
             r in e.newly || r in e.drained || (exists i :: 0 <= i < |e.running| && r == e.running[i].req)
    ensures var (e, h) := (Run(c, Boot(bs, slab, n), ops), CallsOf(ops));
            var said := Spoken(Emitted(c, Boot(bs, slab, n), ops), r.id);
            && |e.running| <= c.maxBatch
            && (r in e.newly || r in e.drained ==> (r.reason == Some(Rejected) <==> r.id in h.refused))
            && (r.reason == Some(Cancelled) && (r in e.newly || r in e.drained) ==> r.id in h.cancelled)
            && |r.output| <= |said| && r.output == said[|said| - |r.output|..]
            && (e.preemptions == 0 ==> said == r.output)
  {
    hide Run, Boot, Serving, Books, DistinctIds, Submitted, BootOK, Handed, Spoken, OpOK, Known;
    var b: Engine<K> := Boot(bs, slab, n);
    BootServing(c, bs, slab, n);
    BootTold(c, bs, slab, n);
    BootEmpty<K>(bs, slab, n);
    RunTold(c, b, ops);
    var e := Run(c, b, ops);
    VoicesAre(e, (r.id, r.output));
    assert r in e.newly || r in e.drained ==> r in Outcomes(e);
  }

  lemma BootEmpty<K>(bs: nat, slab: seq<seq<K>>, n: nat)
    ensures Boot(bs, slab, n).arrivals == []
  {
  }

  // -- a cancelled request stays so --------------------------------------------------------------

  lemma DistinctHalves(a: seq<Request>, b: seq<Request>, x: Request, r: Request)
    requires DistinctIds(a + b) && x in a && r in b
    ensures x.id != r.id
  {
    var i :| 0 <= i < |a| && a[i] == x;
    var j :| 0 <= j < |b| && b[j] == r;
    assert (a + b)[i] == x && (a + b)[|a| + j] == r;
  }

  /** Nobody comes back: an id without a live request has none later, submissions aside. */
  lemma StillOver<K, H>(c: Config<K, H>, e: Engine<K>, a: Engine<K>, r: Request)
    requires Books(c, e) && Books(c, a) && Follows(e, a) && DistinctIds(e.arrivals)
    requires r in Reqs(a.running) + a.waiting
    ensures exists q :: q in Reqs(e.running) + e.waiting && q.id == r.id
  {
    EveryoneBag(c, e);
    EveryoneBag(c, a);
    EveryoneDistinct(c, a);
    FollowsMeans(e, a);
    OutcomesGrow(e, a);
    hide *;
    EveryoneIs(e);
    EveryoneIs(a);
    Missing(e.arrivals, Outcomes(e), Reqs(e.running) + e.waiting, Outcomes(a), Reqs(a.running) + a.waiting, r);
  }

  lemma EveryoneIs<K>(e: Engine<K>)
    ensures Everyone(e) == Outcomes(e) + (Reqs(e.running) + e.waiting)
  {
  }

  lemma OutcomesGrow<K>(e: Engine<K>, a: Engine<K>)
    requires Follows(e, a)
    ensures forall q :: q in Outcomes(e) ==> q in Outcomes(a)
  {
  }

  lemma Missing(
    rs: seq<Request>, out: seq<Request>, live: seq<Request>, out': seq<Request>, live': seq<Request>, r: Request)
    requires multiset(rs) == multiset(Cores(out + live)) == multiset(Cores(out' + live')) && DistinctIds(out' + live')
    requires (forall q :: q in out ==> q in out') && r in live'
    ensures exists q :: q in live && q.id == r.id
  {
    hide Cores, DistinctIds;
    InCores(out' + live', r);
    var q := CoreFrom(out + live, rs, Core(r));
    if q in out { DistinctHalves(out', live', q, r); }
  }

  lemma InCores(s: seq<Request>, r: Request)
    requires r in s
    ensures Core(r) in multiset(Cores(s))
  {
    var i :| 0 <= i < |s| && s[i] == r;
    assert Cores(s)[i] == Core(r);
  }

  lemma CoreFrom(s: seq<Request>, rs: seq<Request>, k: Request) returns (q: Request)
    requires multiset(rs) == multiset(Cores(s)) && k in multiset(rs)
    ensures q in s && Core(q) == k && q.id == k.id
  {
    assert k in Cores(s);
    var i :| 0 <= i < |Cores(s)| && Cores(s)[i] == k;
    q := s[i];
  }

  /**
    A cancellation asked for is done by the next step: whoever had the id is a CANCELLED outcome with
    what it had, and nobody live has it.
   */
  lemma StepHeeds<K, H>(c: Config<K, H>, bs: nat, slab: seq<seq<K>>, n: nat, ops: seq<Op>, id: nat)
    requires BootOK(c, bs, slab, n) && (forall i :: 0 <= i < |ops| ==> OpOK(ops[i])) && DistinctIds(Submitted(ops))
    ensures var e := Run(c, Boot(bs, slab, n), ops);
            var a := Step(c, Apply(c, e, RequestCancel(id)));
            && (forall r :: r in Reqs(a.running) + a.waiting ==> r.id != id)
            && (forall r :: r in Reqs(e.running) + e.waiting && r.id == id ==> r.(reason := Some(Cancelled)) in a.newly)
  {
    hide *;
    var b: Engine<K> := Boot(bs, slab, n);
    BootServing(c, bs, slab, n);
    BootTold(c, bs, slab, n);
    BootEmpty<K>(bs, slab, n);
    RunTold(c, b, ops);
    RunServing(c, b, ops);
    var e := Run(c, b, ops);
    ToldBooks(c, CallsOf(ops), Handed(c, b, ops), e);
    ServingShape(c, e);
    Heeds(c, e, id);
  }

  lemma ToldBooks<K, H>(c: Config<K, H>, h: Calls, past: seq<(nat, Token)>, e: Engine<K>)
    requires Told(c, h, past, e)
    ensures Books(c, e) && DistinctIds(e.arrivals)
  {
  }

  lemma Heeds<K, H>(c: Config<K, H>, e: Engine<K>, id: nat)
    requires Shaped(e) && Books(c, e) && DistinctIds(e.arrivals)
    ensures var a := Step(c, Apply(c, e, RequestCancel(id)));
            && (forall r :: r in Reqs(a.running) + a.waiting ==> r.id != id)
            && (forall r :: r in Reqs(e.running) + e.waiting && r.id == id ==> r.(reason := Some(Cancelled)) in a.newly)
  {
    var e1 := Apply(c, e, RequestCancel(id));
    assert Books(c, e1) && e1.arrivals == e.arrivals;
    hide *;
    var e2, a := ApplyCancellations(c, e1), Step(c, e1);
    CancelLands(c, e, id);
    CancelBooks(c, e1);
    CancelFollows(c, e1);
    StepBooks(c, e1);
    StepAfterCancels(c, e1);
    FollowsMeans(e1, e2);
    FollowsMeans(e2, a);
    forall r | r in Reqs(a.running) + a.waiting ensures r.id != id { StillOver(c, e2, a, r); }
  }

  lemma FollowsMeans<K>(e: Engine<K>, a: Engine<K>)
    requires Follows(e, a)
    ensures a.arrivals == e.arrivals && e.newly <= a.newly
  {
  }

  lemma StepAfterCancels<K, H>(c: Config<K, H>, e: Engine<K>)
    ensures Follows(ApplyCancellations(c, e), Step(c, e))
  {
    hide Admit, Decode, AllTight, ApplyCancellations;
    var a := Admit(c, ApplyCancellations(c, e));
    AdmitFollows(c, ApplyCancellations(c, e));
    if a.running != [] && Shaped(a) && AllTight(a.st.w) { DecodeFollows(c, a); }
  }
}
