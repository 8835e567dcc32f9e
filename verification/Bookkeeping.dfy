/**
  Conservation and order: every submitted request is in exactly one place, is collected
  exactly once, and the batch followed by the queue stays in arrival order.
 */
module Bookkeeping {
  import opened Wrappers
  import opened Paging
  import opened Batch
  import opened Transformer
  import opened PrefixCaching
  import opened Content
  import opened Requests
  import opened Prefilling
  import opened Scheduling

  /** The batch's requests, as they were submitted. */
  function RunCores(q: seq<Sequence>): (r: seq<Request>)
    ensures |r| == |q|
  {
    seq(|q|, i requires 0 <= i < |q| => Core(q[i].req))
  }

  function Cores(q: seq<Request>): (r: seq<Request>)
    ensures |r| == |q|
  {
    seq(|q|, i requires 0 <= i < |q| => Core(q[i]))
  }

  /** The batch followed by the queue. */
  function LiveCores<K>(e: Engine<K>): seq<Request>
  {
    RunCores(e.running) + Cores(e.waiting)
  }

  /** Every outcome so far, collected or not, in the order they happened. */
  function Outcomes<K>(e: Engine<K>): seq<Request>
  {
    e.drained + e.newly
  }

  /** `a` is `b` with some elements left out. */
  ghost predicate Subseq<T>(a: seq<T>, b: seq<T>)
    decreases |b|
  {
    a == [] || (b != [] && ( || Subseq(a, b[..|b| - 1])
                             || (a[|a| - 1] == b[|b| - 1] && Subseq(a[..|a| - 1], b[..|b| - 1]))))
  }

  lemma SubseqSnoc<T>(a: seq<T>, b: seq<T>, x: T)
    requires Subseq(a, b)
    ensures Subseq(a, b + [x]) && Subseq(a + [x], b + [x])
  {
    assert (b + [x])[..|b|] == b && (a + [x])[..|a|] == a;
  }

  lemma {:induction false} SubseqRemove<T>(a: seq<T>, b: seq<T>, k: nat)
    requires Subseq(a, b) && k < |a|
    ensures Subseq(RemoveAt(a, k), b)
    decreases |b|
  {
    var n, b' := |a| - 1, b[..|b| - 1];
    if Subseq(a, b') {
      SubseqRemove(a, b', k);
    } else if k == n {
      assert RemoveAt(a, k) == a[..n];
    } else {
      SubseqRemove(a[..n], b', k);
      var r := RemoveAt(a, k);
      assert r[..|r| - 1] == RemoveAt(a[..n], k) && r[|r| - 1] == a[n];
    }
  }

  /** The books over the live requests, the submitted ones and the outcomes. */
  ghost predicate Ledger(
    h: nat, live: seq<Request>, arrivals: seq<Request>, out: seq<Request>, num: nat, window: seq<Request>)
  {
    && Subseq(live, arrivals)
    && multiset(arrivals) == multiset(live) + multiset(Cores(out))
    && num == |out|
    && window == Newest(out, h)
  }

  ghost predicate Books<K, H>(c: Config<K, H>, e: Engine<K>)
  {
    Ledger(c.history, LiveCores(e), e.arrivals, Outcomes(e), e.numFinished, e.finished)
  }

  lemma NewestSnoc<T>(s: seq<T>, x: T, n: nat)
    ensures Newest(Newest(s, n) + [x], n) == Newest(s + [x], n)
  {
  }

  lemma MultisetRemove<T>(s: seq<T>, k: nat)
    requires k < |s|
    ensures multiset(s) == multiset(RemoveAt(s, k)) + multiset{s[k]}
  {
    assert s == s[..k] + [s[k]] + s[k + 1..];
  }

  lemma CoresSnoc(s: seq<Request>, r: Request)
    ensures Cores(s + [r]) == Cores(s) + [Core(r)]
  {
  }

  /** One live request, at position `k`, becomes an outcome. */
  lemma LedgerFinish(
    h: nat, live: seq<Request>, arrivals: seq<Request>, out: seq<Request>, num: nat, window: seq<Request>,
                     k: nat, done: Request)
    requires Ledger(h, live, arrivals, out, num, window) && k < |live| && live[k] == Core(done)
    ensures Ledger(h, RemoveAt(live, k), arrivals, out + [done], num + 1, Newest(window + [done], h))
  {
    SubseqRemove(live, arrivals, k);
    MultisetRemove(live, k);
    NewestSnoc(out, done, h);
    CoresSnoc(out, done);
    hide Subseq, RemoveAt, Newest, Cores;
  }

  lemma LedgerAdd(h: nat, live: seq<Request>, arrivals: seq<Request>, out: seq<Request>, num: nat, window: seq<Request>,
                  q: Request)
    requires Ledger(h, live, arrivals, out, num, window)
    ensures Ledger(h, live + [q], arrivals + [q], out, num, window)
  {
    SubseqSnoc(live, arrivals, q);
    hide Subseq, Newest, Cores;
  }

  lemma LedgerRefuse(
    h: nat, live: seq<Request>, arrivals: seq<Request>, out: seq<Request>, num: nat, window: seq<Request>,
                     done: Request)
    requires Ledger(h, live, arrivals, out, num, window)
    ensures Ledger(h, live, arrivals + [Core(done)], out + [done], num + 1, Newest(window + [done], h))
  {
    SubseqSnoc(live, arrivals, Core(done));
    NewestSnoc(out, done, h);
    CoresSnoc(out, done);
    hide Subseq, Newest, Cores;
  }

  /** The same requests, in the same order, and no new outcome. */
  lemma SameBooks<K, H>(c: Config<K, H>, e: Engine<K>, e': Engine<K>)
    requires Books(c, e) && LiveCores(e') == LiveCores(e) && e'.arrivals == e.arrivals
    requires Outcomes(e') == Outcomes(e) && e'.numFinished == e.numFinished && e'.finished == e.finished
    ensures Books(c, e')
  {
    hide Ledger, LiveCores;
  }

  lemma RecordOutcomes<K, H>(c: Config<K, H>, e: Engine<K>, r: Request, why: FinishReason)
    ensures Outcomes(Record(c, e, r, why)) == Outcomes(e) + [r.(reason := Some(why))]
  {
  }

  lemma FinishBooks<K, H>(c: Config<K, H>, e: Engine<K>, e1: Engine<K>, k: nat, r: Request, why: FinishReason)
    requires Books(c, e) && k < |LiveCores(e)| && LiveCores(e)[k] == Core(r)
             && LiveCores(e1) == RemoveAt(LiveCores(e), k)
    requires e1.arrivals == e.arrivals && e1.drained == e.drained && e1.newly == e.newly
    requires e1.numFinished == e.numFinished && e1.finished == e.finished
    ensures Books(c, Record(c, e1, r, why))
  {
    hide Ledger, RunCores, Cores, RemoveAt, Newest;
    RecordOutcomes(c, e1, r, why);
    LedgerFinish(c.history, LiveCores(e), e.arrivals, Outcomes(e), e.numFinished, e.finished, k,
      r.(reason := Some(why)));
  }

  lemma RemoveRunning<K>(e: Engine<K>, k: nat)
    requires Shaped(e) && k < |e.running|
    ensures LiveCores(Leave(e, k)) == RemoveAt(LiveCores(e), k) && LiveCores(e)[k] == Core(e.running[k].req)
  {
    assert RunCores(RemoveAt(e.running, k)) == RemoveAt(RunCores(e.running), k);
  }

  lemma LeaveBooks<K, H>(c: Config<K, H>, e: Engine<K>, k: nat, r: Request, why: FinishReason)
    requires Books(c, e) && Shaped(e) && k < |e.running| && Core(r) == Core(e.running[k].req)
    ensures Books(c, Record(c, Leave(e, k), r, why))
  {
    RemoveRunning(e, k);
    FinishBooks(c, e, Leave(e, k), k, r, why);
  }

  lemma DropBooks<K, H>(c: Config<K, H>, e: Engine<K>, e1: Engine<K>, k: nat, why: FinishReason)
    requires Books(c, e) && k < |e.waiting| && e1 == e.(waiting := RemoveAt(e.waiting, k), st := e1.st)
    ensures Books(c, Record(c, e1, e.waiting[k], why))
  {
    var i := |e.running| + k;
    assert Cores(e1.waiting) == RemoveAt(Cores(e.waiting), k);
    assert LiveCores(e1) == RemoveAt(LiveCores(e), i);
    FinishBooks(c, e, e1, i, e.waiting[k], why);
  }

  lemma {:induction false} CancelRunningBooks<K, H>(c: Config<K, H>, e: Engine<K>, wanted: set<nat>, k: nat)
    requires Books(c, e)
    ensures Books(c, CancelRunning(c, e, wanted, k))
    decreases |e.running| - k
  {
    hide Books, Shaped;
    if Shaped(e) && k < |e.running| {
      if e.running[k].req.id in wanted {
        LeaveBooks(c, e, k, e.running[k].req, Cancelled);
        CancelRunningBooks(c, Record(c, Leave(e, k), e.running[k].req, Cancelled), wanted, k);
      } else {
        CancelRunningBooks(c, e, wanted, k + 1);
      }
    }
  }

  lemma {:induction false} CancelWaitingBooks<K, H>(c: Config<K, H>, e: Engine<K>, wanted: set<nat>, k: nat)
    requires Books(c, e)
    ensures Books(c, CancelWaiting(c, e, wanted, k))
    decreases |e.waiting| - k
  {
    hide Books;
    if k < |e.waiting| {
      if e.waiting[k].id in wanted {
        var e1 := e.(waiting := RemoveAt(e.waiting, k));
        DropBooks(c, e, e1, k, Cancelled);
        CancelWaitingBooks(c, Record(c, e1, e.waiting[k], Cancelled), wanted, k);
      } else {
        CancelWaitingBooks(c, e, wanted, k + 1);
      }
    }
  }

  lemma CancelBooks<K, H>(c: Config<K, H>, e: Engine<K>)
    requires Books(c, e)
    ensures Books(c, ApplyCancellations(c, e))
  {
    var e0 := e.(cancels := {});
    SameBooks(c, e, e0);
    hide Books;
    CancelRunningBooks(c, e0, e.cancels, 0);
    CancelWaitingBooks(c, CancelRunning(c, e0, e.cancels, 0), e.cancels, 0);
  }

  /** Moving the head of the queue to the end of the batch moves nothing in arrival order. */
  lemma JoinBooks<K, H>(c: Config<K, H>, e: Engine<K>, s: Store<seq<K>>, t: Token)
    requires Books(c, e) && e.waiting != []
    ensures Books(c, Joined(c, e.(st := s, waiting := e.waiting[1..]), e.waiting[0], t))
  {
    var r := e.waiting[0];
    var (r', f) := Accept(c, r, t);
    var e0 := e.(st := s, waiting := e.waiting[1..]);
    var e1 := Emit(e0.(running := e0.running + [Sequence(r', t)]), r, r', t);
    assert RunCores(e1.running) == RunCores(e.running) + [Core(r)];
    assert Cores(e.waiting) == [Core(r)] + Cores(e1.waiting);
    assert LiveCores(e1) == LiveCores(e);
    SameBooks(c, e, e1);
    hide Books, Shaped;
    if f.Some? && Shaped(e1) {
      LeaveBooks(c, e1, |e.running|, r', f.value);
    }
  }

  lemma MovedBooks<K, H>(c: Config<K, H>, e: Engine<K>, s: Store<seq<K>>)
    requires Books(c, e)
    ensures Books(c, e.(st := s))
  {
    SameBooks(c, e, e.(st := s));
  }

  lemma AdmitOneBooks<K, H>(c: Config<K, H>, e: Engine<K>)
    requires Books(c, e) && Shaped(e) && e.waiting != [] && e.waiting[0].prompt != []
    ensures Books(c, AdmitOne(c, e).e)
  {
    hide Books, Shaped, Joined, AdmitOne;
    var a := AdmitOne(c, e).e;
    AdmitOneCases(c, e);
    assert e.waiting[1..] == RemoveAt(e.waiting, 0);
    if why :| a == Record(c, e.(st := a.st, waiting := e.waiting[1..]), e.waiting[0], why) {
      DropBooks(c, e, e.(st := a.st, waiting := e.waiting[1..]), 0, why);
    } else if s, t :| a == Joined(c, e.(st := s, waiting := e.waiting[1..]), e.waiting[0], t) {
      JoinBooks(c, e, s, t);
    } else {
      MovedBooks(c, e, a.st);
    }
  }

  /** An admission attempt changes only the store, refuses the head, or lets it join. */
  lemma AdmitOneCases<K, H>(c: Config<K, H>, e: Engine<K>)
    requires Shaped(e) && e.waiting != [] && e.waiting[0].prompt != []
    ensures var a := AdmitOne(c, e).e;
      || a == e.(st := a.st)
      || (exists why :: a == Record(c, e.(st := a.st, waiting := e.waiting[1..]), e.waiting[0], why))
      || (exists s, t :: a == Joined(c, e.(st := s, waiting := e.waiting[1..]), e.waiting[0], t))
  {
    hide StoreOK, Joined, Prefill, EnsureFree, Abandon;
  }

  lemma {:induction false} AdmitBooks<K, H>(c: Config<K, H>, e: Engine<K>)
    requires Books(c, e)
    ensures Books(c, Admit(c, e))
    decreases |e.waiting|
  {
    hide Books, Shaped, AdmitOne;
    if Shaped(e) && e.waiting != [] && |e.running| < c.maxBatch && e.waiting[0].prompt != [] {
      AdmitOneBooks(c, e);
      var a := AdmitOne(c, e);
      if a.more && |a.e.waiting| < |e.waiting| {
        AdmitBooks(c, a.e);
      }
    }
  }

  lemma EmitBooks<K, H>(c: Config<K, H>, e: Engine<K>, k: nat, t: Token)
    requires Books(c, e) && k < |e.running|
    ensures var r := Accept(c, e.running[k].req, t).0;
            var e1 := Emit(e.(running := e.running[k := Sequence(r, t)]), e.running[k].req, r, t);
            && Books(c, e1) && |e1.running| == |e.running| && e1.running[k].req == r
            && (Shaped(e) ==> Shaped(e1))
  {
    var r := Accept(c, e.running[k].req, t).0;
    var e1 := Emit(e.(running := e.running[k := Sequence(r, t)]), e.running[k].req, r, t);
    assert RunCores(e1.running) == RunCores(e.running);
    SameBooks(c, e, e1);
  }

  lemma {:induction false} AcceptBooks<K, H>(c: Config<K, H>, e: Engine<K>, k: nat, toks: seq<Token>)
    requires Books(c, e)
    ensures Books(c, AcceptAll(c, e, k, toks))
    decreases |toks|
  {
    hide Books, Shaped, Accept, Emit, Leave, Record;
    if toks != [] && k < |e.running| && Shaped(e) {
      var (r, f) := Accept(c, e.running[k].req, toks[0]);
      var e1 := Emit(e.(running := e.running[k := Sequence(r, toks[0])]), e.running[k].req, r, toks[0]);
      EmitBooks(c, e, k, toks[0]);
      if f.None? {
        AcceptBooks(c, e1, k + 1, toks[1..]);
      } else {
        LeaveBooks(c, e1, k, r, f.value);
        AcceptBooks(c, Record(c, Leave(e1, k), r, f.value), k, toks[1..]);
      }
    }
  }

  /** A preempted request goes back to the head of the queue: the order is untouched. */
  lemma PreemptBooks<K, H>(c: Config<K, H>, e: Engine<K>)
    requires Books(c, e) && Shaped(e) && e.running != []
    ensures Books(c, Preempt(e))
  {
    var n, e' := |e.running| - 1, Preempt(e);
    assert RunCores(e.running) == RunCores(e'.running) + [Core(e.running[n].req)];
    assert Cores(e'.waiting) == [Core(e.running[n].req)] + Cores(e.waiting);
    assert LiveCores(e') == LiveCores(e);
    SameBooks(c, e, e');
  }

  lemma StepBooks<K, H>(c: Config<K, H>, e: Engine<K>)
    requires Books(c, e)
    ensures Books(c, Step(c, e))
  {
    hide Books, AllTight, Decode, Admit, ApplyCancellations;
    CancelBooks(c, e);
    var a := Admit(c, ApplyCancellations(c, e));
    AdmitBooks(c, ApplyCancellations(c, e));
    if a.running != [] && Shaped(a) && AllTight(a.st.w) {
      DecodeBooks(c, a);
    }
  }

  ghost function Heads<K, H>(c: Config<K, H>, y: Pass<K, H>): seq<Token>
  {
    seq(|y.hs|, i requires 0 <= i < |y.hs| => c.m.head(y.hs[i]))
  }

  lemma DecodeUnfold<K, H>(c: Config<K, H>, e: Engine<K>, r: World<seq<K>>)
    requires Shaped(e) && AllTight(e.st.w) && e.running != []
    requires Prepare(e.st.w, |e.running|) == Outcome(true, r) && |e.running| <= |r.tables|
    ensures var y := RunPlan(c.m, DecodePlan(r, |e.running|), Pass(r.slab, Pending(c, e)));
      Decode(c, e) == AcceptAll(c, e.(st := e.st.(w := r.(slab := y.slab))), 0, Heads(c, y))
  {
    hide AcceptAll, RunPlan, DecodePlan, Prepare, Inv, StoreOK, AllTight;
  }

  /** A decode step preempts, or moves the store and settles the batch. */
  lemma DecodeCases<K, H>(c: Config<K, H>, e: Engine<K>) returns (s: Store<seq<K>>, toks: seq<Token>)
    requires Shaped(e) && AllTight(e.st.w) && e.running != []
    ensures Decode(c, e) == Preempt(e) || Decode(c, e) == AcceptAll(c, e.(st := s), 0, toks)
  {
    var n := |e.running|;
    PrepareAtomic(e.st.w, n);
    var r := Prepare(e.st.w, n);
    s, toks := e.st, [];
    if r.ok {
      hide StoreOK, Inv, Prepare, AcceptAll, RunPlan, DecodePlan, AllTight, Committed;
      DecodeUnfold(c, e, r.w);
      hide Decode;
      var y := RunPlan(c.m, DecodePlan(r.w, n), Pass(r.w.slab, Pending(c, e)));
      s, toks := e.st.(w := r.w.(slab := y.slab)), Heads(c, y);
    }
  }

  lemma DecodeBooks<K, H>(c: Config<K, H>, e: Engine<K>)
    requires Books(c, e) && Shaped(e) && AllTight(e.st.w) && e.running != []
    ensures Books(c, Decode(c, e))
  {
    var s, toks := DecodeCases(c, e);
    hide Books, Shaped, AllTight, AcceptAll, Preempt, Decode;
    if Decode(c, e) == Preempt(e) {
      PreemptBooks(c, e);
    } else {
      MovedBooks(c, e, s);
      AcceptBooks(c, e.(st := s), 0, toks);
    }
  }

  lemma AddBooks<K, H>(c: Config<K, H>, e: Engine<K>, r: Request, admit: bool)
    requires Books(c, e)
    ensures Books(c, Add(c, e, r, admit))
  {
    var e', live := Add(c, e, r, admit), LiveCores(e);
    CoresSnoc(e.waiting, r);
    assert RunCores(e.running) + (Cores(e.waiting) + [Core(r)]) == live + [Core(r)];
    RecordOutcomes(c, e, r, Rejected);
    hide Ledger, RunCores, Cores, Newest;
    if admit {
      LedgerAdd(c.history, live, e.arrivals, Outcomes(e), e.numFinished, e.finished, Core(r));
    } else {
      LedgerRefuse(c.history, live, e.arrivals, Outcomes(e), e.numFinished, e.finished, r.(reason := Some(Rejected)));
      assert Outcomes(e') == Outcomes(e) + [r.(reason := Some(Rejected))];
    }
  }

  lemma ApplyBooks<K, H>(c: Config<K, H>, e: Engine<K>, op: Op)
    requires Books(c, e)
    ensures Books(c, Apply(c, e, op))
  {
    match op
    case AddRequest(r, admit) => AddBooks(c, e, r, admit);
    case RequestCancel(id) => SameBooks(c, e, Apply(c, e, op));
    case ApplyPending => CancelBooks(c, e);
    case RunStep => StepBooks(c, e);
    case DrainEmitted => SameBooks(c, e, Apply(c, e, op));
    case Drain => SameBooks(c, e, Apply(c, e, op));
  }

  lemma {:induction false} RunBooks<K, H>(c: Config<K, H>, e: Engine<K>, ops: seq<Op>)
    requires Books(c, e)
    ensures Books(c, Run(c, e, ops))
  {
    hide Books, Apply;
    if ops != [] {
      RunBooks(c, e, ops[..|ops| - 1]);
      ApplyBooks(c, Run(c, e, ops[..|ops| - 1]), ops[|ops| - 1]);
    }
  }

  // -- what a step leaves alone -----------------------------------------------------------

  /** `a` comes after `e` with no submission and no collection: outcomes are only added, cancellations only used up. */
  ghost predicate Follows<K>(e: Engine<K>, a: Engine<K>)
  {
    a.arrivals == e.arrivals && a.drained == e.drained && e.newly <= a.newly && a.cancels <= e.cancels
  }

  lemma {:induction false} CancelRunningFollows<K, H>(c: Config<K, H>, e: Engine<K>, wanted: set<nat>, k: nat)
    ensures Follows(e, CancelRunning(c, e, wanted, k))
    decreases |e.running| - k
  {
    hide StoreOK;
    if Shaped(e) && k < |e.running| {
      if e.running[k].req.id in wanted {
        CancelRunningFollows(c, Record(c, Leave(e, k), e.running[k].req, Cancelled), wanted, k);
      } else {
        CancelRunningFollows(c, e, wanted, k + 1);
      }
    }
  }

  lemma {:induction false} CancelWaitingFollows<K, H>(c: Config<K, H>, e: Engine<K>, wanted: set<nat>, k: nat)
    ensures Follows(e, CancelWaiting(c, e, wanted, k))
    decreases |e.waiting| - k
  {
    if k < |e.waiting| {
      if e.waiting[k].id in wanted {
        CancelWaitingFollows(c, Record(c, e.(waiting := RemoveAt(e.waiting, k)), e.waiting[k], Cancelled), wanted, k);
      } else {
        CancelWaitingFollows(c, e, wanted, k + 1);
      }
    }
  }

  lemma CancelFollows<K, H>(c: Config<K, H>, e: Engine<K>)
    ensures Follows(e, ApplyCancellations(c, e))
  {
    hide CancelRunning, CancelWaiting;
    var e0 := e.(cancels := {});
    CancelRunningFollows(c, e0, e.cancels, 0);
    CancelWaitingFollows(c, CancelRunning(c, e0, e.cancels, 0), e.cancels, 0);
  }

  lemma {:induction false} AcceptFollows<K, H>(c: Config<K, H>, e: Engine<K>, k: nat, toks: seq<Token>)
    ensures Follows(e, AcceptAll(c, e, k, toks))
    decreases |toks|
  {
    if toks != [] && k < |e.running| && Shaped(e) {
      var (r, f) := Accept(c, e.running[k].req, toks[0]);
      var e1 := Emit(e.(running := e.running[k := Sequence(r, toks[0])]), e.running[k].req, r, toks[0]);
      hide StoreOK, Accept;
      if f.None? {
        AcceptFollows(c, e1, k + 1, toks[1..]);
      } else {
        AcceptFollows(c, Record(c, Leave(e1, k), r, f.value), k, toks[1..]);
      }
    }
  }

  lemma AdmitOneFollows<K, H>(c: Config<K, H>, e: Engine<K>)
    requires Shaped(e) && e.waiting != [] && e.waiting[0].prompt != []
    ensures Follows(e, AdmitOne(c, e).e)
  {
    hide StoreOK, EnsureFree, Prefill, Abandon, Accept;
  }

  lemma {:induction false} AdmitFollows<K, H>(c: Config<K, H>, e: Engine<K>)
    ensures Follows(e, Admit(c, e))
    decreases |e.waiting|
  {
    if Shaped(e) && e.waiting != [] && |e.running| < c.maxBatch && e.waiting[0].prompt != [] {
      AdmitOneFollows(c, e);
      var a := AdmitOne(c, e);
      hide Shaped, AdmitOne;
      if a.more && |a.e.waiting| < |e.waiting| { AdmitFollows(c, a.e); }
    }
  }

  lemma DecodeFollows<K, H>(c: Config<K, H>, e: Engine<K>)
    requires Shaped(e) && AllTight(e.st.w) && e.running != []
    ensures Follows(e, Decode(c, e))
  {
    hide StoreOK, AllTight, AcceptAll, Decode;
    var s, toks := DecodeCases(c, e);
    if Decode(c, e) != Preempt(e) {
      AcceptFollows(c, e.(st := s), 0, toks);
    }
  }

  lemma StepFollows<K, H>(c: Config<K, H>, e: Engine<K>)
    ensures Follows(e, Step(c, e))
  {
    hide Admit, Decode, AllTight, ApplyCancellations;
    CancelFollows(c, e);
    var a := Admit(c, ApplyCancellations(c, e));
    AdmitFollows(c, ApplyCancellations(c, e));
    if a.running != [] && Shaped(a) && AllTight(a.st.w) { DecodeFollows(c, a); }
  }

  // -- over every run ---------------------------------------------------------------------------

  /** The requests a run submits, in order. */
  function Submitted(ops: seq<Op>): seq<Request>
  {
    if ops == [] then []
    else
      var n := |ops| - 1;
      Submitted(ops[..n]) + Arriving(ops[n])
  }

  function Arriving(op: Op): seq<Request>
  {
    if op.AddRequest? then [Core(op.r)] else []
  }

  lemma ApplyArrivals<K, H>(c: Config<K, H>, e: Engine<K>, op: Op)
    ensures Apply(c, e, op).arrivals == e.arrivals + Arriving(op)
  {
    CancelFollows(c, e);
    StepFollows(c, e);
    hide ApplyCancellations, Step, Newest;
  }

  lemma {:induction false} RunArrivals<K, H>(c: Config<K, H>, e: Engine<K>, ops: seq<Op>)
    ensures Run(c, e, ops).arrivals == e.arrivals + Submitted(ops)
  {
    hide Apply;
    if ops == [] {
      assert e.arrivals + [] == e.arrivals;
    } else {
      var n := |ops| - 1;
      RunArrivals(c, e, ops[..n]);
      ApplyArrivals(c, Run(c, e, ops[..n]), ops[n]);
      assert e.arrivals + Submitted(ops[..n]) + Arriving(ops[n])
             == e.arrivals + (Submitted(ops[..n]) + Arriving(ops[n]));
    }
  }

  ghost predicate DistinctIds(rs: seq<Request>)
  {
    forall i, j :: 0 <= i < j < |rs| ==> rs[i].id != rs[j].id
  }

  /** Everything a run submitted is live or an outcome, request for request. */
  lemma RunAccounts<K, H>(c: Config<K, H>, bs: nat, slab: seq<seq<K>>, n: nat, ops: seq<Op>)
    ensures var e := Run(c, Boot(bs, slab, n), ops);
      Books(c, e) && e.arrivals == Submitted(ops)
  {
    BootBooks(c, bs, slab, n);
    hide Run, Books;
    RunBooks(c, Boot(bs, slab, n), ops);
    RunArrivals(c, Boot(bs, slab, n), ops);
  }

  lemma BootBooks<K, H>(c: Config<K, H>, bs: nat, slab: seq<seq<K>>, n: nat)
    ensures Books(c, Boot(bs, slab, n))
  {
    var e: Engine<K> := Boot(bs, slab, n);
    assert LiveCores(e) == [] && Outcomes(e) == [] && Cores([]) == [];
  }

  /**
    Over every run with distinct ids: each submitted request is, as it was submitted, in exactly
    one of the batch, the queue and the outcomes, and in it exactly once; the outcomes collected
    so far are a prefix of all outcomes, so nothing is collected twice; the batch followed by the
    queue is in arrival order, preemptions included; the retained window is the newest outcomes.
   */
  lemma Conservation<K, H>(c: Config<K, H>, bs: nat, slab: seq<seq<K>>, n: nat, ops: seq<Op>, q: Request)
    requires q in Submitted(ops) && DistinctIds(Submitted(ops))
    ensures var e := Run(c, Boot(bs, slab, n), ops);
      && multiset(RunCores(e.running))[q] + multiset(Cores(e.waiting))[q]
         + multiset(Cores(e.newly))[q] + multiset(Cores(e.drained))[q] == 1
      && Subseq(RunCores(e.running) + Cores(e.waiting), Submitted(ops))
      && e.numFinished == |e.drained| + |e.newly|
      && Suffix(e.finished, e.drained + e.newly)
      && |e.finished| == if e.numFinished <= c.history then e.numFinished else c.history
  {
    var e := Run(c, Boot(bs, slab, n), ops);
    RunAccounts(c, bs, slab, n, ops);
    NewestIs(e.drained + e.newly, c.history);
    hide Run, Boot, Subseq, Newest;
    DistinctOnce(e.arrivals, q);
    CoresJoin(e.drained, e.newly);
    hide RunCores, Cores;
    OnceInAll(multiset(e.arrivals), multiset(RunCores(e.running)), multiset(Cores(e.waiting)),
              multiset(Cores(e.newly)), multiset(Cores(e.drained)), q);
  }

  lemma NewestIs<T>(s: seq<T>, n: nat)
    ensures Suffix(Newest(s, n), s) && |Newest(s, n)| == if |s| <= n then |s| else n
  {
  }

  lemma CoresJoin(a: seq<Request>, b: seq<Request>)
    ensures Cores(a + b) == Cores(a) + Cores(b)
  {
  }

  lemma OnceInAll<T>(a: multiset<T>, r: multiset<T>, w: multiset<T>, n: multiset<T>, d: multiset<T>, x: T)
    requires a == r + w + (d + n) && a[x] == 1
    ensures r[x] + w[x] + n[x] + d[x] == 1
  {
  }

  lemma DistinctOnce(s: seq<Request>, x: Request)
    requires x in s && DistinctIds(s)
    ensures multiset(s)[x] == 1
  {
    var k :| 0 <= k < |s| && s[k] == x;
    MultisetRemove(s, k);
    assert x !in RemoveAt(s, k);
  }

  /** An outcome is an outcome of something submitted. */
  lemma OutcomeSubmitted<K, H>(c: Config<K, H>, e: Engine<K>, r: Request)
    requires Books(c, e) && r in Outcomes(e)
    ensures Core(r) in e.arrivals
  {
    hide Subseq, Newest;
    var out := Outcomes(e);
    var k :| 0 <= k < |out| && out[k] == r;
    assert Cores(out)[k] == Core(r);
    assert Core(r) in multiset(Cores(out));
    assert Core(r) in multiset(e.arrivals);
  }
}
