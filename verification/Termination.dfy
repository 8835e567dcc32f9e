/**
  When `run` ends. Without the prefix cache it ends exactly when every live request fits the
  pool on its own: a request that does not is never finished, whatever the others do.
 */
module Termination {
  import opened Wrappers
  import opened Allocator
  import opened Arith
  import opened Paging
  import opened Batch
  import opened Transformer
  import opened PrefixCaching
  import opened Content
  import opened Requests
  import opened Prefilling
  import opened Scheduling
  import opened Refinement
  import opened Bookkeeping
  import opened Progress

  function Blocks<K>(e: Engine<K>): nat { |e.st.w.alloc.refs| }

  /** Everybody in the batch passed the admission check; every outcome from `base` on completed and fits the pool. */
  ghost predicate Feasible<K, H>(c: Config<K, H>, e: Engine<K>, base: nat)
  {
    && e.st.w.bs >= 1 && base <= |e.newly|
    && (forall i :: 0 <= i < |e.running| ==> Admissible(c, e.st.w.bs, Blocks(e), e.running[i].req))
    && (forall i :: base <= i < |e.newly| ==> Completed(e.newly[i]) && Fits(c, e.st.w.bs, Blocks(e), e.newly[i]))
  }

  ghost predicate SamePoolSize<K>(e: Engine<K>, a: Engine<K>)
  {
    a.st.w.bs == e.st.w.bs && Blocks(a) == Blocks(e)
  }

  // -- a finished request fits -----------------------------------------------------------

  /** A table holds no more than the pool has. */
  lemma HeldBlocks<E>(w: World<E>, i: nat)
    requires Inv(w) && i < |w.tables| && Tight(w.bs, w.tables[i])
    ensures CeilDiv(w.tables[i].len, w.bs) <= |w.alloc.refs|
  {
    assert TableOK(w.bs, |w.alloc.refs|, w.tables[i]);
    DistinctBound(w.tables[i].blocks, |w.alloc.refs|);
  }

  /** The token that ends a request is sampled when all it ever feeds has been fed. */
  lemma EndFed<K, H>(c: Config<K, H>, r: Request)
    requires OnTrack(c, r) && Accept(c, r, Next(c.m, r.prompt + r.output)).1.Some?
    ensures FedLength(c, r) == |r.prompt| + |r.output|
  {
    AcceptStep(c, r);
  }

  lemma EndFits<K, H>(c: Config<K, H>, e: Engine<K>, k: nat, toks: seq<Token>, done: Request)
    requires Settling(c, e, k, toks) && toks != [] && e.st.w.bs >= 1
    requires Accept(c, e.running[k].req, toks[0]).1.Some? && Core(done) == Core(e.running[k].req)
    requires Admissible(c, e.st.w.bs, Blocks(e), e.running[k].req)
    ensures Fits(c, e.st.w.bs, Blocks(e), done)
  {
    var r := e.running[k].req;
    assert DueOK(c, e, k, toks, k);
    EndFed(c, r);
    PoolShaped(c.m, e);
    assert Tight(e.st.w.bs, e.st.w.tables[k]);
    HeldBlocks(e.st.w, k);
    FitsCore(c, e.st.w.bs, Blocks(e), r, done);
  }

  lemma TakenFeasible<K, H>(c: Config<K, H>, e: Engine<K>, k: nat, t: Token, base: nat)
    requires k < |e.running| && Feasible(c, e, base)
    ensures Feasible(c, Taken(c, e, k, t), base) && SamePoolSize(e, Taken(c, e, k, t))
  {
    hide Fits;
  }

  lemma GoneFeasible<K, H>(c: Config<K, H>, e: Engine<K>, k: nat, r: Request, why: FinishReason, base: nat)
    requires Shaped(e) && k < |e.running| && Feasible(c, e, base)
    requires Fits(c, e.st.w.bs, Blocks(e), r.(reason := Some(why))) && (why == Eos || why == Length)
    ensures var a := Record(c, Leave(e, k), r, why); Feasible(c, a, base) && SamePoolSize(e, a)
  {
    hide Fits, Admissible, StoreOK, Inv, Newest;
    StoreInv(e.st);
    CloseInv(e.st.w, k);
    var a := Record(c, Leave(e, k), r, why);
    assert forall i :: 0 <= i < |a.running| ==> a.running[i] == e.running[if i < k then i else i + 1];
  }

  lemma {:induction false} SettledFeasible<K, H>(c: Config<K, H>, e: Engine<K>, k: nat, toks: seq<Token>, base: nat)
    requires Settling(c, e, k, toks) && Feasible(c, e, base)
    ensures var a := AcceptAll(c, e, k, toks); Feasible(c, a, base) && SamePoolSize(e, a)
    decreases |toks|
  {
    if toks != [] {
      PoolShaped(c.m, e);
      var e1 := Taken(c, e, k, toks[0]);
      var (r, f) := Accept(c, e.running[k].req, toks[0]);
      TakenFeasible(c, e, k, toks[0], base);
      if f.None? {
        TakenStays(c, e, k, toks);
        hide Settling, Feasible, StoreOK, Taken;
        SettledFeasible(c, e1, k + 1, toks[1..], base);
      } else {
        EndFits(c, e, k, toks, r.(reason := f));
        TakenLeaves(c, e, k, toks);
        hide Settling, Feasible, StoreOK, Taken, Fits;
        GoneFeasible(c, e1, k, r, f.value, base);
        SettledFeasible(c, Record(c, Leave(e1, k), r, f.value), k, toks[1..], base);
      }
    }
  }

  // -- one step ------------------------------------------------------------------------------

  lemma MovedFeasible<K, H>(c: Config<K, H>, e: Engine<K>, s: Store<seq<K>>, base: nat)
    requires Feasible(c, e, base) && s.w.bs == e.st.w.bs && |s.w.alloc.refs| == Blocks(e)
    ensures Feasible(c, e.(st := s), base) && SamePoolSize(e, e.(st := s))
  {
    hide Fits, Admissible;
  }

  lemma SeatedFeasible<K, H>(c: Config<K, H>, e: Engine<K>, s: Store<seq<K>>, base: nat)
    requires Feasible(c, e, base) && e.waiting != [] && Admissible(c, e.st.w.bs, Blocks(e), e.waiting[0])
    requires s.w.bs == e.st.w.bs && |s.w.alloc.refs| == Blocks(e)
    ensures var a := e.(waiting := e.waiting[1..], st := s, running := e.running + [Sequence(e.waiting[0], 0)]);
      Feasible(c, a, base) && SamePoolSize(e, a)
  {
    hide Fits, Admissible;
  }

  /** A request that gets in found its own room free. */
  lemma RoomAdmissible<K, H>(c: Config<K, H>, e: Engine<K>, n: nat)
    requires e.st.w.bs >= 1 && e.waiting != [] && Room(c, e) <= n
    ensures Admissible(c, e.st.w.bs, n, e.waiting[0])
  {
  }

  lemma AdmitOneFeasible<K, H>(c: Config<K, H>, e: Engine<K>, base: nat)
    requires Serving(c, e) && Shaped(e) && e.waiting != [] && e.waiting[0].prompt != [] && Feasible(c, e, base)
    ensures var a := AdmitOne(c, e).e; Feasible(c, a, base) && SamePoolSize(e, a)
  {
    assert e.st.w.bs >= 1;
    hide *;
    AdmitOneFacts(c, e);
    ServingShape(c, e);
    PoolStore(c.m, e.st);
    var a, f := AdmitOne(c, e), EnsureFree(e.st, Room(c, e));
    var e1 := e.(st := f.s);
    FreedRight(c.m, e.st, Room(c, e));
    MovedFeasible(c, e, f.s, base);
    FreedServing(c, e, f.s);
    PoppedServing(c, e1);
    ServingShape(c, e1);
    if a.more {
      var p, r := Prefill(c, f.s, e.waiting[0].prompt), e.waiting[0];
      ExtendsShape(c.m, f.s, p.s);
      RoomAdmissible(c, e, |e.st.w.alloc.refs|);
      BlocksAre(e);
      SeatedFeasible(c, e1, p.s, base) by { BlocksAre(e1); }
      var e2 := e1.(waiting := e.waiting[1..]);
      JoinedSettling(c, e2, p.s, r);
      var e3 := e2.(st := p.s, running := e.running + [Sequence(r, 0)]);
      SettledFeasible(c, e3, |e.running|, [Next(c.m, r.prompt)], base);
      SizesTrans(e, e1, e3);
      SizesTrans(e, e3, a.e);
    }
  }

  lemma BlocksAre<K>(e: Engine<K>)
    ensures Blocks(e) == |e.st.w.alloc.refs|
  {
  }

  lemma SizesTrans<K>(e: Engine<K>, a: Engine<K>, b: Engine<K>)
    requires SamePoolSize(e, a) && SamePoolSize(a, b)
    ensures SamePoolSize(e, b)
  {
  }

  lemma {:induction false} AdmitFeasible<K, H>(c: Config<K, H>, e: Engine<K>, base: nat)
    requires Serving(c, e) && Feasible(c, e, base)
    ensures var a := Admit(c, e); Feasible(c, a, base) && SamePoolSize(e, a)
    decreases |e.waiting|
  {
    hide Serving, AdmitOne, Shaped, Feasible;
    ServingShape(c, e);
    if e.waiting != [] && |e.running| < c.maxBatch {
      AdmitOneServing(c, e);
      AdmitOneFeasible(c, e, base);
      var a := AdmitOne(c, e);
      if a.more && |a.e.waiting| < |e.waiting| {
        AdmitFeasible(c, a.e, base);
      }
    }
  }

  lemma PreemptFeasible<K, H>(c: Config<K, H>, e: Engine<K>, base: nat)
    requires Shaped(e) && e.running != [] && Feasible(c, e, base)
    ensures Feasible(c, Preempt(e), base) && SamePoolSize(e, Preempt(e))
  {
    hide Fits, Admissible, StoreOK, Inv, Completed;
    var n := |e.running| - 1;
    StoreInv(e.st);
    CloseInv(e.st.w, n);
    assert forall i :: 0 <= i < n ==> Preempt(e).running[i] == e.running[i];
  }

  lemma DecodeFeasible<K, H>(c: Config<K, H>, e: Engine<K>, base: nat)
    requires Serving(c, e) && Shaped(e) && AllTight(e.st.w) && Inv(e.st.w) && e.running != []
    requires Prepare(e.st.w, |e.running|).ok && Feasible(c, e, base)
    ensures Feasible(c, Decode(c, e), base) && SamePoolSize(e, Decode(c, e))
  {
    hide Queues, SeqOK, Decode, Prepare, AllTight, SlabOK, Feasible;
    PoolShaped(c.m, e);
    hide PoolRight, Inv, StoreOK;
    PreparedRight(c.m, e.st);
    var r := Prepare(e.st.w, |e.running|).w;
    assert r.bs == e.st.w.bs && |r.alloc.refs| == |e.st.w.alloc.refs|;
    hide Committed;
    DecodedSettling(c, e, r);
    DecodeUnfold(c, e, r);
    var y := RunPlan(c.m, DecodePlan(r, |e.running|), Pass(r.slab, Pending(c, e)));
    var s := e.st.(w := r.(slab := y.slab));
    MovedFeasible(c, e, s, base);
    SettledFeasible(c, e.(st := s), 0, Heads(c, y), base);
  }

  /** Over a step with nothing to cancel, every new outcome fits the pool. */
  lemma StepFeasible<K, H>(c: Config<K, H>, e: Engine<K>)
    requires Serving(c, e) && e.cancels == {} && Feasible(c, e, |e.newly|)
    ensures Feasible(c, Step(c, e), |e.newly|) && SamePoolSize(e, Step(c, e))
  {
    hide Serving, Admit, Inv, StoreOK, Shaped, AllTight, Prepare, Decode, ApplyCancellations, Feasible, Preempt;
    NoCancels(c, e);
    var a := Admit(c, e);
    AdmitServing(c, e);
    AdmitFeasible(c, e, |e.newly|);
    ServingShape(c, a);
    PoolStore(c.m, a.st);
    if a.running != [] {
      if Prepare(a.st.w, |a.running|).ok {
        DecodeFeasible(c, a, |e.newly|);
      } else {
        PreemptFeasible(c, a, |e.newly|);
        PreemptsOnFailure(c, a);
      }
    }
  }

  lemma PreemptsOnFailure<K, H>(c: Config<K, H>, e: Engine<K>)
    requires Shaped(e) && AllTight(e.st.w) && e.running != [] && !Prepare(e.st.w, |e.running|).ok
    ensures Decode(c, e) == Preempt(e)
  {
    hide StoreOK, AllTight, Prepare;
  }

  // -- runs --------------------------------------------------------------------------------------

  /** `run`'s loop after `n` iterations. */
  ghost function RunSteps<K, H>(c: Config<K, H>, e: Engine<K>, n: nat): Engine<K>
    decreases n
  {
    if n == 0 then e else RunSteps(c, RunOnce(c, e), n - 1)
  }

  /** The state of a running loop: nothing being cancelled, the batch admissible. */
  ghost predicate Looping<K, H>(c: Config<K, H>, e: Engine<K>)
  {
    Serving(c, e) && Books(c, e) && e.cancels == {} && Feasible(c, e, |e.newly|)
  }

  ghost predicate FitIn<K, H>(c: Config<K, H>, e: Engine<K>, q: Request)
  {
    e.st.w.bs >= 1 && Fits(c, e.st.w.bs, Blocks(e), q)
  }

  /** A live request that does not fit is live after the next iteration too. */
  lemma UnfitStays<K, H>(c: Config<K, H>, e: Engine<K>, q: Request)
    requires Looping(c, e) && q in LiveCores(e) && !FitIn(c, e, q)
    ensures var a := RunOnce(c, e);
      Looping(c, a) && SamePoolSize(e, a) && q in LiveCores(a) && !FitIn(c, a, q)
  {
    hide Step, RunOnce, Serving, Feasible, Fits, LiveCores, Cores;
    var a := RunOnce(c, e);
    LoopingOnce(c, e);
    OnceFits(c, e, q);
    var more := Step(c, e).newly[|e.newly|..];
    OnceOutcomes(c, e);
    LedgersAgree(c, e, a, more, q);
  }

  lemma LoopingOnce<K, H>(c: Config<K, H>, e: Engine<K>)
    requires Looping(c, e)
    ensures Looping(c, RunOnce(c, e)) && SamePoolSize(e, RunOnce(c, e))
  {
    var s := Step(c, e);
    hide Serving, Books, Step, Fits, Admissible;
    StepServing(c, e);
    DrainServing(c, s);
    OnceBooks(c, e);
    StepFeasible(c, e);
    StepFollows(c, e);
  }

  lemma DrainServing<K, H>(c: Config<K, H>, e: Engine<K>)
    requires Serving(c, e)
    ensures Serving(c, DrainFinished(e.(emitted := [])))
  {
    SameBatchServing(c, e, DrainFinished(e.(emitted := [])));
  }

  /** None of an iteration's new outcomes is a request that does not fit. */
  lemma OnceFits<K, H>(c: Config<K, H>, e: Engine<K>, q: Request)
    requires Looping(c, e) && !FitIn(c, e, q)
    ensures |e.newly| <= |Step(c, e).newly| && multiset(Cores(Step(c, e).newly[|e.newly|..]))[q] == 0
  {
    hide Serving, Books, Step, Fits;
    StepFeasible(c, e);
    var s, b := Step(c, e), |e.newly|;
    var more := s.newly[b..];
    if q in multiset(Cores(more)) {
      var i :| 0 <= i < |Cores(more)| && Cores(more)[i] == q;
      assert s.newly[b + i] == more[i];
      FitsCore(c, s.st.w.bs, Blocks(s), more[i], q);
    }
  }

  lemma OnceOutcomes<K, H>(c: Config<K, H>, e: Engine<K>)
    ensures |e.newly| <= |Step(c, e).newly|
    ensures Outcomes(RunOnce(c, e)) == Outcomes(e) + Step(c, e).newly[|e.newly|..]
    ensures RunOnce(c, e).arrivals == e.arrivals
  {
    StepFollows(c, e);
    hide Step;
  }

  lemma LedgersAgree<K, H>(c: Config<K, H>, e: Engine<K>, a: Engine<K>, more: seq<Request>, q: Request)
    requires Books(c, e) && Books(c, a) && a.arrivals == e.arrivals && Outcomes(a) == Outcomes(e) + more
    requires q in LiveCores(e) && multiset(Cores(more))[q] == 0
    ensures q in LiveCores(a)
  {
    CoresJoin(Outcomes(e), more);
    hide Subseq, Newest, LiveCores, Cores;
    StillThere(multiset(e.arrivals), multiset(LiveCores(e)), multiset(LiveCores(a)),
               multiset(Cores(Outcomes(e))), multiset(Cores(more)), q);
  }

  lemma StillThere<T>(
    all: multiset<T>, live: multiset<T>, live': multiset<T>, out: multiset<T>, more: multiset<T>, q: T)
    requires all == live + out && all == live' + (out + more) && q in live && more[q] == 0
    ensures q in live'
  {
    assert all[q] == live[q] + out[q];
  }

  lemma LiveUnfinished<K>(e: Engine<K>, q: Request)
    requires q in LiveCores(e)
    ensures Unfinished(e) > 0
  {
  }

  lemma {:induction false} UnfitForever<K, H>(c: Config<K, H>, e: Engine<K>, q: Request, n: nat)
    requires Looping(c, e) && q in LiveCores(e) && !FitIn(c, e, q)
    ensures Unfinished(RunSteps(c, e, n)) > 0
    decreases n
  {
    hide Looping, RunOnce, FitIn, LiveCores, SamePoolSize, Unfinished;
    if n == 0 {
      LiveUnfinished(e, q);
    } else {
      UnfitStays(c, e, q);
      UnfitForever(c, RunOnce(c, e), q, n - 1);
    }
  }

  lemma {:induction false} FitEnds<K, H>(c: Config<K, H>, e: Engine<K>) returns (n: nat)
    requires Serving(c, e) && Small(c, e)
    ensures Unfinished(RunSteps(c, e, n)) == 0
    decreases Unfinished(e), HeadLeft(e), |e.running|
  {
    hide Serving, Small, RunOnce;
    n := 0;
    if Unfinished(e) > 0 {
      OnceSmaller(c, e);
      var m := FitEnds(c, RunOnce(c, e));
      n := m + 1;
    }
  }

  lemma UnfitWitness<K, H>(c: Config<K, H>, e: Engine<K>) returns (q: Request)
    requires Looping(c, e) && !AllFit(c, e)
    ensures q in LiveCores(e) && !FitIn(c, e, q)
  {
    var bs, n := e.st.w.bs, Blocks(e);
    hide Serving, Books, Fits;
    if i :| 0 <= i < |e.running| && !Fits(c, bs, n, e.running[i].req) {
      q := Core(e.running[i].req);
      FitsCore(c, bs, n, e.running[i].req, q);
      assert LiveCores(e)[i] == q;
    } else {
      var i :| 0 <= i < |e.waiting| && !Fits(c, bs, n, e.waiting[i]);
      q := Core(e.waiting[i]);
      FitsCore(c, bs, n, e.waiting[i], q);
      assert LiveCores(e)[|e.running| + i] == q;
    }
  }

  /**
    Without the prefix cache, `run`'s loop ends if and only if every live request fits the pool
    on its own: the admission check against an idle pool, and the blocks of all the tokens its
    own generation feeds the model.
   */
  lemma RunEndsIff<K, H>(c: Config<K, H>, e: Engine<K>)
    requires Looping(c, e) && !c.prefixOn && c.maxBatch >= 1 && e.st.pc.entries == map[]
    ensures (exists n: nat :: Unfinished(RunSteps(c, e, n)) == 0) <==> AllFit(c, e)
  {
    if AllFit(c, e) {
      var n := FitEnds(c, e);
    } else {
      var q := UnfitWitness(c, e);
      forall n: nat ensures Unfinished(RunSteps(c, e, n)) > 0 {
        UnfitForever(c, e, q, n);
      }
    }
  }

  /** Before the loop starts: nothing runs, nothing is being cancelled. */
  ghost predicate Queued<K, H>(c: Config<K, H>, e: Engine<K>)
  {
    Serving(c, e) && Books(c, e) && e.cancels == {} && e.running == [] && e.st.w.bs >= 1
  }

  ghost predicate WaitersFit<K, H>(c: Config<K, H>, e: Engine<K>)
  {
    forall i :: 0 <= i < |e.waiting| ==> FitIn(c, e, e.waiting[i])
  }

  lemma QueuedLoops<K, H>(c: Config<K, H>, e: Engine<K>)
    requires Queued(c, e)
    ensures Looping(c, e) && (AllFit(c, e) <==> WaitersFit(c, e))
  {
    hide Serving, Books, Fits;
    if WaitersFit(c, e) {
      forall i | 0 <= i < |e.waiting| ensures Fits(c, e.st.w.bs, Blocks(e), e.waiting[i]) {
        assert FitIn(c, e, e.waiting[i]);
      }
    }
  }

  lemma AddQueued<K, H>(c: Config<K, H>, e: Engine<K>, r: Request, admit: bool)
    requires Queued(c, e) && WaitOK(r)
    ensures Queued(c, Add(c, e, r, admit)) && Add(c, e, r, admit).st == e.st
  {
    hide Serving, Books, WaitOK, Newest;
    ApplyServing(c, e, AddRequest(r, admit));
    AddBooks(c, e, r, admit);
  }

  lemma AddFit<K, H>(c: Config<K, H>, e: Engine<K>, r: Request, admit: bool)
    ensures WaitersFit(c, Add(c, e, r, admit)) <==> WaitersFit(c, e) && (admit ==> FitIn(c, e, r))
  {
    hide Fits, Newest;
    var a := Add(c, e, r, admit);
    assert forall q :: FitIn(c, a, q) <==> FitIn(c, e, q);
    hide FitIn;
    if admit {
      assert a.waiting == e.waiting + [r];
      assert a.waiting[|e.waiting|] == r;
      assert forall i :: 0 <= i < |e.waiting| ==> a.waiting[i] == e.waiting[i];
    }
  }

  ghost predicate AdmittedFit<K, H>(c: Config<K, H>, e: Engine<K>, rs: seq<Request>, admit: seq<bool>)
    requires |admit| == |rs|
  {
    forall i :: 0 <= i < |rs| && admit[i] ==> FitIn(c, e, rs[i])
  }

  lemma AdmittedSnoc<K, H>(c: Config<K, H>, e: Engine<K>, rs: seq<Request>, admit: seq<bool>)
    requires |admit| == |rs| && rs != []
    ensures var n := |rs| - 1;
      AdmittedFit(c, e, rs, admit) <==> AdmittedFit(c, e, rs[..n], admit[..n]) && (admit[n] ==> FitIn(c, e, rs[n]))
  {
    hide FitIn;
    var n := |rs| - 1;
    assert forall i :: 0 <= i < n ==> rs[..n][i] == rs[i] && admit[..n][i] == admit[i];
  }

  lemma {:induction false} AddAllQueued<K, H>(c: Config<K, H>, e: Engine<K>, rs: seq<Request>, admit: seq<bool>)
    requires |admit| == |rs| && Queued(c, e) && WaitersFit(c, e) && forall i :: 0 <= i < |rs| ==> WaitOK(rs[i])
    ensures var a := AddAll(c, e, rs, admit);
      Queued(c, a) && a.st == e.st && (WaitersFit(c, a) <==> AdmittedFit(c, e, rs, admit))
  {
    hide Queued, Add, WaitOK, WaitersFit;
    if rs != [] {
      var n := |rs| - 1;
      AddAllQueued(c, e, rs[..n], admit[..n]);
      var b := AddAll(c, e, rs[..n], admit[..n]);
      AddQueued(c, b, rs[n], admit[n]);
      AddFit(c, b, rs[n], admit[n]);
      AdmittedSnoc(c, e, rs, admit);
      FitSame(c, e, b, rs[n]);
      hide AdmittedFit, FitIn;
    }
  }

  lemma FitSame<K, H>(c: Config<K, H>, e: Engine<K>, b: Engine<K>, r: Request)
    requires b.st == e.st
    ensures FitIn(c, b, r) <==> FitIn(c, e, r)
  {
    hide Fits;
  }

  /** `run` on a fresh engine ends exactly when every request that is admitted fits the pool. */
  lemma FreshRunEndsIff<K, H>(c: Config<K, H>, bs: nat, slab: seq<seq<K>>, n: nat, rs: seq<Request>, admit: seq<bool>)
    requires BootOK(c, bs, slab, n) && !c.prefixOn && c.maxBatch >= 1 && |admit| == |rs|
    requires forall i :: 0 <= i < |rs| ==> WaitOK(rs[i])
    ensures var e := AddAll(c, Boot(bs, slab, n), rs, admit);
      (exists k: nat :: Unfinished(RunSteps(c, e, k)) == 0) <==>
          forall i :: 0 <= i < |rs| && admit[i] ==> Fits(c, bs, n, rs[i])
  {
    var e0: Engine<K> := Boot(bs, slab, n);
    FreshOK(n);
    BootServing(c, bs, slab, n);
    BootBooks(c, bs, slab, n);
    assert Queued(c, e0) && WaitersFit(c, e0);
    assert AdmittedFit(c, e0, rs, admit) <==> forall i :: 0 <= i < |rs| && admit[i] ==> Fits(c, bs, n, rs[i]);
    var e := AddAll(c, e0, rs, admit);
    assert e0.st.pc.entries == map[];
    hide *;
    AddAllQueued(c, e0, rs, admit);
    QueuedLoops(c, e);
    RunEndsIff(c, e);
  }

  // -- what `run` returns ------------------------------------------------------------------------------

  /** Everything the loop adds to the outcomes it starts with has completed. */
  lemma {:induction false} LoopCompletes<K, H>(c: Config<K, H>, e: Engine<K>)
    requires Looping(c, e) && Serving(c, e) && Small(c, e)
    ensures var r := RunLoop(c, e);
      && Outcomes(e) <= r.drained
      && forall i :: |Outcomes(e)| <= i < |r.drained| ==> Completed(r.drained[i])
    decreases Unfinished(e), HeadLeft(e), |e.running|
  {
    hide Serving, Small, Looping, RunOnce, Completed;
    if Unfinished(e) > 0 {
      var a := RunOnce(c, e);
      OnceSmaller(c, e);
      LoopingOnce(c, e);
      OnceCompletes(c, e);
      LoopCompletes(c, a);
    }
  }

  lemma OnceCompletes<K, H>(c: Config<K, H>, e: Engine<K>)
    requires Looping(c, e)
    ensures var a := RunOnce(c, e);
      && Outcomes(e) <= Outcomes(a) == a.drained
      && forall i :: |Outcomes(e)| <= i < |Outcomes(a)| ==> Completed(Outcomes(a)[i])
  {
    hide *;
    OnceOutcomes(c, e);
    AllHanded(c, e);
    var a, more := RunOnce(c, e), Step(c, e).newly[|e.newly|..];
    forall i | |Outcomes(e)| <= i < |Outcomes(a)| ensures Completed(Outcomes(a)[i]) {
      NewCompleted(c, e, i - |Outcomes(e)|);
      assert Outcomes(a)[i] == more[i - |Outcomes(e)|];
    }
  }

  lemma AllHanded<K, H>(c: Config<K, H>, e: Engine<K>)
    ensures Outcomes(RunOnce(c, e)) == RunOnce(c, e).drained
  {
    hide Step;
  }

  lemma NewCompleted<K, H>(c: Config<K, H>, e: Engine<K>, i: nat)
    requires Looping(c, e) && |e.newly| + i < |Step(c, e).newly|
    ensures Completed(Step(c, e).newly[|e.newly| + i])
  {
    hide Serving, Books, Step, Fits, Admissible, Completed;
    StepFeasible(c, e);
  }

  /** The requests let in, or those refused, in order. */
  function Sifted(rs: seq<Request>, admit: seq<bool>, yes: bool): seq<Request>
    requires |admit| == |rs|
  {
    if rs == [] then []
    else
      var n := |rs| - 1;
      Sifted(rs[..n], admit[..n], yes) + if admit[n] == yes then [rs[n]] else []
  }

  lemma {:induction false} SiftedBags(rs: seq<Request>, admit: seq<bool>)
    requires |admit| == |rs|
    ensures multiset(Sifted(rs, admit, true)) + multiset(Sifted(rs, admit, false)) == multiset(rs)
  {
    if rs != [] {
      var n := |rs| - 1;
      SiftedBags(rs[..n], admit[..n]);
      assert rs == rs[..n] + [rs[n]];
    }
  }

  lemma {:induction false} AddAllRefuses<K, H>(c: Config<K, H>, e: Engine<K>, rs: seq<Request>, admit: seq<bool>)
    requires |admit| == |rs| && e.newly == []
    ensures var a := AddAll(c, e, rs, admit);
      && a.drained == e.drained && |a.newly| == |Sifted(rs, admit, false)|
      && forall i :: 0 <= i < |a.newly| ==> a.newly[i] == Sifted(rs, admit, false)[i].(reason := Some(Rejected))
  {
    hide Newest;
    if rs != [] {
      var n := |rs| - 1;
      AddAllRefuses(c, e, rs[..n], admit[..n]);
    }
  }

  /**
    `run` completes what it lets in: without the prefix cache, where every admitted request fits the
    pool, it returns first the refused requests, as REJECTED and in order, and then exactly the
    admitted ones, every one of them ended by the stop token or by length.
   */
  lemma RunCompletes<K, H>(c: Config<K, H>, bs: nat, slab: seq<seq<K>>, n: nat, rs: seq<Request>, admit: seq<bool>)
    requires BootOK(c, bs, slab, n) && !c.prefixOn && c.maxBatch >= 1 && |admit| == |rs|
    requires forall i :: 0 <= i < |rs| ==> WaitOK(rs[i])
    requires forall i :: 0 <= i < |rs| && admit[i] ==> Fits(c, bs, n, rs[i])
    ensures var e := AddAll(c, Boot(bs, slab, n), rs, admit);
      && Serving(c, e) && Small(c, e)
      && var (out, no) := (RunLoop(c, e).drained, Sifted(rs, admit, false));
      && |no| <= |out|
      && (forall i :: 0 <= i < |no| ==> out[i] == no[i].(reason := Some(Rejected)))
      && (forall i :: |no| <= i < |out| ==> Completed(out[i]))
      && multiset(Cores(out[|no|..])) == multiset(Sifted(rs, admit, true))
  {
    var e0: Engine<K> := Boot(bs, slab, n);
    FreshOK(n);
    BootServing(c, bs, slab, n);
    BootBooks(c, bs, slab, n);
    assert Queued(c, e0) && WaitersFit(c, e0) && e0.newly == [] && e0.drained == [];
    hide *;
    var e := AddAll(c, e0, rs, admit);
    RunTerminates(c, bs, slab, n, rs, admit);
    AddAllQueued(c, e0, rs, admit);
    QueuedLoops(c, e);
    AddAllRefuses(c, e0, rs, admit);
    LoopCompletes(c, e);
    SiftedBags(rs, admit);
    OutcomesFresh(e);
    Returned(RunLoop(c, e).drained, e.newly, rs, admit);
  }

  lemma OutcomesFresh<K>(e: Engine<K>)
    requires e.drained == []
    ensures Outcomes(e) == e.newly
  {
  }

  lemma {:induction false} SiftedFresh(rs: seq<Request>, admit: seq<bool>, yes: bool, i: nat)
    requires |admit| == |rs| && (forall j :: 0 <= j < |rs| ==> WaitOK(rs[j])) && i < |Sifted(rs, admit, yes)|
    ensures WaitOK(Sifted(rs, admit, yes)[i])
  {
    var n := |rs| - 1;
    if i < |Sifted(rs[..n], admit[..n], yes)| { SiftedFresh(rs[..n], admit[..n], yes, i); }
  }

  lemma Returned(out: seq<Request>, newly: seq<Request>, rs: seq<Request>, admit: seq<bool>)
    requires |admit| == |rs| && newly <= out && multiset(Cores(out)) == multiset(rs)
    requires forall j :: 0 <= j < |rs| ==> WaitOK(rs[j])
    requires var no := Sifted(rs, admit, false);
      |newly| == |no| && forall i :: 0 <= i < |no| ==> newly[i] == no[i].(reason := Some(Rejected))
    ensures multiset(Cores(out[|newly|..])) == multiset(Sifted(rs, admit, true))
  {
    var m, no, yes := |newly|, Sifted(rs, admit, false), Sifted(rs, admit, true);
    SiftedBags(rs, admit);
    assert out == newly + out[m..];
    CoresJoin(newly, out[m..]);
    assert Cores(newly) == no by {
      forall i | 0 <= i < m ensures Cores(newly)[i] == no[i] { SiftedFresh(rs, admit, false, i); }
    }
    hide Cores, Sifted;
    Cancels(multiset(no), multiset(Cores(out[m..])), multiset(yes));
  }

  lemma Cancels<T>(a: multiset<T>, b: multiset<T>, c: multiset<T>)
    requires a + b == c + a
    ensures b == c
  {
    forall x ensures b[x] == c[x] { assert (a + b)[x] == (c + a)[x]; }
  }
}
