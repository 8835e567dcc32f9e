/**
  Headroom and termination. A step that admits never preempts; without the prefix cache, and
  when every request fits the pool on its own, every step makes progress and `run` ends.
 */
module Progress {
  import opened Wrappers
  import opened Allocator
  import opened Arith
  import opened Paging
  import opened Batch
  import opened Transformer
  import opened PrefixCaching
  import opened Content
  import opened Requests
  import opened Prefilling
  import opened Scheduling
  import opened Refinement
  import opened Bookkeeping

  function Unfinished<K>(e: Engine<K>): nat
  {
    |e.running| + |e.waiting|
  }

  /** Tokens a request may still generate. */
  function Left(r: Request): nat
  {
    if |r.output| < r.maxTokens then r.maxTokens - |r.output| else 0
  }

  /** The oldest live request: the batch and then the queue are in arrival order. */
  function HeadLeft<K>(e: Engine<K>): nat
  {
    if e.running != [] then Left(e.running[0].req) else if e.waiting != [] then Left(e.waiting[0]) else 0
  }

  /** The pool could ever admit this request. */
  predicate Admissible<K, H>(c: Config<K, H>, bs: nat, blocks: nat, r: Request)
    requires bs >= 1
  {
    Need(bs, r) + ReserveFor(c, 0) <= blocks
  }

  /** The pool is large enough for this request alone, at admission and for all it feeds the model. */
  predicate Fits<K, H>(c: Config<K, H>, bs: nat, blocks: nat, r: Request)
    requires bs >= 1
  {
    Admissible(c, bs, blocks, r) && r.prompt != [] && CeilDiv(FedLength(c, r), bs) <= blocks
  }

  lemma FitsCore<K, H>(c: Config<K, H>, bs: nat, blocks: nat, r: Request, r': Request)
    requires bs >= 1 && Core(r) == Core(r')
    ensures Fits(c, bs, blocks, r) <==> Fits(c, bs, blocks, r')
  {
    if r.prompt != [] { GenerationSame(c, r, r', []); }
  }

  /** A full budget of tokens is enough room for whatever the request generates. */
  lemma BudgetFits<K, H>(c: Config<K, H>, bs: nat, blocks: nat, r: Request)
    requires bs >= 1 && r.prompt != [] && r.maxTokens >= 1 && Admissible(c, bs, blocks, r)
    requires CeilDiv(|r.prompt| + r.maxTokens - 1, bs) <= blocks
    ensures Fits(c, bs, blocks, r)
  {
    GenerationExtends(c, r, []);
    var a := Generation(c, r, []);
    if a.reason == Eos && |a.output| == r.maxTokens { FullNeverStops(c, r, []); }
    CeilMono(FedLength(c, r), |r.prompt| + r.maxTokens - 1, bs);
  }

  lemma {:induction false} FullNeverStops<K, H>(c: Config<K, H>, r: Request, out: seq<Token>)
    requires r.prompt != [] && |out| < r.maxTokens && Generation(c, r, out).reason == Eos
    ensures |Generation(c, r, out).output| < r.maxTokens
    decreases r.maxTokens - |out|
  {
    var t := Next(c.m, r.prompt + out);
    if !Stops(c, r, t) && |out| + 1 < r.maxTokens { FullNeverStops(c, r, out + [t]); }
  }

  ghost predicate AllFit<K, H>(c: Config<K, H>, e: Engine<K>)
  {
    && e.st.w.bs >= 1
    && (forall i :: 0 <= i < |e.running| ==> Fits(c, e.st.w.bs, |e.st.w.alloc.refs|, e.running[i].req))
    && (forall i :: 0 <= i < |e.waiting| ==> Fits(c, e.st.w.bs, |e.st.w.alloc.refs|, e.waiting[i]))
  }

  /** The prefix cache is off and empty, nothing is being cancelled, and everything fits. */
  ghost predicate Small<K, H>(c: Config<K, H>, e: Engine<K>)
  {
    && !c.prefixOn && c.maxBatch >= 1
    && e.st.pc.entries == map[] && e.cancels == {} && AllFit(c, e)
  }

  /** `a` comes after `e` in the same step: nobody new, sizes and counters as they were. */
  ghost predicate Later<K, H>(c: Config<K, H>, e: Engine<K>, a: Engine<K>)
  {
    && Unfinished(a) <= Unfinished(e) && |a.waiting| <= |e.waiting|
    && a.preemptions == e.preemptions && a.arrivals == e.arrivals
    && a.st.w.bs == e.st.w.bs && |a.st.w.alloc.refs| == |e.st.w.alloc.refs|
    && (Small(c, e) ==> Small(c, a))
  }

  // -- leaving and joining --------------------------------------------------------

  lemma LeaveLater<K, H>(c: Config<K, H>, e: Engine<K>, k: nat, r: Request, why: FinishReason)
    requires Shaped(e) && k < |e.running|
    ensures var a := Record(c, Leave(e, k), r, why);
      && Later(c, e, a) && Unfinished(a) == Unfinished(e) - 1 && a.waiting == e.waiting
      && a.running[..k] == e.running[..k] && NumFree(e.st.w) <= NumFree(a.st.w)
  {
    CloseInv(e.st.w, k);
    var a := Record(c, Leave(e, k), r, why);
    assert forall i :: 0 <= i < |a.running| ==> a.running[i] == e.running[if i < k then i else i + 1];
    hide Fits;
  }

  /** One settled sequence: it stays with one more token, or it leaves. */
  lemma {:induction false} AcceptLater<K, H>(c: Config<K, H>, e: Engine<K>, k: nat, toks: seq<Token>)
    requires Settling(c, e, k, toks)
    ensures var a := AcceptAll(c, e, k, toks);
      && Later(c, e, a) && a.waiting == e.waiting && k <= |a.running| && a.running[..k] == e.running[..k]
      && NumFree(e.st.w) <= NumFree(a.st.w)
      && (toks != [] && Unfinished(a) == Unfinished(e) ==>
            k < |a.running| && HasOneMore(e.running[k].req, a.running[k].req))
    decreases |toks|
  {
    if toks == [] {
    } else {
      PoolShaped(c.m, e);
      var e1 := Taken(c, e, k, toks[0]);
      var (r, f) := Accept(c, e.running[k].req, toks[0]);
      TakenLater(c, e, k, toks[0]);
      hide Settling, Later, StoreOK, Taken;
      if f.None? {
        TakenStays(c, e, k, toks);
        AcceptLater(c, e1, k + 1, toks[1..]);
        var a := AcceptAll(c, e1, k + 1, toks[1..]);
        LaterTrans(c, e, e1, a);
        assert a.running[k] == a.running[..k + 1][k] == e1.running[k];
        assert a.running[..k] == a.running[..k + 1][..k] == e1.running[..k];
      } else {
        TakenLeaves(c, e, k, toks);
        LeaveLater(c, e1, k, r, f.value);
        var e2 := Record(c, Leave(e1, k), r, f.value);
        AcceptLater(c, e2, k, toks[1..]);
        LaterTrans(c, e, e1, e2);
        LaterTrans(c, e, e2, AcceptAll(c, e2, k, toks[1..]));
      }
    }
  }

  ghost predicate HasOneMore(r: Request, r': Request)
  {
    r'.maxTokens == r.maxTokens && |r'.output| == |r.output| + 1
  }

  lemma LaterTrans<K, H>(c: Config<K, H>, e: Engine<K>, e1: Engine<K>, e2: Engine<K>)
    requires Later(c, e, e1) && Later(c, e1, e2)
    ensures Later(c, e, e2) && Unfinished(e2) <= Unfinished(e1) <= Unfinished(e)
  {
    hide Small;
  }

  lemma TakenLater<K, H>(c: Config<K, H>, e: Engine<K>, k: nat, t: Token)
    requires k < |e.running|
    ensures var a := Taken(c, e, k, t);
      && Later(c, e, a) && a.waiting == e.waiting && a.st == e.st && |a.running| == |e.running|
      && a.running[..k] == e.running[..k]
      && (Accept(c, e.running[k].req, t).1.None? ==> HasOneMore(e.running[k].req, a.running[k].req))
      && a.running[k].req == Accept(c, e.running[k].req, t).0
  {
    var a := Taken(c, e, k, t);
    assert a.running == e.running[k := a.running[k]];
    var n := |e.st.w.alloc.refs|;
    if e.st.w.bs >= 1 { FitsCore(c, e.st.w.bs, n, e.running[k].req, a.running[k].req); }
    hide Fits;
  }

  // -- admission --------------------------------------------------------------------

  lemma FreedLater<K, H>(c: Config<K, H>, e: Engine<K>, n: nat)
    requires Serving(c, e) && StoreOK(e.st)
    ensures Later(c, e, e.(st := EnsureFree(e.st, n).s))
  {
    assert PoolRight(c.m, e.st);
    hide Serving, StoreOK, Fits, EnsureFree, PoolRight;
    FreedRight(c.m, e.st, n);
    FreedEmpty(e.st, n);
  }

  lemma FreedEmpty<E>(s: Store<E>, n: nat)
    requires StoreOK(s)
    ensures s.pc.entries == map[] ==> EnsureFree(s, n).s.pc.entries == map[]
  {
    if NumFree(s.w) < n { EvictFacts(s, n - NumFree(s.w)); }
    hide StoreOK, Evictable, PrefixCaching.Evict;
    assert s.pc.entries == map[] ==> EnsureFree(s, n).s.pc.entries.Keys == {};
  }

  ghost predicate Admitted<K, H>(c: Config<K, H>, e: Engine<K>, a: Engine<K>)
    requires e.waiting != []
  {
    && Later(c, e, a) && a.waiting == e.waiting[1..]
    && e.running <= a.running && |a.running| <= |e.running| + 1
    && NumFree(a.st.w) > |a.running|
    && (Unfinished(a) == Unfinished(e) ==>
          |a.running| == |e.running| + 1 && HasOneMore(e.waiting[0], a.running[|e.running|].req))
  }

  /** A request that passes the admission check leaves a spare block for everyone in its batch. */
  lemma AdmitOneLater<K, H>(c: Config<K, H>, e: Engine<K>)
    requires Serving(c, e) && Shaped(e) && e.waiting != [] && e.waiting[0].prompt != [] && e.st.w.bs >= 1
    ensures var a := AdmitOne(c, e);
      && (!a.more ==> Later(c, e, a.e) && a.e == e.(st := a.e.st) && NumFree(e.st.w) <= NumFree(a.e.st.w))
      && (a.more ==> Admitted(c, e, a.e))
  {
    hide *;
    AdmitOneFacts(c, e);
    ServingShape(c, e);
    PoolStore(c.m, e.st);
    var a, f := AdmitOne(c, e), EnsureFree(e.st, Room(c, e));
    var e1 := e.(st := f.s);
    FreedRight(c.m, e.st, Room(c, e));
    FreedLater(c, e, Room(c, e));
    FreedServing(c, e, f.s);
    PoppedServing(c, e1);
    ServingShape(c, e1);
    if a.more {
      var p := Prefill(c, f.s, e.waiting[0].prompt);
      if !c.prefixOn { PrefillOff(c, f.s, e.waiting[0].prompt); }
      JoinLater(c, e1, p.s);
      FreedAdmitted(c, e, f.s, a.e);
    }
  }

  lemma FreedAdmitted<K, H>(c: Config<K, H>, e: Engine<K>, s: Store<seq<K>>, a: Engine<K>)
    requires e.waiting != [] && Later(c, e, e.(st := s)) && Admitted(c, e.(st := s), a)
    ensures Admitted(c, e, a)
  {
    LaterTrans(c, e, e.(st := s), a);
    hide Later;
  }

  lemma PrefillOff<K, H>(c: Config<K, H>, s: Store<seq<K>>, ids: seq<Token>)
    requires StoreOK(s) && ids != [] && !c.prefixOn && Prefill(c, s, ids).ok
    ensures Prefill(c, s, ids).s.pc == s.pc
  {
    SeededOK(c, s, ids);
    hide Reserve, PrefillPass, StoreOK, Inv;
  }

  lemma MovedLater<K, H>(c: Config<K, H>, e: Engine<K>, s: Store<seq<K>>)
    requires e.waiting != [] && s.w.bs == e.st.w.bs && |s.w.alloc.refs| == |e.st.w.alloc.refs|
    requires !c.prefixOn ==> s.pc == e.st.pc
    ensures Later(c, e, e.(st := s, waiting := e.waiting[1..], running := e.running + [Sequence(e.waiting[0], 0)]))
  {
    hide Fits;
  }

  lemma JoinLater<K, H>(c: Config<K, H>, e: Engine<K>, s: Store<seq<K>>)
    requires Serving(c, e) && e.waiting != [] && Serving(c, e.(waiting := e.waiting[1..])) && WaitOK(e.waiting[0])
    requires Extends(c.m, e.st, s) && TableRight(c.m, s.w, |e.running|, e.waiting[0].prompt)
    requires !c.prefixOn ==> s.pc == e.st.pc
    requires NumFree(s.w) > ReserveFor(c, |e.running|)
    ensures Admitted(c, e,
            Joined(c, e.(st := s, waiting := e.waiting[1..]), e.waiting[0], Next(c.m, e.waiting[0].prompt)))
  {
    var k, r, e0 := |e.running|, e.waiting[0], e.(waiting := e.waiting[1..]);
    var e1, t := e0.(st := s, running := e.running + [Sequence(r, 0)]), Next(c.m, e.waiting[0].prompt);
    hide Serving, Settling, AcceptAll, Joined, Extends, TableRight, PoolRight, Fits;
    JoinedSettling(c, e0, s, r);
    AcceptLater(c, e1, k, [t]);
    ExtendsShape(c.m, e.st, s);
    var a := AcceptAll(c, e1, k, [t]);
    MovedLater(c, e, s);
    hide Later;
    LaterTrans(c, e, e1, a);
    assert a.running[..k] == e.running;
  }

  lemma {:induction false} AdmitLater<K, H>(c: Config<K, H>, e: Engine<K>)
    requires Serving(c, e)
    ensures var a := Admit(c, e);
      && Later(c, e, a) && e.running <= a.running
      && (|a.waiting| < |e.waiting| ==> NumFree(a.st.w) > |a.running|)
      && (|a.waiting| == |e.waiting| ==> a == e.(st := a.st) && NumFree(e.st.w) <= NumFree(a.st.w))
    decreases |e.waiting|
  {
    hide Serving, AdmitOne, Shaped, Later, Small;
    ServingShape(c, e);
    assert Later(c, e, e) by { LaterRefl(c, e); }
    if e.waiting != [] && |e.running| < c.maxBatch {
      AdmitOneServing(c, e);
      AdmitOneLater(c, e);
      var a := AdmitOne(c, e);
      if a.more {
        AdmitLater(c, a.e);
        LaterTrans(c, e, a.e, Admit(c, a.e));
        LaterShape(c, a.e, Admit(c, a.e));
      }
    }
  }

  lemma LaterRefl<K, H>(c: Config<K, H>, e: Engine<K>)
    ensures Later(c, e, e)
  {
  }

  lemma LaterShape<K, H>(c: Config<K, H>, e: Engine<K>, a: Engine<K>)
    requires Later(c, e, a)
    ensures Unfinished(a) <= Unfinished(e) && |a.waiting| <= |e.waiting|
    ensures a.preemptions == e.preemptions && a.arrivals == e.arrivals
    ensures Small(c, e) ==> Small(c, a)
  {
  }

  /**
    A step that admits at least one request never preempts in that same step: every member
    of the batch, old or new, has a block set aside for it.
   */
  lemma AdmissionNeverPreempts<K, H>(c: Config<K, H>, e: Engine<K>)
    requires Serving(c, e)
    requires |Admit(c, ApplyCancellations(c, e)).waiting| < |ApplyCancellations(c, e).waiting|
    ensures var a := Admit(c, ApplyCancellations(c, e));
      && Shaped(a) && AllTight(a.st.w) && Inv(a.st.w)
      && Prepare(a.st.w, |a.running|).ok
      && Step(c, e).preemptions == e.preemptions
  {
    CancelServing(c, e);
    var e0 := ApplyCancellations(c, e);
    var a := Admit(c, e0);
    AdmitServing(c, e0);
    AdmitLater(c, e0);
    ServingShape(c, a);
    CancelCounters(c, e);
    assert Inv(a.st.w) && StoreOK(a.st);
    hide Serving, Admit, ApplyCancellations, StoreOK, Inv, AllTight, Decode;
    RoomForAll(a.st.w);
    if a.running != [] {
      DecodeLater(c, a);
    }
  }

  /** A batch no larger than the free list always prepares. */
  lemma RoomForAll<E>(w: World<E>)
    requires Inv(w) && AllTight(w) && |w.tables| <= NumFree(w)
    ensures Prepare(w, |w.tables|).ok
  {
    CountMono(w, 0, |w.tables|);
    PrepareAtomic(w, |w.tables|);
  }

  lemma {:induction false} CancelCounters<K, H>(c: Config<K, H>, e: Engine<K>)
    ensures ApplyCancellations(c, e).preemptions == e.preemptions
  {
    var e0 := e.(cancels := {});
    CancelRunningCounter(c, e0, e.cancels, 0);
    CancelWaitingCounter(c, CancelRunning(c, e0, e.cancels, 0), e.cancels, 0);
  }

  lemma {:induction false} CancelRunningCounter<K, H>(c: Config<K, H>, e: Engine<K>, wanted: set<nat>, k: nat)
    ensures CancelRunning(c, e, wanted, k).preemptions == e.preemptions
    decreases |e.running| - k
  {
    hide StoreOK;
    if Shaped(e) && k < |e.running| {
      if e.running[k].req.id in wanted {
        CancelRunningCounter(c, Record(c, Leave(e, k), e.running[k].req, Cancelled), wanted, k);
      } else {
        CancelRunningCounter(c, e, wanted, k + 1);
      }
    }
  }

  lemma {:induction false} CancelWaitingCounter<K, H>(c: Config<K, H>, e: Engine<K>, wanted: set<nat>, k: nat)
    ensures CancelWaiting(c, e, wanted, k).preemptions == e.preemptions
    decreases |e.waiting| - k
  {
    if k < |e.waiting| {
      if e.waiting[k].id in wanted {
        CancelWaitingCounter(c, Record(c, e.(waiting := RemoveAt(e.waiting, k)), e.waiting[k], Cancelled), wanted, k);
      } else {
        CancelWaitingCounter(c, e, wanted, k + 1);
      }
    }
  }

  /** A decode step that prepares: nobody is added, and the oldest member advances or somebody ends. */
  lemma DecodeLater<K, H>(c: Config<K, H>, e: Engine<K>)
    requires Serving(c, e) && Shaped(e) && AllTight(e.st.w) && Inv(e.st.w) && e.running != []
    requires Prepare(e.st.w, |e.running|).ok
    ensures var d := Decode(c, e);
      && Later(c, e, d)
      && (Unfinished(d) == Unfinished(e) ==> d.running != [] && HasOneMore(e.running[0].req, d.running[0].req))
  {
    hide Queues, SeqOK, Decode, Prepare, AllTight, SlabOK, Committed, Small;
    PoolShaped(c.m, e);
    hide PoolRight, Inv, StoreOK;
    PreparedRight(c.m, e.st);
    var r := Prepare(e.st.w, |e.running|).w;
    DecodedSettling(c, e, r);
    DecodeUnfold(c, e, r);
    var y := RunPlan(c.m, DecodePlan(r, |e.running|), Pass(r.slab, Pending(c, e)));
    var e' := e.(st := e.st.(w := r.(slab := y.slab)));
    AcceptLater(c, e', 0, Heads(c, y));
    CommittedLater(c, e, r, y.slab);
    LaterTrans(c, e, e', Decode(c, e));
  }

  lemma CommittedLater<K, H>(c: Config<K, H>, e: Engine<K>, r: World<seq<K>>, slab: seq<seq<K>>)
    requires Inv(e.st.w) && |e.running| <= |e.st.w.tables| && Committed(e.st.w, r, |e.running|)
    ensures Later(c, e, e.(st := e.st.(w := r.(slab := slab))))
  {
    hide Inv, Kept, AllTight, Fits;
  }

  // -- the pool without a prefix cache ---------------------------------------------------

  lemma NothingCached<E>(s: Store<E>)
    requires StoreOK(s) && s.pc.entries == map[]
    ensures s.w.cached == {}
  {
  }

  /** With one table and nothing cached, the free list is everything the table does not list. */
  lemma LoneFree<E>(w: World<E>)
    requires Inv(w) && w.cached == {} && |w.tables| <= 1
    ensures w.tables == [] ==> NumFree(w) >= |w.alloc.refs|
    ensures |w.tables| == 1 ==> NumFree(w) + |w.tables[0].blocks| >= |w.alloc.refs|
    ensures |w.tables| == 1 ==> !SharedTail(w, 0)
  {
    var held: seq<nat> := if w.tables == [] then [] else w.tables[0].blocks;
    assert |w.tables| == 1 ==> w.tables[..0] == [];
    forall b | 0 <= b < |w.alloc.refs| ensures b in w.alloc.free + held && w.alloc.refs[b] <= 1 {
      assert w.alloc.refs[b] == Owed(w, b) == Holders(w.tables, b);
      assert Holders(w.tables, b) == if b in held then 1 else 0;
    }
    CoverBound(w.alloc.free + held, |w.alloc.refs|);
  }

  /** A live request has not yet fed all its generation feeds. */
  lemma NextFed<K, H>(c: Config<K, H>, r: Request)
    requires OnTrack(c, r)
    ensures |r.prompt| + |r.output| <= FedLength(c, r)
  {
    GenerationExtends(c, r, r.output);
  }

  /** A sequence alone in the pool, within its full length, always gets its next block. */
  lemma LonePrepares<K, H>(c: Config<K, H>, e: Engine<K>)
    requires Serving(c, e) && Small(c, e) && |e.running| == 1 && Inv(e.st.w) && AllTight(e.st.w)
    ensures |e.st.w.tables| == 1 && Prepare(e.st.w, 1).ok
  {
    var w, r := e.st.w, e.running[0].req;
    assert SeqOK(c, e, 0);
    NothingCached(e.st);
    LoneFree(w);
    PrepareAtomic(w, 1);
    assert Count(w, 1) == Count(w, 0) + if NeedsBlock(w, 0) then 1 else 0;
    if w.tables[0].len % w.bs == 0 {
      CeilStep(w.tables[0].len, w.bs);
      NextFed(c, r);
      CeilMono(w.tables[0].len + 1, FedLength(c, r), w.bs);
      assert Fits(c, w.bs, |w.alloc.refs|, r);
    }
  }

  // -- progress --------------------------------------------------------------------------

  lemma NoCancels<K, H>(c: Config<K, H>, e: Engine<K>)
    requires e.cancels == {}
    ensures ApplyCancellations(c, e) == e
  {
  }

  /** An idle engine always admits the head of its queue. */
  lemma IdleAdmits<K, H>(c: Config<K, H>, e: Engine<K>)
    requires Serving(c, e) && Small(c, e) && e.running == [] && e.waiting != []
    ensures Shaped(e) && e.waiting[0].prompt != [] && AdmitOne(c, e).more
  {
    ServingShape(c, e);
    PoolStore(c.m, e.st);
    AdmitOneFacts(c, e);
    NothingCached(e.st);
    LoneFree(e.st.w);
    FreedRight(c.m, e.st, Room(c, e));
    assert Fits(c, e.st.w.bs, |e.st.w.alloc.refs|, e.waiting[0]);
  }

  /** What admission does to the oldest request. */
  lemma AdmitHead<K, H>(c: Config<K, H>, e: Engine<K>)
    requires Serving(c, e) && Small(c, e) && Unfinished(e) > 0
    ensures var a := Admit(c, e);
      && Unfinished(a) <= Unfinished(e)
      && (Unfinished(a) == Unfinished(e) ==>
            && a.running != []
            && (e.running != [] ==> a.running[0] == e.running[0])
            && (e.running == [] ==> HasOneMore(e.waiting[0], a.running[0].req)))
      && (e.running == [] ==> |a.waiting| < |e.waiting|)
  {
    AdmitLater(c, e);
    LaterShape(c, e, Admit(c, e));
    if e.running == [] {
      IdleAdmits(c, e);
      AdmitOneServing(c, e);
      AdmitOneLater(c, e);
      var a := AdmitOne(c, e).e;
      hide Serving, Small, Shaped, AdmitOne, Later;
      AdmitLater(c, a);
      LaterShape(c, e, a);
      LaterShape(c, a, Admit(c, a));
      assert Admit(c, e) == Admit(c, a);
    }
  }

  /** `run`'s measure: unfinished requests, tokens left for the oldest, size of the batch. */
  ghost predicate Smaller<K>(a: Engine<K>, e: Engine<K>)
  {
    || Unfinished(a) < Unfinished(e)
    || (Unfinished(a) == Unfinished(e) && HeadLeft(a) < HeadLeft(e))
    || (Unfinished(a) == Unfinished(e) && HeadLeft(a) == HeadLeft(e) && |a.running| < |e.running|)
  }

  /**
    Every step of a busy engine makes progress: somebody finishes, or the oldest request gets
    a token, or the batch shrinks by a preemption that leaves the oldest request alone.
   */
  lemma StepProgress<K, H>(c: Config<K, H>, e: Engine<K>)
    requires Serving(c, e) && Small(c, e) && Unfinished(e) > 0
    ensures Smaller(Step(c, e), e) && Small(c, Step(c, e)) && Serving(c, Step(c, e))
    ensures Step(c, e).arrivals == e.arrivals
  {
    hide Serving, Admit, Later, Inv, StoreOK, Shaped, AllTight, Prepare, Decode, ApplyCancellations;
    StepServing(c, e);
    NoCancels(c, e);
    hide Small;
    var a := Admit(c, e);
    AdmitServing(c, e);
    AdmitLater(c, e);
    LaterShape(c, e, a);
    AdmitHead(c, e);
    ServingShape(c, a);
    PoolStore(c.m, a.st);
    if a.running != [] {
      if Prepare(a.st.w, |a.running|).ok {
        DecodeLater(c, a);
        LaterShape(c, a, Decode(c, a));
        if Unfinished(Decode(c, a)) == Unfinished(e) {
          HeadTracks(c, a);
        }
      } else {
        if |a.waiting| < |e.waiting| { RoomForAll(a.st.w); }
        if |a.running| == 1 { LonePrepares(c, a); }
        PreemptSmall(c, a);
      }
    }
  }

  lemma HeadTracks<K, H>(c: Config<K, H>, e: Engine<K>)
    requires Serving(c, e) && e.running != []
    ensures |e.running[0].req.output| < e.running[0].req.maxTokens
  {
    assert SeqOK(c, e, 0);
  }

  lemma PreemptSmall<K, H>(c: Config<K, H>, e: Engine<K>)
    requires Serving(c, e) && Small(c, e) && Shaped(e) && AllTight(e.st.w) && |e.running| >= 2
    requires !Prepare(e.st.w, |e.running|).ok
    ensures Small(c, Decode(c, e)) && Smaller(Decode(c, e), e) && Decode(c, e).arrivals == e.arrivals
  {
    hide Serving, Prepare, Inv, StoreOK, Small;
    PreemptShape(c, e);
    assert Decode(c, e) == Preempt(e);
  }

  lemma PreemptShape<K, H>(c: Config<K, H>, e: Engine<K>)
    requires Small(c, e) && Shaped(e) && |e.running| >= 2
    ensures Small(c, Preempt(e)) && Smaller(Preempt(e), e)
  {
    var n := |e.running| - 1;
    assert Inv(e.st.w);
    hide Inv, StoreOK;
    CloseInv(e.st.w, n);
    assert Fits(c, e.st.w.bs, |e.st.w.alloc.refs|, e.running[n].req);
    FitsCore(c, e.st.w.bs, |e.st.w.alloc.refs|, e.running[n].req, Preempt(e).waiting[0]);
    hide Fits;
  }

  // -- run ---------------------------------------------------------------------------------

  lemma DrainSmall<K, H>(c: Config<K, H>, e: Engine<K>)
    requires Serving(c, e)
    ensures Serving(c, DrainFinished(e.(emitted := [])))
    ensures Small(c, e) ==> Small(c, DrainFinished(e.(emitted := [])))
  {
    SameBatchServing(c, e, DrainFinished(e.(emitted := [])));
  }

  /** One iteration of `run`'s loop: step, forget the emitted tokens, collect the outcomes. */
  ghost function RunOnce<K, H>(c: Config<K, H>, e: Engine<K>): Engine<K>
  {
    DrainFinished(Step(c, e).(emitted := []))
  }

  /** One iteration makes progress and keeps every invariant. */
  lemma OnceSmaller<K, H>(c: Config<K, H>, e: Engine<K>)
    requires Serving(c, e) && Small(c, e) && Unfinished(e) > 0
    ensures var r := RunOnce(c, e); Serving(c, r) && Small(c, r) && Smaller(r, e)
  {
    hide Serving, Small, Step;
    StepProgress(c, e);
    DrainSmall(c, Step(c, e));
  }

  lemma OnceBooks<K, H>(c: Config<K, H>, e: Engine<K>)
    requires Books(c, e)
    ensures Books(c, RunOnce(c, e)) && RunOnce(c, e).arrivals == e.arrivals
    ensures e.drained + e.newly <= RunOnce(c, e).drained && RunOnce(c, e).newly == []
  {
    hide Books, Step;
    StepBooks(c, e);
    StepFollows(c, e);
    DrainedBooks(c, Step(c, e));
  }

  lemma DrainedBooks<K, H>(c: Config<K, H>, e: Engine<K>)
    requires Books(c, e)
    ensures Books(c, DrainFinished(e.(emitted := [])))
  {
    SameBooks(c, e, DrainFinished(e.(emitted := [])));
  }

  /** `run`'s loop. It terminates. */
  ghost function RunLoop<K, H>(c: Config<K, H>, e: Engine<K>): Engine<K>
    requires Serving(c, e) && Small(c, e)
    decreases Unfinished(e), HeadLeft(e), |e.running|
  {
    if Unfinished(e) == 0 then DrainFinished(e) else
      OnceSmaller(c, e);
      RunLoop(c, RunOnce(c, e))
  }

  /** Everything submitted has been collected. */
  ghost predicate AllDone<K, H>(c: Config<K, H>, r: Engine<K>, arrivals: seq<Request>)
  {
    Serving(c, r) && Books(c, r) && Unfinished(r) == 0 && r.newly == [] && r.arrivals == arrivals
  }

  lemma LastDrain<K, H>(c: Config<K, H>, e: Engine<K>)
    requires Serving(c, e) && Books(c, e) && Unfinished(e) == 0
    ensures AllDone(c, DrainFinished(e), e.arrivals)
  {
    SameBatchServing(c, e, DrainFinished(e));
    SameBooks(c, e, DrainFinished(e));
  }

  lemma {:induction false} RunLoopEnds<K, H>(c: Config<K, H>, e: Engine<K>)
    requires Serving(c, e) && Small(c, e) && Books(c, e)
    ensures AllDone(c, RunLoop(c, e), e.arrivals)
    decreases Unfinished(e), HeadLeft(e), |e.running|
  {
    hide Serving, Small, Books, RunOnce, AllDone;
    if Unfinished(e) == 0 {
      LastDrain(c, e);
    } else {
      OnceSmaller(c, e);
      OnceBooks(c, e);
      RunLoopEnds(c, RunOnce(c, e));
    }
  }

  /** Submit every request, whatever admission control says of each. */
  function AddAll<K, H>(c: Config<K, H>, e: Engine<K>, rs: seq<Request>, admit: seq<bool>): Engine<K>
    requires |admit| == |rs|
  {
    if rs == [] then e else
      var n := |rs| - 1;
      Add(c, AddAll(c, e, rs[..n], admit[..n]), rs[n], admit[n])
  }

  lemma {:induction false} AddAllFacts<K, H>(c: Config<K, H>, e: Engine<K>, rs: seq<Request>, admit: seq<bool>)
    requires |admit| == |rs| && Serving(c, e) && Small(c, e) && Books(c, e) && e.st.w.bs >= 1
    requires forall i :: 0 <= i < |rs| ==> WaitOK(rs[i])
    requires forall i :: 0 <= i < |rs| && admit[i] ==> Fits(c, e.st.w.bs, |e.st.w.alloc.refs|, rs[i])
    ensures var a := AddAll(c, e, rs, admit);
      && Serving(c, a) && Small(c, a) && Books(c, a) && a.arrivals == e.arrivals + Cores(rs) && a.st == e.st
  {
    hide Serving, Small, Books, Fits, WaitOK;
    if rs == [] {
      assert Cores(rs) == [] && e.arrivals + [] == e.arrivals;
    } else {
      var n := |rs| - 1;
      AddAllFacts(c, e, rs[..n], admit[..n]);
      AddFacts(c, AddAll(c, e, rs[..n], admit[..n]), rs[n], admit[n]);
      assert Cores(rs) == Cores(rs[..n]) + [Core(rs[n])];
    }
  }

  lemma AddFacts<K, H>(c: Config<K, H>, e: Engine<K>, r: Request, admit: bool)
    requires Serving(c, e) && Small(c, e) && Books(c, e) && e.st.w.bs >= 1
    requires WaitOK(r) && (admit ==> Fits(c, e.st.w.bs, |e.st.w.alloc.refs|, r))
    ensures var a := Add(c, e, r, admit);
      && Serving(c, a) && Small(c, a) && Books(c, a) && a.arrivals == e.arrivals + [Core(r)] && a.st == e.st
  {
    hide Fits, Serving, Books, Newest;
    AddBooks(c, e, r, admit);
    ApplyServing(c, e, AddRequest(r, admit));
  }

  /**
    `run` terminates and returns every request exactly once. Without the prefix cache, on a
    fresh engine, for any batch of fresh requests whose admitted members each fit the pool on
    their own: the outcomes collected are, as submitted, a permutation of the requests, and each
    that ended by the stop token or by length is the sequential baseline's answer to it.
   */
  lemma RunTerminates<K, H>(c: Config<K, H>, bs: nat, slab: seq<seq<K>>, n: nat, rs: seq<Request>, admit: seq<bool>)
    requires BootOK(c, bs, slab, n) && !c.prefixOn && c.maxBatch >= 1 && |admit| == |rs|
    requires forall i :: 0 <= i < |rs| ==> WaitOK(rs[i])
    requires forall i :: 0 <= i < |rs| && admit[i] ==> Fits(c, bs, n, rs[i])
    ensures var e := AddAll(c, Boot(bs, slab, n), rs, admit);
      && Serving(c, e) && Small(c, e)
      && multiset(Cores(RunLoop(c, e).drained)) == multiset(rs)
      && (forall i :: 0 <= i < |RunLoop(c, e).drained| ==> Resolved(c, RunLoop(c, e).drained[i]))
  {
    var e0 := Boot(bs, slab, n);
    FreshOK(n);
    BootServing(c, bs, slab, n);
    BootBooks(c, bs, slab, n);
    assert Small(c, e0);
    hide Serving, Small, Books, Fits, AllDone;
    AddAllFacts(c, e0, rs, admit);
    var e := AddAll(c, e0, rs, admit);
    RunLoopEnds(c, e);
    FreshCores(rs);
    AllCollected(c, RunLoop(c, e), rs);
  }

  /** An outcome is the baseline's answer to what was submitted, unless it never ran to its end. */
  ghost predicate Resolved<K, H>(c: Config<K, H>, r: Request)
  {
    && r.prompt != [] && r.reason.Some?
    && (Completed(r) ==>
          && (r == Answered(c, Core(r)) <==> r.maxTokens >= 1)
          && Spells(c, r, if r.maxTokens >= 1 then r.maxTokens else 1, Answer(r.output, r.reason.value)))
  }

  lemma FreshCores(rs: seq<Request>)
    requires forall i :: 0 <= i < |rs| ==> WaitOK(rs[i])
    ensures Cores(rs) == rs
  {
    forall i | 0 <= i < |rs| ensures Core(rs[i]) == rs[i] { assert WaitOK(rs[i]); }
  }

  lemma AllCollected<K, H>(c: Config<K, H>, r: Engine<K>, rs: seq<Request>)
    requires AllDone(c, r, [] + rs)
    ensures multiset(Cores(r.drained)) == multiset(rs)
    ensures forall i :: 0 <= i < |r.drained| ==> Resolved(c, r.drained[i])
  {
    assert Outcomes(r) == r.drained && LiveCores(r) == [] && [] + rs == rs;
    forall i | 0 <= i < |r.drained| ensures Resolved(c, r.drained[i]) {
      OutcomeDone(c, r, r.drained[i]);
      if Completed(r.drained[i]) { DoneAnswered(c, r.drained[i]); DoneSpells(c, r.drained[i]); }
    }
  }

  // -- a request the pool can never hold ---------------------------------------------------

  /** With no table left, everything the cache holds is evictable. */
  lemma IdleEvictable<E>(s: Store<E>, k: Key)
    requires StoreOK(s) && s.w.tables == [] && k in s.pc.entries
    ensures Evictable(s, k)
  {
    assert EntryOK(s.pc, k);
    assert s.w.alloc.refs[s.pc.entries[k].block] == Owed(s.w, s.pc.entries[k].block);
  }

  lemma IdleEmptied<E>(f: Store<E>)
    requires StoreOK(f) && f.w.tables == [] && !AnyEvictable(f)
    ensures NumFree(f.w) >= |f.w.alloc.refs|
  {
    forall k | k in f.pc.entries ensures false { IdleEvictable(f, k); }
    assert f.pc.entries == map[];
    NothingCached(f);
    assert Inv(f.w);
    hide *;
    LoneFree(f.w);
  }

  lemma EvictedIdle<E>(s: Store<E>, n: nat)
    requires StoreOK(s) && s.w.tables == []
    ensures NumFree(PrefixCaching.Evict(s, n).w) >= if NumFree(s.w) + n < |s.w.alloc.refs| then NumFree(s.w) + n
                                                    else |s.w.alloc.refs|
  {
    var f := PrefixCaching.Evict(s, n);
    EvictFacts(s, n);
    InsertBlocks(s, f);
    hide StoreOK, PrefixCaching.Evict, AnyEvictable, NumFree, Evictable;
    if NumFree(f.w) < NumFree(s.w) + n { IdleEmptied(f); }
  }

  lemma IdleFreesAll<E>(s: Store<E>, n: nat)
    requires StoreOK(s) && s.w.tables == [] && n <= |s.w.alloc.refs|
    ensures EnsureFree(s, n).ok
  {
    hide *;
    EnsureFreeIs(s, n);
    if NumFree(s.w) < n { EvictedIdle(s, n - NumFree(s.w)); }
  }

  lemma EnsureFreeIs<E>(s: Store<E>, n: nat)
    requires StoreOK(s)
    ensures NumFree(s.w) >= n ==> EnsureFree(s, n).ok
    ensures NumFree(s.w) < n ==> (EnsureFree(s, n).ok <==> NumFree(PrefixCaching.Evict(s, n - NumFree(s.w)).w) >= n)
  {
    hide StoreOK, PrefixCaching.Evict, NumFree;
  }

  /**
    An idle engine admits the head of its queue exactly when the pool could ever hold it:
    prompt blocks, one spare block and the reserve floor against the size of the pool.
   */
  lemma IdleAdmitsIff<K, H>(c: Config<K, H>, e: Engine<K>)
    requires Serving(c, e) && Shaped(e) && e.running == [] && e.waiting != [] && e.waiting[0].prompt != []
             && e.st.w.bs >= 1
    ensures AdmitOne(c, e).more <==> Room(c, e) <= |e.st.w.alloc.refs|
  {
    AdmitOneFacts(c, e);
    ServingShape(c, e);
    FreedRight(c.m, e.st, Room(c, e));
    if Room(c, e) <= |e.st.w.alloc.refs| {
      IdleFreesAll(e.st, Room(c, e));
    }
  }

  /**
    The rejection meant for a request the pool can never hold is dead code. When such a
    request is at the head of an idle engine the step changes neither queue nor batch and
    produces no outcome, so `run` would call it forever; without the prefix cache the step is
    the identity.
   */
  lemma OversizedStalls<K, H>(c: Config<K, H>, e: Engine<K>)
    requires Serving(c, e) && e.running == [] && e.waiting != [] && e.cancels == {} && c.maxBatch >= 1
    requires e.st.w.bs >= 1 && Room(c, e) > |e.st.w.alloc.refs|
    ensures Step(c, e) == e.(st := Step(c, e).st)
    ensures e.st.pc.entries == map[] ==> Step(c, e) == e
  {
    NoCancels(c, e);
    ServingShape(c, e);
    AdmitOneFacts(c, e);
    IdleAdmitsIff(c, e);
    var f := EnsureFree(e.st, Room(c, e)).s;
    assert Step(c, e) == AdmitOne(c, e).e;
    if e.st.pc.entries == map[] {
      NothingToEvict(e.st, Room(c, e));
    }
  }

  lemma NothingToEvict<E>(s: Store<E>, n: nat)
    requires StoreOK(s) && s.pc.entries == map[]
    ensures EnsureFree(s, n).s == s
  {
    assert !AnyEvictable(s);
  }
}
