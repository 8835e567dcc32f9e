/**
  The scheduler answers what the sequential baseline answers. The invariant `Serving` says
  that the pool is right, that every running sequence is a prefix of its own sequential
  generation, and that every outcome is that generation's end.
 */
module Refinement {
  import opened Wrappers
  import opened Allocator
  import opened Arith
  import opened Paging
  import opened Batch
  import opened Transformer
  import opened PrefixCaching
  import opened Content
  import opened Requests
  import opened Prefilling
  import opened Scheduling
  import opened Bookkeeping

  /** A live request's output so far is on the way to its own sequential answer. */
  ghost predicate OnTrack<K, H>(c: Config<K, H>, r: Request)
  {
    && r.prompt != [] && r.reason.None?
    && Generation(c, r, r.output) == Generation(c, r, [])
  }

  ghost predicate WaitOK(r: Request)
  {
    r.prompt != [] && r.reason.None? && r.output == []
  }

  /** An outcome that ran to completion is the sequential answer; nothing ends as preempted. */
  ghost predicate DoneOK<K, H>(c: Config<K, H>, r: Request)
  {
    && r.prompt != [] && r.reason.Some? && r.reason != Some(Preempted)
    && (r.reason == Some(Eos) || r.reason == Some(Length) ==>
          Generation(c, r, []) == Answer(r.output, r.reason.value))
  }

  /** The tokens a running sequence has already fed to the model: all but the pending one. */
  ghost function Fed(q: Sequence): seq<Token>
    requires q.req.output != []
  {
    q.req.prompt + q.req.output[..|q.req.output| - 1]
  }

  ghost predicate SeqOK<K, H>(c: Config<K, H>, e: Engine<K>, i: nat)
    requires i < |e.running|
  {
    var q := e.running[i];
    && OnTrack(c, q.req) && q.req.output != [] && |q.req.output| < q.req.maxTokens
    && q.next == q.req.output[|q.req.output| - 1]
    && TableRight(c.m, e.st.w, i, Fed(q))
  }

  /** A sequence whose pending token has been fed and which is about to take its share of `toks`. */
  ghost predicate DueOK<K, H>(c: Config<K, H>, e: Engine<K>, k: nat, toks: seq<Token>, i: nat)
    requires k <= i < |e.running| == k + |toks|
  {
    var r := e.running[i].req;
    && OnTrack(c, r) && toks[i - k] == Next(c.m, r.prompt + r.output)
    && TableRight(c.m, e.st.w, i, r.prompt + r.output)
  }

  ghost predicate Queues<K, H>(c: Config<K, H>, e: Engine<K>)
  {
    && (forall i :: 0 <= i < |e.waiting| ==> WaitOK(e.waiting[i]))
    && (forall i :: 0 <= i < |e.newly| ==> DoneOK(c, e.newly[i]))
    && (forall i :: 0 <= i < |e.drained| ==> DoneOK(c, e.drained[i]))
  }

  ghost predicate Serving<K, H>(c: Config<K, H>, e: Engine<K>)
  {
    && PoolRight(c.m, e.st) && |e.st.w.tables| == |e.running| && Queues(c, e)
    && (forall i :: 0 <= i < |e.running| ==> SeqOK(c, e, i))
  }

  /** Halfway through `step`'s last loop. */
  ghost predicate Settling<K, H>(c: Config<K, H>, e: Engine<K>, k: nat, toks: seq<Token>)
  {
    && PoolRight(c.m, e.st) && |e.st.w.tables| == |e.running| == k + |toks| && Queues(c, e)
    && (forall i :: 0 <= i < k ==> SeqOK(c, e, i))
    && (forall i :: k <= i < |e.running| ==> DueOK(c, e, k, toks, i))
  }

  // -- leaving the batch ----------------------------------------------------------

  lemma ClosedRight<K, H>(m: Model<K, H>, s: Store<seq<K>>, k: nat)
    requires PoolRight(m, s) && k < |s.w.tables|
    ensures Live(s.w.alloc, s.w.tables[k].blocks) && PoolRight(m, s.(w := Close(s.w, k)))
    ensures NumFree(s.w) <= NumFree(Close(s.w, k))
  {
    CloseInv(s.w, k);
    var r := s.(w := Close(s.w, k));
    SameIndexRight(m, s, r);
    forall x | 0 <= x < |r.w.tables| ensures Tight(r.w.bs, r.w.tables[x]) {
      assert r.w.tables[x] == s.w.tables[if x < k then x else x + 1];
    }
  }

  lemma ClosedTable<K, H>(m: Model<K, H>, w: World<seq<K>>, w': World<seq<K>>, x: nat, x': nat, toks: seq<Token>)
    requires x < |w.tables| && x' < |w'.tables| && w'.tables[x'] == w.tables[x] && w'.slab == w.slab
    ensures TableRight(m, w, x, toks) ==> TableRight(m, w', x', toks)
  {
    if TableRight(m, w, x, toks) {
      forall j | 0 <= j < |toks| ensures EntryRight(m, w', x', toks, j) {
        assert EntryRight(m, w, x, toks, j);
      }
    }
  }

  lemma PoolShaped<K, H>(m: Model<K, H>, e: Engine<K>)
    requires PoolRight(m, e.st) && |e.st.w.tables| == |e.running|
    ensures Shaped(e) && AllTight(e.st.w) && Inv(e.st.w)
  {
  }

  lemma LeaveSettling<K, H>(c: Config<K, H>, e: Engine<K>, k: nat, toks: seq<Token>)
    requires PoolRight(c.m, e.st) && |e.st.w.tables| == |e.running| == k + |toks| && toks != [] && Queues(c, e)
    requires forall i :: 0 <= i < k ==> SeqOK(c, e, i)
    requires forall i :: k < i < |e.running| ==> DueOK(c, e, k, toks, i)
    ensures Shaped(e) && Settling(c, Leave(e, k), k, toks[1..])
  {
    hide PoolRight, OnTrack, TableRight;
    PoolShaped(c.m, e);
    ClosedRight(c.m, e.st, k);
    var e' := Leave(e, k);
    forall i | 0 <= i < k ensures SeqOK(c, e', i) {
      assert SeqOK(c, e, i);
      ClosedTable(c.m, e.st.w, e'.st.w, i, i, Fed(e.running[i]));
    }
    forall i | k <= i < |e'.running| ensures DueOK(c, e', k, toks[1..], i) {
      assert DueOK(c, e, k, toks, i + 1);
      ClosedTable(c.m, e.st.w, e'.st.w, i + 1, i, e.running[i + 1].req.prompt + e.running[i + 1].req.output);
    }
  }

  lemma LeaveServing<K, H>(c: Config<K, H>, e: Engine<K>, k: nat)
    requires Serving(c, e) && k < |e.running|
    ensures Shaped(e) && Serving(c, Leave(e, k))
  {
    PoolShaped(c.m, e);
    ClosedRight(c.m, e.st, k);
    var e' := Leave(e, k);
    hide PoolRight, OnTrack, TableRight;
    forall i | 0 <= i < |e'.running| ensures SeqOK(c, e', i) {
      var x := if i < k then i else i + 1;
      assert SeqOK(c, e, x);
      ClosedTable(c.m, e.st.w, e'.st.w, x, i, Fed(e.running[x]));
    }
  }

  // -- settling a batch -------------------------------------------------------------

  lemma RecordSettling<K, H>(c: Config<K, H>, e: Engine<K>, k: nat, toks: seq<Token>, r: Request, why: FinishReason)
    requires Settling(c, e, k, toks) && DoneOK(c, r.(reason := Some(why)))
    ensures Settling(c, Record(c, e, r, why), k, toks)
  {
    var e' := Record(c, e, r, why);
    hide PoolRight, OnTrack, TableRight, DoneOK;
    forall i | 0 <= i < k ensures SeqOK(c, e', i) { assert SeqOK(c, e, i); }
    forall i | k <= i < |e'.running| ensures DueOK(c, e', k, toks, i) { assert DueOK(c, e, k, toks, i); }
  }

  /** The sequence that takes the first of `toks`, after it has taken it. */
  ghost function Taken<K, H>(c: Config<K, H>, e: Engine<K>, k: nat, t: Token): Engine<K>
    requires k < |e.running|
  {
    var r := Accept(c, e.running[k].req, t).0;
    Emit(e.(running := e.running[k := Sequence(r, t)]), e.running[k].req, r, t)
  }

  lemma TakenTracks<K, H>(c: Config<K, H>, r: Request)
    requires OnTrack(c, r)
    ensures var (r', f) := Accept(c, r, Next(c.m, r.prompt + r.output));
      && (f.None? ==> OnTrack(c, r') && |r'.output| < r'.maxTokens && r'.prompt == r.prompt
                      && r'.output == r.output + [Next(c.m, r.prompt + r.output)])
      && (f.Some? ==> DoneOK(c, r'.(reason := f)))
  {
    AcceptStep(c, r);
    var (r', f) := Accept(c, r, Next(c.m, r.prompt + r.output));
    GenerationSame(c, r, r', []);
    if f.Some? {
      GenerationSame(c, r, r'.(reason := f), []);
    }
  }

  lemma TakenStays<K, H>(c: Config<K, H>, e: Engine<K>, k: nat, toks: seq<Token>)
    requires Settling(c, e, k, toks) && toks != [] && Accept(c, e.running[k].req, toks[0]).1.None?
    ensures Settling(c, Taken(c, e, k, toks[0]), k + 1, toks[1..])
  {
    var e', r := Taken(c, e, k, toks[0]), e.running[k].req;
    assert DueOK(c, e, k, toks, k);
    TakenTracks(c, r);
    hide PoolRight, OnTrack, Accept;
    assert SeqOK(c, e', k) by {
      var q := e'.running[k];
      assert q.req.output[..|q.req.output| - 1] == r.output;
      ClosedTable(c.m, e.st.w, e'.st.w, k, k, Fed(q));
    }
    hide TableRight;
    forall i | 0 <= i < k ensures SeqOK(c, e', i) {
      assert SeqOK(c, e, i);
      ClosedTable(c.m, e.st.w, e'.st.w, i, i, Fed(e.running[i]));
    }
    var k' := k + 1;
    forall i | k' <= i < |e'.running| ensures DueOK(c, e', k', toks[1..], i) {
      assert DueOK(c, e, k, toks, i);
    }
  }

  lemma TakenLeaves<K, H>(c: Config<K, H>, e: Engine<K>, k: nat, toks: seq<Token>)
    requires Settling(c, e, k, toks) && toks != [] && Accept(c, e.running[k].req, toks[0]).1.Some?
    ensures var (r, f) := Accept(c, e.running[k].req, toks[0]);
      Shaped(Taken(c, e, k, toks[0]))
        && Settling(c, Record(c, Leave(Taken(c, e, k, toks[0]), k), r, f.value), k, toks[1..])
  {
    hide PoolRight, OnTrack, TableRight, DoneOK, Accept;
    var e' := Taken(c, e, k, toks[0]);
    assert DueOK(c, e, k, toks, k);
    TakenTracks(c, e.running[k].req);
    forall i | 0 <= i < k ensures SeqOK(c, e', i) { assert SeqOK(c, e, i); }
    forall i | k < i < |e'.running| ensures DueOK(c, e', k, toks, i) { assert DueOK(c, e, k, toks, i); }
    LeaveSettling(c, e', k, toks);
    var (r, f) := Accept(c, e.running[k].req, toks[0]);
    RecordSettling(c, Leave(e', k), k, toks[1..], r, f.value);
  }

  lemma {:induction false} SettledServing<K, H>(c: Config<K, H>, e: Engine<K>, k: nat, toks: seq<Token>)
    requires Settling(c, e, k, toks)
    ensures Serving(c, AcceptAll(c, e, k, toks))
    decreases |toks|
  {
    hide PoolRight, SeqOK, DueOK, Queues;
    PoolShaped(c.m, e);
    if toks != [] {
      var f := Accept(c, e.running[k].req, toks[0]).1;
      if f.None? {
        TakenStays(c, e, k, toks);
        SettledServing(c, Taken(c, e, k, toks[0]), k + 1, toks[1..]);
      } else {
        TakenLeaves(c, e, k, toks);
        var r := Accept(c, e.running[k].req, toks[0]).0;
        SettledServing(c, Record(c, Leave(Taken(c, e, k, toks[0]), k), r, f.value), k, toks[1..]);
      }
    }
  }

  // -- one decode step ----------------------------------------------------------------

  /** What each running sequence will have fed once its pending token is through. */
  ghost function Histories<K>(e: Engine<K>): seq<seq<Token>>
  {
    seq(|e.running|, i requires 0 <= i < |e.running| => e.running[i].req.prompt + e.running[i].req.output)
  }

  lemma CommittedReady<K, H>(c: Config<K, H>, e: Engine<K>, r: World<seq<K>>)
    requires Serving(c, e) && Inv(e.st.w) && Committed(e.st.w, r, |e.running|) && SlabOK(c.m.layers, r.slab)
    ensures BatchReady(c.m, r, Histories(e))
  {
    var toks := Histories(e);
    hide PoolRight, Kept, AllTight, Queues;
    forall i | 0 <= i < |toks| ensures MemberReady(c.m, r, toks[i], i) {
      MemberCommitted(c, e, r, i);
    }
  }

  lemma MemberCommitted<K, H>(c: Config<K, H>, e: Engine<K>, r: World<seq<K>>, i: nat)
    requires i < |e.running| == |e.st.w.tables| && SeqOK(c, e, i)
    requires Inv(e.st.w) && Committed(e.st.w, r, |e.running|)
    ensures MemberReady(c.m, r, Histories(e)[i], i)
  {
    var q, toks := e.running[i], Histories(e)[i];
    var n := |Fed(q)|;
    assert toks[..n] == Fed(q);
    assert r.tables[i].len == n + 1 == |toks| && PrivateAt(r, i, n);
    assert TableOK(r.bs, |r.alloc.refs|, r.tables[i]);
    EntryPrefix(c.m, e.st.w, r, i, toks, n);
  }

  lemma PendingRight<K, H>(c: Config<K, H>, e: Engine<K>)
    requires |e.st.w.tables| == |e.running| && forall i :: 0 <= i < |e.running| ==> SeqOK(c, e, i)
    ensures forall i :: 0 <= i < |e.running| ==> Histories(e)[i] != []
    ensures Pending(c, e) == LastEmbeds(c.m, Histories(e))
  {
    forall i | 0 <= i < |e.running|
      ensures Histories(e)[i] != [] && e.st.w.tables[i].len == |Histories(e)[i]| - 1
      ensures e.running[i].next == Histories(e)[i][|Histories(e)[i]| - 1]
    {
      assert SeqOK(c, e, i);
    }
  }

  /** The store after a decode pass over a committed batch. */
  lemma DecodedPool<K, H>(m: Model<K, H>, s: Store<seq<K>>, r: World<seq<K>>, toks: seq<seq<Token>>)
    requires PoolRight(m, s) && Inv(s.w) && |toks| == |s.w.tables| && Committed(s.w, r, |toks|)
             && BatchReady(m, r, toks)
    ensures forall i :: 0 <= i < |toks| ==> toks[i] != []
    ensures var y := DecodePass(m, r, toks);
      && |y.hs| == |toks| && PoolRight(m, s.(w := r.(slab := y.slab)))
      && forall i :: 0 <= i < |toks| ==>
           TableRight(m, r.(slab := y.slab), i, toks[i]) && m.head(y.hs[i]) == Next(m, toks[i])
  {
    DecodeRight(m, r, toks);
    DecodeOwned(m, r, toks);
    var y, p := DecodePass(m, r, toks), DecodePlan(r, |toks|);
    CacheKept(m, s, r);
    assert StoreOK(s.(w := r));
    PassIsolated(r, p.writes, DecodeOwners(r, |toks|), y.slab);
    CacheKept(m, s.(w := r), r.(slab := y.slab));
  }

  lemma PreparedRight<K, H>(m: Model<K, H>, s: Store<seq<K>>)
    requires PoolRight(m, s) && Inv(s.w) && AllTight(s.w) && Prepare(s.w, |s.w.tables|).ok
    ensures var r := Prepare(s.w, |s.w.tables|).w;
      Committed(s.w, r, |s.w.tables|) && |r.tables| == |s.w.tables| && SlabOK(m.layers, r.slab)
  {
    PrepareAtomic(s.w, |s.w.tables|);
    CommitSlabOK(m.layers, s.w, |s.w.tables|);
  }

  /** After the pass every sequence is due the token its own history calls for. */
  lemma DecodedSettling<K, H>(c: Config<K, H>, e: Engine<K>, r: World<seq<K>>)
    requires Serving(c, e) && Inv(e.st.w) && Committed(e.st.w, r, |e.running|) && |r.tables| == |e.running|
    requires SlabOK(c.m.layers, r.slab)
    ensures |e.st.w.tables| == |e.running|
    ensures var y := RunPlan(c.m, DecodePlan(r, |e.running|), Pass(r.slab, Pending(c, e)));
      Settling(c, e.(st := e.st.(w := r.(slab := y.slab))), 0, Heads(c, y))
  {
    var n, toks := |e.running|, Histories(e);
    CommittedReady(c, e, r);
    hide PoolRight, Queues, SeqOK, BatchReady, Committed, Inv;
    DecodedPool(c.m, e.st, r, toks);
    PendingRight(c, e);
    var y := DecodePass(c.m, r, toks);
    var e', ts := e.(st := e.st.(w := r.(slab := y.slab))), Heads(c, y);
    forall i | 0 <= i < n ensures DueOK(c, e', 0, ts, i) {
      SeqTracks(c, e, i);
    }
    hide *;
    SettlingIntro(c, e, e', ts);
  }

  lemma SettlingIntro<K, H>(c: Config<K, H>, e: Engine<K>, e': Engine<K>, ts: seq<Token>)
    requires Serving(c, e) && e' == e.(st := e'.st) && PoolRight(c.m, e'.st)
    requires |e'.st.w.tables| == |e.running| == |ts| && forall i :: 0 <= i < |ts| ==> DueOK(c, e', 0, ts, i)
    ensures Settling(c, e', 0, ts)
  {
    hide PoolRight, SeqOK, DueOK;
  }

  lemma DecodeServing<K, H>(c: Config<K, H>, e: Engine<K>)
    requires Serving(c, e) && Shaped(e) && AllTight(e.st.w) && e.running != []
    requires Prepare(e.st.w, |e.running|).ok
    ensures Serving(c, Decode(c, e))
  {
    hide Queues, SeqOK, Decode, Prepare, AllTight, SlabOK, Committed;
    PoolShaped(c.m, e);
    hide PoolRight, Inv, StoreOK;
    PreparedRight(c.m, e.st);
    var r := Prepare(e.st.w, |e.running|).w;
    DecodedSettling(c, e, r);
    DecodeUnfold(c, e, r);
    var y := RunPlan(c.m, DecodePlan(r, |e.running|), Pass(r.slab, Pending(c, e)));
    SettledServing(c, e.(st := e.st.(w := r.(slab := y.slab))), 0, Heads(c, y));
  }

  lemma SeqTracks<K, H>(c: Config<K, H>, e: Engine<K>, i: nat)
    requires i < |e.running| && SeqOK(c, e, i)
    ensures OnTrack(c, e.running[i].req)
  {
  }

  // -- admission -------------------------------------------------------------------------

  lemma FreedKept<E>(s: Store<E>, n: nat)
    requires StoreOK(s)
    ensures var f := EnsureFree(s, n);
      && StoreOK(f.s) && f.s.w.tables == s.w.tables && f.s.w.slab == s.w.slab && f.s.w.bs == s.w.bs
      && NumFree(s.w) <= NumFree(f.s.w)
      && (forall k :: k in f.s.pc.entries ==> k in s.pc.entries && f.s.pc.entries[k] == s.pc.entries[k])
  {
    hide StoreOK, Evictable, AnyEvictable;
    if NumFree(s.w) < n {
      EvictFacts(s, n - NumFree(s.w));
    }
  }

  lemma FreedRight<K, H>(m: Model<K, H>, s: Store<seq<K>>, n: nat)
    requires PoolRight(m, s) && StoreOK(s)
    ensures var f := EnsureFree(s, n);
      && PoolRight(m, f.s) && f.s.w.tables == s.w.tables && f.s.w.slab == s.w.slab && f.s.w.bs == s.w.bs
      && |f.s.w.alloc.refs| == |s.w.alloc.refs| && NumFree(s.w) <= NumFree(f.s.w)
      && (f.ok <==> NumFree(f.s.w) >= n)
      && (f.ok ==> n <= |s.w.alloc.refs|)
  {
    var f := EnsureFree(s, n);
    FreedKept(s, n);
    assert CacheRight(m, s) && AllTight(s.w) && SlabOK(m.layers, s.w.slab);
    assert StoreOK(f.s);
    InsertBlocks(s, f.s);
    assert NumFree(f.s.w) <= |f.s.w.alloc.refs| by { FreeBound(f.s.w.alloc); }
    hide StoreOK, EnsureFree, BlockRight;
    forall k | k in f.s.pc.entries ensures BlockRight(m, f.s.w.bs, f.s.w.slab, f.s.pc.entries[k].block, Span(k)) {
      assert k in s.pc.entries;
    }
  }

  /** Joining is settling a batch of one more. */
  lemma JoinedIsAccept<K, H>(c: Config<K, H>, e: Engine<K>, r: Request, t: Token)
    requires Shaped(e.(running := e.running + [Sequence(r, 0)]))
    ensures Joined(c, e, r, t) == AcceptAll(c, e.(running := e.running + [Sequence(r, 0)]), |e.running|, [t])
  {
    var e', k := e.(running := e.running + [Sequence(r, 0)]), |e.running|;
    var (r', f) := Accept(c, r, t);
    assert e'.running[k := Sequence(r', t)] == e.running + [Sequence(r', t)];
    hide StoreOK, Accept, Leave;
    var e1 := Emit(e'.(running := e'.running[k := Sequence(r', t)]), r, r', t);
    assert f.None? ==> AcceptAll(c, e', k, [t]) == AcceptAll(c, e1, k + 1, []);
  }

  /** The batch with a freshly prefilled request at its end, due its first token. */
  lemma JoinedSettling<K, H>(c: Config<K, H>, e: Engine<K>, s: Store<seq<K>>, r: Request)
    requires Serving(c, e) && Extends(c.m, e.st, s) && WaitOK(r) && TableRight(c.m, s.w, |e.running|, r.prompt)
    ensures var e', t := e.(st := s, running := e.running + [Sequence(r, 0)]), Next(c.m, r.prompt);
      Settling(c, e', |e.running|, [t]) && Joined(c, e.(st := s), r, t) == AcceptAll(c, e', |e.running|, [t])
  {
    hide PoolRight, OnTrack, TableRight, Joined, AcceptAll;
    var k, t := |e.running|, Next(c.m, r.prompt);
    var e' := e.(st := s, running := e.running + [Sequence(r, 0)]);
    assert r.prompt + [] == r.prompt;
    ExtendsShape(c.m, e.st, s);
    PoolShaped(c.m, e');
    JoinedIsAccept(c, e.(st := s), r, t);
    forall i | 0 <= i < k ensures SeqOK(c, e', i) {
      assert SeqOK(c, e, i) && Carries(c.m, e.st.w, s.w, i);
    }
    assert DueOK(c, e', k, [t], k) by { WaitTracks(c, r); }
  }

  lemma WaitTracks<K, H>(c: Config<K, H>, r: Request)
    requires WaitOK(r)
    ensures OnTrack(c, r)
  {
  }

  /** The free blocks an admission check asks for. */
  ghost function Room<K, H>(c: Config<K, H>, e: Engine<K>): nat
    requires e.st.w.bs >= 1 && e.waiting != []
  {
    Need(e.st.w.bs, e.waiting[0]) + ReserveFor(c, |e.running|)
  }

  /**
    Headroom of an admission. The loop goes on exactly when the free list, after eviction,
    covers the prompt, its spare block and the reserve. It then never rejects, never fails to
    get a cache and never runs out of blocks in the prefill: the branches for those outcomes
    are dead, the one for an oversized request included.
   */
  lemma AdmitOneFacts<K, H>(c: Config<K, H>, e: Engine<K>)
    requires Serving(c, e) && Shaped(e) && e.waiting != [] && e.waiting[0].prompt != [] && e.st.w.bs >= 1
    ensures var a, f, p := AdmitOne(c, e), EnsureFree(e.st, Room(c, e)), e.waiting[0].prompt;
      && PoolRight(c.m, f.s) && StoreOK(f.s)
      && (a.more <==> NumFree(f.s.w) >= Room(c, e)) && (a.more <==> f.ok)
      && (!a.more ==> a.e == e.(st := f.s))
      && (a.more ==>
            && Prefill(c, f.s, p).ok && Prefill(c, f.s, p).token == Next(c.m, p)
            && Extends(c.m, f.s, Prefill(c, f.s, p).s) && TableRight(c.m, Prefill(c, f.s, p).s.w, |f.s.w.tables|, p)
            && NumFree(Prefill(c, f.s, p).s.w) > ReserveFor(c, |e.running|)
            && a.e == Joined(c, e.(st := Prefill(c, f.s, p).s, waiting := e.waiting[1..]), e.waiting[0], Next(c.m, p)))
  {
    var room := Room(c, e);
    assert PoolRight(c.m, e.st) && StoreOK(e.st);
    assert room == CeilDiv(|e.waiting[0].prompt|, e.st.w.bs) + 1 + ReserveFor(c, |e.running|);
    hide *;
    var f := EnsureFree(e.st, room);
    FreedRight(c.m, e.st, room);
    PoolStore(c.m, f.s);
    AdmitOneIs(c, e);
    if f.ok {
      PrefillFacts(c, f.s, e.waiting[0].prompt);
    }
  }

  /** The branches of an admission that is given its blocks. */
  lemma AdmitOneIs<K, H>(c: Config<K, H>, e: Engine<K>)
    requires Serving(c, e) && Shaped(e) && e.waiting != [] && e.waiting[0].prompt != [] && e.st.w.bs >= 1
    ensures var (a, f, p) := (AdmitOne(c, e), EnsureFree(e.st, Room(c, e)), e.waiting[0].prompt);
      && (!f.ok ==> a == Admission(false, e.(st := f.s)))
      && (f.ok && StoreOK(f.s) && Room(c, e) <= |f.s.w.alloc.refs| && NumFree(f.s.w) > 0 && Prefill(c, f.s, p).ok ==>
            var p := Prefill(c, f.s, p);
            a == Admission(true, Joined(c, e.(st := p.s, waiting := e.waiting[1..]), e.waiting[0], p.token)))
  {
    hide Serving, PoolRight, StoreOK, Inv, EnsureFree, Joined, Prefill;
  }

  lemma FreedServing<K, H>(c: Config<K, H>, e: Engine<K>, s: Store<seq<K>>)
    requires Serving(c, e) && PoolRight(c.m, s) && s.w.tables == e.st.w.tables && s.w.slab == e.st.w.slab
    ensures Serving(c, e.(st := s))
  {
    var e' := e.(st := s);
    hide PoolRight, OnTrack, TableRight, Queues;
    assert Queues(c, e') by { QueuesSame(c, e, e'); }
    forall i | 0 <= i < |e'.running| ensures SeqOK(c, e', i) {
      assert SeqOK(c, e, i);
      ClosedTable(c.m, e.st.w, s.w, i, i, Fed(e.running[i]));
    }
  }

  lemma QueuesSame<K, H>(c: Config<K, H>, e: Engine<K>, e': Engine<K>)
    requires Queues(c, e) && e'.waiting == e.waiting && e'.newly == e.newly && e'.drained == e.drained
    ensures Queues(c, e')
  {
  }

  lemma PoppedServing<K, H>(c: Config<K, H>, e: Engine<K>)
    requires Serving(c, e) && e.waiting != []
    ensures Serving(c, e.(waiting := e.waiting[1..])) && WaitOK(e.waiting[0])
  {
    var e' := e.(waiting := e.waiting[1..]);
    hide PoolRight, OnTrack, TableRight;
    forall i | 0 <= i < |e'.running| ensures SeqOK(c, e', i) { assert SeqOK(c, e, i); }
  }

  lemma AdmitOneServing<K, H>(c: Config<K, H>, e: Engine<K>)
    requires Serving(c, e) && Shaped(e) && e.waiting != [] && e.waiting[0].prompt != [] && e.st.w.bs >= 1
    ensures Serving(c, AdmitOne(c, e).e)
  {
    AdmitOneFacts(c, e);
    PoolStore(c.m, e.st);
    var f := EnsureFree(e.st, Room(c, e));
    FreedRight(c.m, e.st, Room(c, e));
    hide *;
    FreedServing(c, e, f.s);
    var e1 := e.(st := f.s);
    PoppedServing(c, e1);
    if AdmitOne(c, e).more {
      var e2 := e1.(waiting := e.waiting[1..]);
      var p := Prefill(c, f.s, e.waiting[0].prompt);
      assert |f.s.w.tables| == |e.running| by { ServingShape(c, e1); }
      JoinedSettling(c, e2, p.s, e.waiting[0]);
      SettledServing(c, e2.(st := p.s, running := e.running + [Sequence(e.waiting[0], 0)]), |e.running|, [p.token]);
    }
  }

  lemma ServingShape<K, H>(c: Config<K, H>, e: Engine<K>)
    requires Serving(c, e)
    ensures |e.st.w.tables| == |e.running| && PoolRight(c.m, e.st) && Shaped(e) && AllTight(e.st.w) && e.st.w.bs >= 1
    ensures e.waiting != [] ==> WaitOK(e.waiting[0]) && e.waiting[0].prompt != []
  {
  }

  lemma {:induction false} AdmitServing<K, H>(c: Config<K, H>, e: Engine<K>)
    requires Serving(c, e)
    ensures Serving(c, Admit(c, e))
    decreases |e.waiting|
  {
    hide Serving, AdmitOne, Shaped;
    ServingShape(c, e);
    if e.waiting != [] && |e.running| < c.maxBatch {
      AdmitOneServing(c, e);
      var a := AdmitOne(c, e);
      if a.more && |a.e.waiting| < |e.waiting| {
        AdmitServing(c, a.e);
      }
    }
  }

  // -- the other operations ------------------------------------------------------------------

  /** Only the bookkeeping of `e'` differs from `e`. */
  lemma SameBatchServing<K, H>(c: Config<K, H>, e: Engine<K>, e': Engine<K>)
    requires Serving(c, e) && e'.st == e.st && e'.running == e.running && Queues(c, e')
    ensures Serving(c, e')
  {
    hide PoolRight, OnTrack, TableRight, Queues;
    forall i | 0 <= i < |e'.running| ensures SeqOK(c, e', i) { assert SeqOK(c, e, i); }
  }

  lemma RecordServing<K, H>(c: Config<K, H>, e: Engine<K>, r: Request, why: FinishReason)
    requires Serving(c, e) && DoneOK(c, r.(reason := Some(why)))
    ensures Serving(c, Record(c, e, r, why))
  {
    SameBatchServing(c, e, Record(c, e, r, why));
  }

  lemma {:induction false} CancelRunningServing<K, H>(c: Config<K, H>, e: Engine<K>, wanted: set<nat>, k: nat)
    requires Serving(c, e)
    ensures Serving(c, CancelRunning(c, e, wanted, k))
    decreases |e.running| - k
  {
    ServingShape(c, e);
    if k < |e.running| {
      assert SeqOK(c, e, k);
      hide Serving, Shaped, Generation;
      if e.running[k].req.id in wanted {
        LeaveServing(c, e, k);
        RecordServing(c, Leave(e, k), e.running[k].req, Cancelled);
        CancelRunningServing(c, Record(c, Leave(e, k), e.running[k].req, Cancelled), wanted, k);
      } else {
        CancelRunningServing(c, e, wanted, k + 1);
      }
    }
  }

  lemma {:induction false} CancelWaitingServing<K, H>(c: Config<K, H>, e: Engine<K>, wanted: set<nat>, k: nat)
    requires Serving(c, e)
    ensures Serving(c, CancelWaiting(c, e, wanted, k))
    decreases |e.waiting| - k
  {
    if k < |e.waiting| {
      if e.waiting[k].id in wanted {
        var e1 := e.(waiting := RemoveAt(e.waiting, k));
        assert WaitOK(e.waiting[k]);
        SameBatchServing(c, e, e1);
        RecordServing(c, e1, e.waiting[k], Cancelled);
        CancelWaitingServing(c, Record(c, e1, e.waiting[k], Cancelled), wanted, k);
      } else {
        CancelWaitingServing(c, e, wanted, k + 1);
      }
    }
  }

  lemma CancelServing<K, H>(c: Config<K, H>, e: Engine<K>)
    requires Serving(c, e)
    ensures Serving(c, ApplyCancellations(c, e))
  {
    var e0 := e.(cancels := {});
    SameBatchServing(c, e, e0);
    CancelRunningServing(c, e0, e.cancels, 0);
    CancelWaitingServing(c, CancelRunning(c, e0, e.cancels, 0), e.cancels, 0);
  }

  lemma PreemptServing<K, H>(c: Config<K, H>, e: Engine<K>)
    requires Serving(c, e) && Shaped(e) && e.running != []
    ensures Serving(c, Preempt(e))
  {
    var n := |e.running| - 1;
    LeaveServing(c, e, n);
    assert SeqOK(c, e, n);
    SameBatchServing(c, Leave(e, n), Preempt(e));
  }

  lemma StepServing<K, H>(c: Config<K, H>, e: Engine<K>)
    requires Serving(c, e)
    ensures Serving(c, Step(c, e))
  {
    hide Serving, Shaped, Prepare, ApplyCancellations, Admit, AllTight;
    CancelServing(c, e);
    AdmitServing(c, ApplyCancellations(c, e));
    var a := Admit(c, ApplyCancellations(c, e));
    ServingShape(c, a);
    if a.running != [] {
      if Prepare(a.st.w, |a.running|).ok {
        DecodeServing(c, a);
      } else {
        PreemptServing(c, a);
      }
    }
  }

  /** A request may be submitted when it is fresh: a prompt, no output, no outcome. */
  ghost predicate OpOK(op: Op)
  {
    op.AddRequest? ==> WaitOK(op.r)
  }

  lemma ApplyServing<K, H>(c: Config<K, H>, e: Engine<K>, op: Op)
    requires Serving(c, e) && OpOK(op)
    ensures Serving(c, Apply(c, e, op))
  {
    match op
    case AddRequest(r, admit) => SameBatchServing(c, e, Add(c, e, r, admit));
    case RequestCancel(id) => SameBatchServing(c, e, Apply(c, e, op));
    case ApplyPending => CancelServing(c, e);
    case RunStep => StepServing(c, e);
    case DrainEmitted => SameBatchServing(c, e, Apply(c, e, op));
    case Drain => SameBatchServing(c, e, Apply(c, e, op));
  }

  ghost predicate BootOK<K, H>(c: Config<K, H>, bs: nat, slab: seq<seq<K>>, n: nat)
  {
    bs >= 1 && |slab| == n * bs && SlabOK(c.m.layers, slab)
  }

  lemma BootServing<K, H>(c: Config<K, H>, bs: nat, slab: seq<seq<K>>, n: nat)
    requires BootOK(c, bs, slab, n)
    ensures Serving(c, Boot(bs, slab, n))
  {
    FreshOK(n);
  }

  lemma {:induction false} RunServing<K, H>(c: Config<K, H>, e: Engine<K>, ops: seq<Op>)
    requires Serving(c, e) && forall i :: 0 <= i < |ops| ==> OpOK(ops[i])
    ensures Serving(c, Run(c, e, ops))
  {
    if ops != [] {
      var n := |ops| - 1;
      RunServing(c, e, ops[..n]);
      hide Serving;
      ApplyServing(c, Run(c, e, ops[..n]), ops[n]);
    }
  }

  /** Ended by the stop token or by length, not cancelled, refused or preempted. */
  predicate Completed(r: Request)
  {
    r.reason == Some(Eos) || r.reason == Some(Length)
  }

  lemma DoneAnswered<K, H>(c: Config<K, H>, r: Request)
    requires DoneOK(c, r) && Completed(r)
    ensures r == Answered(c, Core(r)) <==> r.maxTokens >= 1
  {
    AnsweredIff(c, r);
  }

  lemma DoneSpells<K, H>(c: Config<K, H>, r: Request)
    requires DoneOK(c, r) && Completed(r)
    ensures Spells(c, Core(r), if r.maxTokens >= 1 then r.maxTokens else 1, Answer(r.output, r.reason.value))
  {
    GenerationSame(c, r, Core(r), []);
    GenerationSpells(c, Core(r), []);
  }

  lemma OutcomeDone<K, H>(c: Config<K, H>, e: Engine<K>, r: Request)
    requires Serving(c, e) && r in Outcomes(e)
    ensures DoneOK(c, r)
  {
    hide PoolRight, SeqOK, DoneOK;
  }

  lemma SameCore(rs: seq<Request>, q: Request, q': Request)
    requires DistinctIds(rs) && q in rs && q' in rs && q.id == q'.id
    ensures q == q'
  {
    var i :| 0 <= i < |rs| && rs[i] == q;
    var j :| 0 <= j < |rs| && rs[j] == q';
  }

  /**
    Over every run of submissions, steps, cancellations and drains with distinct ids, from any
    pool size and any initial slab: an outcome with a submitted request's id is that request,
    untouched but for output and reason; and if it ended by the stop token or by length it is
    exactly the sequential baseline's answer to what was submitted, if and only if at least one
    token was asked for. So it is whatever batching, prefix reuse, eviction, copy-on-write and
    preempt-and-recompute happened on the way.
   */
  lemma EngineRefinesBaseline<K, H>(
    c: Config<K, H>, bs: nat, slab: seq<seq<K>>, n: nat, ops: seq<Op>, q: Request, r: Request)
    requires BootOK(c, bs, slab, n) && forall i :: 0 <= i < |ops| ==> OpOK(ops[i])
    requires DistinctIds(Submitted(ops)) && q in Submitted(ops) && r.id == q.id
    requires var e := Run(c, Boot(bs, slab, n), ops); r in e.newly || r in e.drained
    ensures Core(r) == q && q.prompt != [] && r.reason.Some? && r.reason != Some(Preempted)
    ensures Completed(r) ==> (r == Answered(c, q) <==> q.maxTokens >= 1)
    ensures Completed(r) ==>
              Spells(c, q, if q.maxTokens >= 1 then q.maxTokens else 1, Answer(r.output, r.reason.value))
  {
    hide Run, Boot, Serving, Books, DistinctIds, Submitted, BootOK;
    var e := Run(c, Boot(bs, slab, n), ops);
    BootServing(c, bs, slab, n);
    RunServing(c, Boot(bs, slab, n), ops);
    RunAccounts(c, bs, slab, n, ops);
    assert r in Outcomes(e);
    OutcomeSubmitted(c, e, r);
    SameCore(Submitted(ops), q, Core(r));
    OutcomeDone(c, e, r);
    if Completed(r) {
      DoneAnswered(c, r);
      DoneSpells(c, r);
    }
  }

  /** Every outcome of a run is an outcome of something the run submitted. */
  lemma OutcomeOfSubmitted<K, H>(c: Config<K, H>, bs: nat, slab: seq<seq<K>>, n: nat, ops: seq<Op>, r: Request)
    requires r in Outcomes(Run(c, Boot(bs, slab, n), ops))
    ensures Core(r) in Submitted(ops)
  {
    RunAccounts(c, bs, slab, n, ops);
    OutcomeSubmitted(c, Run(c, Boot(bs, slab, n), ops), r);
  }

  /**
    In every reachable state each cached block holds exactly the prefix its key stands for, so a
    prompt that is matched against the cache starts from what a cold prefill of the tokens
    covered would have produced, through every eviction, reallocation and re-insertion before.
   */
  lemma MatchedPrefixRight<K, H>(c: Config<K, H>, bs: nat, slab: seq<seq<K>>, n: nat, ops: seq<Op>, ids: seq<Token>)
    requires BootOK(c, bs, slab, n) && (forall i :: 0 <= i < |ops| ==> OpOK(ops[i])) && ids != []
    ensures var s := Run(c, Boot(bs, slab, n), ops).st;
      && StoreOK(s) && CacheRight(c.m, s)
      && |HitKeys(c, s, ids)| * s.w.bs <= |ids| - 1
      && TableRight(c.m, Seeded(c, s, ids).w, |s.w.tables|, ids[..|HitKeys(c, s, ids)| * s.w.bs])
  {
    hide *;
    var e := Run(c, Boot(bs, slab, n), ops);
    BootServing(c, bs, slab, n);
    RunServing(c, Boot(bs, slab, n), ops);
    ServingShape(c, e);
    PoolStore(c.m, e.st);
    SeededRight(c, e.st, ids);
  }
}
