/**
  The continuous-batching engine as it runs (engine/scheduler.py, `ContinuousBatchingEngine`):
  queues, batch, pool and cache changed in place. `e` is the value-level engine the objects
  stand for; every method is the operation of that name on it.
 */
module EngineLoop {
  import opened Wrappers
  import opened Paging
  import opened Batch
  import opened Transformer
  import opened PrefixCaching
  import opened Content
  import opened Requests
  import opened Prefilling
  import opened Scheduling
  import opened Refinement
  import opened Progress
  import opened Bookkeeping
  import opened PagedPool
  import opened PrefixIndex
  import opened PagedBatch
  import opened PromptRun
  import Termination

  /** An admitted request, its sequence in the pool and the token to feed next. */
  datatype Running<K> = Running(req: Request, cache: PagedKVCache<K>, next: Token)

  class ContinuousBatchingEngine<K, H> {
    const c: Config<K, H>
    const pool: PagedCachePool<K>
    const prefix: PrefixCache<K>
    var waiting: seq<Request>
    var running: seq<Running<K>>
    var finished: seq<Request>
    var numFinished: nat
    var newly: seq<Request>
    var cancels: set<nat>
    var emitted: seq<(nat, Token)>
    var preemptions: nat
    ghost var e: Engine<K>

    /** `e` shows the queues and the batch. */
    ghost predicate Shown()
      reads this
    {
      && e.waiting == waiting && e.finished == finished && e.numFinished == numFinished && e.newly == newly
      && e.cancels == cancels && e.emitted == emitted && e.preemptions == preemptions
      && |e.running| == |running|
      && forall i :: 0 <= i < |running| ==> e.running[i] == Sequence(running[i].req, running[i].next)
    }

    /** Running sequence `i` is sequence `i` of the pool. */
    ghost predicate Batched()
      reads this, pool
    {
      |running| == |pool.caches| && forall i :: 0 <= i < |running| ==> running[i].cache == pool.caches[i]
    }

    ghost predicate Linked()
      reads this, prefix, pool, pool.alloc, pool.slab, pool.repr
    {
      prefix.pool == pool && prefix.Valid() && e.st == prefix.st && Shown() && Batched()
    }

    ghost predicate Valid()
      reads this, prefix, pool, pool.alloc, pool.slab, pool.repr
    {
      Linked() && Serving(c, e)
    }

    /** No sequence object but old and new ones. */
    twostate predicate Known()
      reads this, pool
    {
      fresh(pool.repr - old(pool.repr))
    }

    constructor (c: Config<K, H>, bs: nat, n: nat, blank: seq<K>)
      requires bs >= 1 && |blank| == c.m.layers
      ensures Valid() && this.c == c && e == Boot(bs, seq(n * bs, _ => blank), n)
    {
      this.c := c;
      var pool := new PagedCachePool<K>(bs, n, blank);
      this.pool := pool;
      prefix := new PrefixCache<K>(pool);
      waiting, running, finished, numFinished := [], [], [], 0;
      newly, cancels, emitted, preemptions := [], {}, [], 0;
      e := Boot(bs, seq(n * bs, _ => blank), n);
      new;
      BootServing(c, bs, seq(n * bs, _ => blank), n);
    }

    // -- outcomes ---------------------------------------------------------------------------

    /** `_record_finished`. */
    method RecordFinished(r: Request, why: FinishReason)
      requires Linked()
      modifies this
      ensures Linked() && e == Record(c, old(e), r, why) && running == old(running)
    {
      hide StoreOK, Inv, Serving;
      var done := r.(reason := Some(why));
      numFinished := numFinished + 1;
      finished := Newest(finished + [done], c.history);
      newly := newly + [done];
      e := Record(c, e, r, why);
    }

    /** A sequence's blocks go back and it leaves the batch. */
    method LeaveBatch(k: nat)
      requires Linked() && k < |running|
      modifies this, prefix, pool, pool.alloc, pool.repr
      ensures Linked() && Leaves(old(e), k, e) && running == RemoveAt(old(running), k)
      ensures Known()
    {
      hide StoreOK, Inv, Serving, Closed, Leaves;
      var q := running[k];
      LinkedShape(e);
      q.cache.Free(k);
      LeftBy(e, k, pool.w);
      running := RemoveAt(running, k);
      prefix.st := prefix.st.(w := pool.w);
      e := e.(running := RemoveAt(e.running, k), st := prefix.st);
    }

    // -- queue --------------------------------------------------------------------------------

    /** `add_request`, with the admission controller's verdict. */
    method AddRequest(r: Request, admit: bool)
      requires Valid() && WaitOK(r)
      modifies this
      ensures Valid() && e == Add(c, old(e), r, admit)
    {
      hide StoreOK, Inv, Serving, Record;
      ApplyServing(c, e, Op.AddRequest(r, admit));
      e := e.(arrivals := e.arrivals + [Core(r)]);
      if admit {
        waiting := waiting + [r];
        e := e.(waiting := waiting);
      } else {
        RecordFinished(r, Rejected);
      }
    }

    /** `request_cancel`: only recorded, applied at the next safe point. */
    method RequestCancel(id: nat)
      requires Valid()
      modifies this
      ensures Valid() && e == Apply(c, old(e), Op.RequestCancel(id))
    {
      ApplyServing(c, e, Op.RequestCancel(id));
      hide StoreOK, Inv, Serving;
      cancels := cancels + {id};
      e := e.(cancels := cancels);
    }

    method CancelOne(k: nat)
      requires Linked() && k < |running|
      modifies this, prefix, pool, pool.alloc, pool.repr
      ensures Linked() && Known() && running == RemoveAt(old(running), k)
      ensures Cancels1(c, old(e), k, e)
    {
      hide StoreOK, Inv, Serving, Leaves, Record;
      ghost var e0 := e;
      var r := running[k].req;
      LeaveBatch(k);
      ghost var e1 := e;
      RecordFinished(r, Cancelled);
      Cancelled1(c, e0, k, e1);
    }

    /** The first loop of `apply_cancellations`: the batch. */
    method CancelBatch(wanted: set<nat>, ghost goal: Engine<K>)
      requires Linked() && CancelsBatch(c, e, wanted, 0, goal)
      modifies this, prefix, pool, pool.alloc, pool.repr
      ensures Linked() && Known() && e == goal
    {
      hide StoreOK, Inv, Serving, Cancels1, CancelsBatch, Shaped;
      var k := 0;
      while k < |running|
        invariant 0 <= k <= |running| && Linked() && Known() && CancelsBatch(c, e, wanted, k, goal)
        decreases |running| - k
      {
        ghost var e0 := e;
        LinkedShape(e);
        if running[k].req.id in wanted {
          CancelOne(k);
          CancelNext(c, e0, wanted, k, goal, e);
        } else {
          CancelSkip(c, e, wanted, k, goal);
          k := k + 1;
        }
      }
      CancelDone(c, e, wanted, k, goal);
    }

    /** The second loop of `apply_cancellations`: the queue. */
    method CancelQueue(wanted: set<nat>, ghost goal: Engine<K>)
      requires Linked() && CancelWaiting(c, e, wanted, 0) == goal
      modifies this
      ensures Linked() && running == old(running) && e == goal
    {
      hide StoreOK, Inv, Serving, Newest;
      var k := 0;
      while k < |waiting|
        invariant 0 <= k <= |waiting| && Linked() && running == old(running) && CancelWaiting(c, e, wanted, k) == goal
        decreases |waiting| - k
      {
        var r := waiting[k];
        if r.id in wanted {
          waiting := RemoveAt(waiting, k);
          e := e.(waiting := waiting);
          RecordFinished(r, Cancelled);
        } else {
          k := k + 1;
        }
      }
    }

    /** `apply_cancellations`. */
    method ApplyCancels()
      requires Linked()
      modifies this, prefix, pool, pool.alloc, pool.repr
      ensures Linked() && Known() && e == ApplyCancellations(c, old(e))
    {
      hide StoreOK, Inv, Serving, CancelRunning, CancelWaiting, CancelsBatch;
      if cancels != {} {
        var wanted := cancels;
        cancels := {};
        e := e.(cancels := {});
        ghost var goal := CancelRunning(c, e, wanted, 0);
        CancelStart(c, e, wanted);
        CancelBatch(wanted, goal);
        CancelQueue(wanted, CancelWaiting(c, e, wanted, 0));
      }
    }

    // -- taking tokens ----------------------------------------------------------------------------

    /** `_accept_token` for the k-th running sequence: record the token, emit it, decide whether it stops. */
    method TakeToken(k: nat, t: Token) returns (stop: Option<FinishReason>)
      requires Linked() && k < |running|
      modifies this
      ensures Linked() && e == Taken(c, old(e), k, t)
      ensures stop == Accept(c, old(running)[k].req, t).1 && |running| == |old(running)|
      ensures running[k].req == Accept(c, old(running)[k].req, t).0
    {
      hide StoreOK, Inv, Serving;
      var q := running[k];
      var r := q.req;
      stop := None;
      if t == c.eos && !r.ignoreEos {
        stop := Some(Eos);
      } else {
        r := r.(output := r.output + [t]);
        if |r.output| >= r.maxTokens {
          stop := Some(Length);
        }
      }
      if |r.output| > |q.req.output| {
        emitted := emitted + [(r.id, t)];
      }
      running := running[k := Running(r, q.cache, t)];
      e := Taken(c, e, k, t);
    }

    /** One turn of the loop after the forward pass; a finished sequence is retired. */
    method Settle(k: nat, t: Token) returns (stays: bool)
      requires Linked() && k < |running|
      modifies this, prefix, pool, pool.alloc, pool.repr
      ensures Linked() && Known() && |running| == |old(running)| - (if stays then 0 else 1)
      ensures Settles(c, old(e), k, t, stays, e)
    {
      hide StoreOK, Inv, Serving, Taken, Leaves, Record, Accept, Settles;
      ghost var e0 := e;
      var stop := TakeToken(k, t);
      ghost var e1 := e;
      var r := running[k].req;
      stays := stop.None?;
      if !stays {
        LeaveBatch(k);
        ghost var e2 := e;
        RecordFinished(r, stop.value);
        SettledGone(c, e0, k, t, e2);
      } else {
        SettledStays(c, e0, k, t);
      }
    }

    /** The loop after the forward pass: every sequence of the batch takes its token. */
    method TakeTokens(toks: seq<Token>, ghost goal: Engine<K>)
      requires Linked() && |toks| == |running| && AcceptsAll(c, e, 0, toks, 0, goal)
      modifies this, prefix, pool, pool.alloc, pool.repr
      ensures Linked() && Known() && e == goal
    {
      hide StoreOK, Inv, Serving, Settles, AcceptsAll;
      var k, n := 0, 0;
      while n < |toks|
        invariant 0 <= k <= n <= |toks| && Linked() && Known() && |running| == k + (|toks| - n)
        invariant AcceptsAll(c, e, k, toks, n, goal)
      {
        ghost var e0 := e;
        var stays := Settle(k, toks[n]);
        LinkedShape(e0);
        AcceptsNext(c, e0, k, toks, n, goal, stays, e);
        if stays { k := k + 1; }
        n := n + 1;
      }
      AcceptsDone(c, e, k, toks, n, goal);
    }

    // -- admission ------------------------------------------------------------------------------------

    /** The batch, and one more sequence of the pool at its end. */
    ghost predicate Opening(cache: PagedKVCache<K>)
      reads this, prefix, pool, pool.alloc, pool.slab, pool.repr
    {
      && prefix.pool == pool && prefix.Valid() && Shown()
      && |running| + 1 == |pool.caches| && pool.caches[|running|] == cache && cache.pool == pool
      && forall i :: 0 <= i < |running| ==> running[i].cache == pool.caches[i]
    }

    /** The prompt ran: the request joins the batch and takes its first token. */
    method JoinBatch(req: Request, cache: PagedKVCache<K>, token: Token, ghost e0: Engine<K>)
      requires Opening(cache) && e0.waiting != [] && e == e0.(waiting := e0.waiting[1..])
      requires PrefillsTo(c, e0.st, req.prompt, true, prefix.st, token)
      modifies this, prefix, pool, pool.alloc, pool.repr
      ensures Linked() && Known() && StartsWith(c, e0, req, e)
    {
      hide StoreOK, Inv, Serving, PrefillsTo, StartsWith, Settles;
      ghost var st := prefix.st;
      running := running + [Running(req, cache, 0)];
      e := e.(st := st, running := e.running + [Sequence(req, 0)]);
      ghost var e1 := e;
      var stays := Settle(|running| - 1, token);
      Started(c, e0, req, st, token, e1, stays, e);
    }

    /** The prompt ran out of blocks: they go back and the request is an outcome. */
    method AbandonPrompt(req: Request, cache: PagedKVCache<K>, ghost token: Token, ghost e0: Engine<K>)
      requires Opening(cache) && e0.waiting != [] && e == e0.(waiting := e0.waiting[1..])
      requires PrefillsTo(c, e0.st, req.prompt, false, prefix.st, token)
      modifies this, prefix, pool, pool.alloc, pool.repr
      ensures Linked() && Known() && StartsWith(c, e0, req, e)
    {
      hide StoreOK, Inv, Serving, PrefillsTo, Closed, StartsWith, Record;
      ghost var st := prefix.st;
      cache.Free(|running|);
      AbandonedBy(st, |running|, pool.w);
      prefix.st := st.(w := pool.w);
      e := e.(st := prefix.st);
      ghost var e1 := e;
      RecordFinished(req, Preempted);
      Refused(c, e0, req, st, token, e1);
    }

    lemma OpeningKnown(cache: PagedKVCache<K>)
      requires Opening(cache)
      ensures cache in pool.repr
    {
      hide Inv, StoreOK;
    }

    /** A request whose sequence was just opened: run its prompt. */
    method AdmitWith(req: Request, cache: PagedKVCache<K>)
      requires Opening(cache) && cache.AsTable() == EmptyTable && prefix.st == Opened(e.st) && PoolRight(c.m, e.st)
      requires waiting != [] && req == waiting[0] && req.prompt != []
      modifies this, prefix, pool, pool.alloc, pool.slab, pool.repr
      ensures Linked() && Known() && StartsWith(c, old(e), req, e)
    {
      hide Opening, Linked, PoolRight, PrefillsTo, StartsWith;
      OpeningKnown(cache);
      ghost var e0 := e;
      var ok, token := StartPrompt(req, cache);
      if ok {
        JoinBatch(req, cache, token, e0);
      } else {
        AbandonPrompt(req, cache, token, e0);
      }
    }

    /** Takes the request off the queue and runs its prompt. */
    method StartPrompt(req: Request, cache: PagedKVCache<K>) returns (ok: bool, token: Token)
      requires Opening(cache) && cache.AsTable() == EmptyTable && prefix.st == Opened(e.st) && PoolRight(c.m, e.st)
      requires waiting != [] && req == waiting[0] && req.prompt != []
      modifies this, prefix, pool, pool.alloc, pool.slab, cache
      ensures Opening(cache) && old(e).waiting != [] && e == old(e).(waiting := old(e).waiting[1..])
      ensures PrefillsTo(c, old(e).st, req.prompt, ok, prefix.st, token) && pool.repr == old(pool.repr)
    {
      hide StoreOK, Inv, Serving, PoolRight, PrefillsTo;
      ghost var e0 := e;
      waiting := waiting[1..];
      e := e.(waiting := waiting);
      OpenedTables(e0.st);
      ok, token := RunPrompt(c, prefix, req.prompt, cache, |running|, e0.st);
    }

    /** The head of the queue gets a sequence, if the pool can open one. */
    method OpenAndAdmit(req: Request) returns (more: bool)
      requires Linked() && PoolRight(c.m, e.st) && waiting != [] && req == waiting[0] && req.prompt != []
      modifies this, prefix, pool, pool.alloc, pool.slab, pool.repr
      ensures Linked() && Known() && more == (NumFree(old(e).st.w) > 0)
      ensures if more then StartsWith(c, old(e), req, e) else e == old(e)
    {
      hide StoreOK, Inv, Serving, PoolRight, StartsWith;
      var cache := pool.Allocate();
      more := cache.Some?;
      if more {
        OpenedStore(e.st);
        prefix.st := Opened(prefix.st);
        AdmitWith(req, cache.value);
      }
    }

    /** One iteration of `_admit`; `more` is false where the loop breaks. */
    method AdmitNext() returns (more: bool)
      requires Valid() && waiting != []
      modifies this, prefix, pool, pool.alloc, pool.slab, pool.repr
      ensures Linked() && Known() && AdmitsOne(c, old(e), more, e)
    {
      hide StoreOK, Inv, Serving, PoolRight, StartsWith, FreesTo, AdmitsOne, Need, ReserveFor, Record;
      ghost var e0 := e;
      HeadFacts(c, e);
      var req := waiting[0];
      var room := Need(pool.bs, req) + ReserveFor(c, |running|);
      var ok := prefix.EnsureRoomFor(room);
      FreedStays(c, e0, room, ok, prefix.st);
      e := e.(st := prefix.st);
      ghost var e1 := e;
      more := false;
      if ok && running == [] && room > |pool.alloc.refs| {
        waiting := waiting[1..];
        e := e.(waiting := waiting);
        RecordFinished(req, Rejected);
        more := true;
      } else if ok {
        more := OpenAndAdmit(req);
      }
      AdmitsIs(c, e0, room, ok, e1, more, e);
    }

    /** `_admit`. */
    method AdmitAll()
      requires Valid()
      modifies this, prefix, pool, pool.alloc, pool.slab, pool.repr
      ensures Valid() && Known() && e == Admit(c, old(e))
    {
      hide StoreOK, Inv, Serving, AdmitsOne, AdmitsTo;
      ghost var goal := Admit(c, e);
      AdmitStart(c, e);
      var more := true;
      while more && waiting != [] && |running| < c.maxBatch
        invariant Valid() && Known() && AdmitsTo(c, e, more, goal)
        decreases |waiting|, more
      {
        ghost var e0 := e;
        more := AdmitNext();
        AdmitsNext(c, e0, more, e, goal);
      }
      AdmitDone(c, e, more, goal);
    }

    // -- execution -----------------------------------------------------------------------------------

    /** `_preempt_newest`: back to the head of the queue, its output discarded. */
    method PreemptNewest()
      requires Linked() && running != []
      modifies this, prefix, pool, pool.alloc, pool.repr
      ensures Linked() && Known() && Preempts(old(e), e)
    {
      hide StoreOK, Inv, Serving, Leaves, Preempts;
      ghost var e0 := e;
      var n := |running| - 1;
      var r := running[n].req;
      LeaveBatch(n);
      PreemptedBy(e0, e);
      waiting := [r.(output := [])] + waiting;
      preemptions := preemptions + 1;
      e := e.(waiting := waiting, preemptions := preemptions);
    }

    /** The batch's sequences, and what each feeds the model: its pending token at its position. */
    method GatherBatch() returns (seqs: seq<PagedKVCache<K>>, hs: seq<H>)
      requires Linked()
      ensures seqs == pool.caches && Feeds(c, e, hs)
    {
      hide StoreOK, Inv, Serving;
      seqs, hs := [], [];
      var i := 0;
      while i < |running|
        invariant 0 <= i <= |running| && seqs == pool.caches[..i] && |hs| == i
        invariant forall x :: 0 <= x < i ==> hs[x] == c.m.embed(e.running[x].next, e.st.w.tables[x].len)
      {
        var q := running[i];
        assert q.cache.AsTable() == pool.w.tables[i];
        seqs := seqs + [q.cache];
        hs := hs + [c.m.embed(q.next, q.cache.len)];
        i := i + 1;
      }
    }

    /** The forward pass with a plan for the prepared batch; the slab is what it leaves. */
    method ForwardBatch(p: Plan, hs: seq<H>, ghost e0: Engine<K>) returns (toks: seq<Token>)
      requires pool.Valid() && BatchPlanned(c, e0, pool.w, p, hs)
      modifies pool, pool.slab
      ensures pool.Valid() && pool.SameSeqs() && Passes(c, e0, old(pool.w), pool.w, toks)
    {
      ghost var r := pool.w;
      PassPlan(c, e0, r, p, hs);
      hide Inv, PlanOK, RunPlan, Passes, BatchPlanned;
      var out := pool.Forward(c.m, p, hs);
      PassedBatch(c, e0, r, p, hs, Pass(pool.slab[..], out));
      pool.w := r.(slab := pool.slab[..]);
      toks := seq(|out|, i requires 0 <= i < |out| => c.m.head(out[i]));
    }

    method PassBatch(batch: BatchedPagedCache<K>, hs: seq<H>, ghost e0: Engine<K>) returns (toks: seq<Token>)
      requires Serving(c, e0) && Feeds(c, e0, hs)
      requires batch.pool == pool && pool.Valid() && batch.seqs == pool.caches && |pool.caches| == |e0.running|
      requires Prepares(e0.st.w, |e0.running|, true, pool.w) && Slotted(e0.st.w, pool.w, |e0.running|, batch.writeSlots)
      modifies pool, pool.slab
      ensures pool.Valid() && pool.SameSeqs() && Passes(c, e0, old(pool.w), pool.w, toks)
    {
      hide Inv, Serving, Prepares, Slotted, Feeds, DecodePlan, Passes, BatchPlanned;
      var p := batch.BuildPlan(e0.st.w);
      BatchReadyNow(c, e0, pool.w, p, hs);
      toks := ForwardBatch(p, hs, e0);
    }

    /** The decode half of `step`: one pass over the whole batch, or a preemption when blocks run out. */
    method DecodeStep()
      requires Valid() && running != []
      modifies this, prefix, pool, pool.alloc, pool.slab, pool.repr
      ensures Linked() && Known() && Decodes(c, old(e), e)
    {
      hide StoreOK, Inv, Serving, Prepares, Slotted, Preempts, Decodes, Feeds, Shown, Batched;
      ghost var e0 := e;
      var ok, batch, hs := PrepareBatch();
      if ok {
        DecodeBatch(batch, hs);
      } else {
        PreemptNewest();
        DecodeFails(c, e0, e0.st.w, e);
      }
    }

    /** The batch and its inputs; if its blocks cannot all be had, nothing has changed. */
    method PrepareBatch() returns (ok: bool, batch: BatchedPagedCache<K>, hs: seq<H>)
      requires Valid() && running != []
      modifies pool, pool.alloc, pool.slab, pool.repr
      ensures fresh(batch) && batch.pool == pool && batch.seqs == pool.caches && Feeds(c, e, hs)
      ensures pool.Valid() && pool.repr == old(pool.repr) && Shown() && Batched() && |e.running| == |running|
      ensures ok ==> prefix.Ahead() && Slotted(e.st.w, pool.w, |running|, batch.writeSlots)
      ensures Prepares(e.st.w, |running|, ok, pool.w)
      ensures !ok ==> Linked()
    {
      hide StoreOK, Inv, Serving, Prepares, Slotted, Feeds;
      DecodeReady(c, e);
      var seqs;
      seqs, hs := GatherBatch();
      batch := new BatchedPagedCache<K>(pool, seqs);
      ok := batch.PrepareStep();
      if !ok { NotPrepared(e.st.w, |running|, pool.w); }
    }

    /** The pass over a prepared batch, and the tokens it samples taken. */
    method DecodeBatch(batch: BatchedPagedCache<K>, hs: seq<H>)
      requires prefix.pool == pool && pool.Valid() && prefix.Ahead() && e.st == prefix.st && Shown() && Batched()
      requires Serving(c, e) && running != [] && Feeds(c, e, hs) && batch.pool == pool && batch.seqs == pool.caches
      requires Prepares(e.st.w, |running|, true, pool.w) && Slotted(e.st.w, pool.w, |running|, batch.writeSlots)
      modifies this, prefix, pool, pool.alloc, pool.slab, pool.repr
      ensures Linked() && Known() && Decodes(c, old(e), e)
    {
      hide Linked, AcceptsAll, Decodes, Feeds, Accepted, Serving, Prepares, Slotted, Shown, Batched;
      var toks := SamplePass(batch, hs);
      TakeTokens(toks, Accepted(c, e, toks));
    }

    /** The pass over a prepared batch; what is left is to take the tokens it samples. */
    method SamplePass(batch: BatchedPagedCache<K>, hs: seq<H>) returns (toks: seq<Token>)
      requires prefix.pool == pool && pool.Valid() && prefix.Ahead() && e.st == prefix.st && Shown() && Batched()
      requires Serving(c, e) && running != [] && Feeds(c, e, hs) && batch.pool == pool && batch.seqs == pool.caches
      requires Prepares(e.st.w, |running|, true, pool.w) && Slotted(e.st.w, pool.w, |running|, batch.writeSlots)
      modifies this, prefix, pool, pool.slab
      ensures Linked() && pool.repr == old(pool.repr) && |toks| == |running|
      ensures AcceptsAll(c, e, 0, toks, 0, Accepted(c, e, toks)) && Decodes(c, old(e), Accepted(c, e, toks))
    {
      hide StoreOK, Inv, Serving, Prepares, Slotted, Passes, Decodes, Feeds, Accepted;
      ghost var e0, r := e, pool.w;
      toks := PassBatch(batch, hs, e0);
      DecodeGoal(c, e0, r, pool.w, toks);
      prefix.st := prefix.st.(w := pool.w);
      e := e.(st := prefix.st);
    }

    /** `step`: reap, admit, then a single decode pass. */
    method Step()
      requires Valid()
      modifies this, prefix, pool, pool.alloc, pool.slab, pool.repr
      ensures Valid() && Known() && e == Scheduling.Step(c, old(e))
    {
      hide StoreOK, Inv, Serving, ApplyCancellations, Admit, Decodes, Scheduling.Step;
      ghost var e0 := e;
      StepServing(c, e);
      CancelServing(c, e);
      ApplyCancels();
      AdmitAll();
      ghost var a := e;
      if running != [] {
        DecodeStep();
      }
      StepIs(c, e0, a, e);
    }

    /** `drain_emitted`. */
    method DrainEmitted() returns (out: seq<(nat, Token)>)
      requires Valid()
      modifies this
      ensures Valid() && e == Apply(c, old(e), Op.DrainEmitted) && out == old(emitted)
    {
      ApplyServing(c, e, Op.DrainEmitted);
      hide StoreOK, Inv, Serving;
      out := emitted;
      emitted := [];
      e := e.(emitted := []);
    }

    /** `drain_finished`: every outcome since the last call, handed over once. */
    method DrainFinished() returns (out: seq<Request>)
      requires Valid()
      modifies this
      ensures Valid() && e == Scheduling.DrainFinished(old(e)) && out == old(newly)
    {
      ApplyServing(c, e, Op.Drain);
      hide StoreOK, Inv, Serving;
      out := newly;
      newly := [];
      e := Scheduling.DrainFinished(e);
    }

    /** One iteration of `run`. */
    method RunOnce() returns (out: seq<Request>)
      requires Valid()
      modifies this, prefix, pool, pool.alloc, pool.slab, pool.repr
      ensures Valid() && Known() && e == Progress.RunOnce(c, old(e)) && e.drained == old(e).drained + out
    {
      StepFollows(c, e);
      hide StoreOK, Inv, Serving, Scheduling.Step;
      Step();
      var tokens := DrainEmitted();
      out := DrainFinished();
    }

    lemma ShowsQueues()
      requires Valid()
      ensures e.waiting == waiting && |e.running| == |running|
    {
      hide Serving, StoreOK, Inv;
    }

    /** The loop of `run`: it ends when every request fits the pool on its own. */
    method RunLoop(ghost goal: Engine<K>) returns (out: seq<Request>)
      requires Valid() && RunsOn(c, e, goal)
      modifies this, prefix, pool, pool.alloc, pool.slab, pool.repr
      ensures Valid() && Known() && waiting == [] && running == [] && RunsOn(c, e, goal)
      ensures e.drained == old(e.drained) + out
    {
      hide Valid, RunsOn, HeadLeft, Unfinished, Progress.RunOnce;
      ShowsQueues();
      out := [];
      while waiting != [] || running != []
        invariant Valid() && Known() && RunsOn(c, e, goal) && e.drained == old(e.drained) + out
        invariant e.waiting == waiting && |e.running| == |running|
        decreases Unfinished(e), HeadLeft(e), |e.running|
      {
        ghost var e1 := e;
        var done := RunOnce();
        ShowsQueues();
        RunsNext(c, e1, goal, e);
        out := out + done;
      }
    }

    /** `run` once its requests are queued: every outcome, in order. */
    method RunToEnd() returns (out: seq<Request>)
      requires Valid() && Small(c, e)
      modifies this, prefix, pool, pool.alloc, pool.slab, pool.repr
      ensures Valid() && Known() && RunsOn(c, old(e), e) && e.drained == old(e.drained) + out
    {
      hide StoreOK, Inv, Serving, Small, RunsOn;
      ghost var goal := RunsStart(c, e);
      out := RunLoop(goal);
      RunsEnd(c, e, goal);
      var rest := DrainFinished();
      out := out + rest;
    }

    /** The first loop of `run`, with the admission controller's verdicts. */
    method AddAllRequests(requests: seq<Request>, admit: seq<bool>)
      requires Valid() && |admit| == |requests| && forall i :: 0 <= i < |requests| ==> WaitOK(requests[i])
      modifies this
      ensures Valid() && e == AddAll(c, old(e), requests, admit)
    {
      hide StoreOK, Inv, Serving, Add, WaitOK;
      var i := 0;
      while i < |requests|
        invariant 0 <= i <= |requests| && Valid() && e == AddAll(c, old(e), requests[..i], admit[..i])
      {
        AddAllNext(c, old(e), requests, admit, i);
        AddRequest(requests[i], admit[i]);
        i := i + 1;
      }
      assert requests[..i] == requests && admit[..i] == admit;
    }

    /**
      `run` on a fresh engine without the prefix cache, for requests whose admitted members each
      fit the pool: it returns, and what it returns is every request exactly once, untouched but
      for output and reason, each completed one with the sequential baseline's answer to it.
     */
    method Run(
      requests: seq<Request>, admit: seq<bool>, ghost n: nat, ghost slab: seq<seq<K>>) returns (out: seq<Request>)
      requires Valid() && e == Boot(pool.bs, slab, n) && BootOK(c, pool.bs, slab, n)
      requires !c.prefixOn && c.maxBatch >= 1 && |admit| == |requests|
      requires forall i :: 0 <= i < |requests| ==> WaitOK(requests[i])
      requires forall i :: 0 <= i < |requests| && admit[i] ==> Fits(c, pool.bs, n, requests[i])
      modifies this, prefix, pool, pool.alloc, pool.slab, pool.repr
      ensures Valid() && multiset(Cores(out)) == multiset(requests)
      ensures forall i :: 0 <= i < |out| ==> Resolved(c, out[i])
      ensures var no := Termination.Sifted(requests, admit, false);
              && |no| <= |out| && (forall i :: 0 <= i < |no| ==> out[i] == no[i].(reason := Some(Rejected)))
              && (forall i :: |no| <= i < |out| ==> Completed(out[i]))
    {
      hide StoreOK, Inv, Serving, Small, RunsOn, AddAll, Resolved, WaitOK, Fits, Cores, Progress.RunLoop, BootOK;
      RunTerminates(c, pool.bs, slab, n, requests, admit);
      Termination.RunCompletes(c, pool.bs, slab, n, requests, admit);
      ghost var e1 := AddAll(c, e, requests, admit);
      assert e.drained == [];
      AddAllRequests(requests, admit);
      AddAllDrains(c, Boot(pool.bs, slab, n), requests, admit);
      out := RunToEnd();
      RunsIs(c, e1, e);
      assert e.drained == out;
    }
  }

  /** `r` is `e` after its k-th running sequence left. */
  ghost predicate Leaves<K>(e: Engine<K>, k: nat, r: Engine<K>)
  {
    Shaped(e) && k < |e.running| && r == Leave(e, k)
  }

  lemma LinkedShape<K>(e: Engine<K>)
    requires StoreOK(e.st) && |e.st.w.tables| == |e.running|
    ensures Shaped(e) && Inv(e.st.w)
  {
  }

  lemma LeftBy<K>(e: Engine<K>, k: nat, w: World<seq<K>>)
    requires Shaped(e) && k < |e.running| && Closed(e.st.w, k, w) && Inv(w)
    ensures var r := e.(running := RemoveAt(e.running, k), st := e.st.(w := w)); Leaves(e, k, r) && StoreOK(r.st)
  {
  }

  // -- cancellation ---------------------------------------------------------------------------

  /** `r` is `e` with its k-th running request cancelled. */
  ghost predicate Cancels1<K, H>(c: Config<K, H>, e: Engine<K>, k: nat, r: Engine<K>)
  {
    Shaped(e) && k < |e.running| && r == Record(c, Leave(e, k), e.running[k].req, Cancelled)
  }

  lemma Cancelled1<K, H>(c: Config<K, H>, e: Engine<K>, k: nat, e1: Engine<K>)
    requires Leaves(e, k, e1)
    ensures Cancels1(c, e, k, Record(c, e1, e.running[k].req, Cancelled))
  {
  }

  ghost predicate CancelsBatch<K, H>(c: Config<K, H>, e: Engine<K>, wanted: set<nat>, k: nat, goal: Engine<K>)
  {
    CancelRunning(c, e, wanted, k) == goal
  }

  lemma CancelStart<K, H>(c: Config<K, H>, e: Engine<K>, wanted: set<nat>)
    ensures CancelsBatch(c, e, wanted, 0, CancelRunning(c, e, wanted, 0))
  {
  }

  lemma CancelNext<K, H>(c: Config<K, H>, e: Engine<K>, wanted: set<nat>, k: nat, goal: Engine<K>, r: Engine<K>)
    requires CancelsBatch(c, e, wanted, k, goal) && Cancels1(c, e, k, r) && e.running[k].req.id in wanted
    ensures CancelsBatch(c, r, wanted, k, goal)
  {
    hide Shaped, Leave, Record;
  }

  lemma CancelSkip<K, H>(c: Config<K, H>, e: Engine<K>, wanted: set<nat>, k: nat, goal: Engine<K>)
    requires CancelsBatch(c, e, wanted, k, goal) && k < |e.running| && e.running[k].req.id !in wanted && Shaped(e)
    ensures CancelsBatch(c, e, wanted, k + 1, goal)
  {
    hide Shaped;
  }

  lemma CancelDone<K, H>(c: Config<K, H>, e: Engine<K>, wanted: set<nat>, k: nat, goal: Engine<K>)
    requires CancelsBatch(c, e, wanted, k, goal) && k >= |e.running|
    ensures e == goal
  {
  }

  // -- taking tokens ------------------------------------------------------------------------------

  /** `r` is `e` after its k-th sequence took `t` and was retired unless it stays. */
  ghost predicate Settles<K, H>(c: Config<K, H>, e: Engine<K>, k: nat, t: Token, stays: bool, r: Engine<K>)
  {
    && k < |e.running|
    && var (q, f) := Accept(c, e.running[k].req, t);
       var e1 := Taken(c, e, k, t);
       if f.None? then stays && r == e1
       else !stays && Shaped(e1) && k < |e1.running| && r == Record(c, Leave(e1, k), q, f.value)
  }

  lemma SettledStays<K, H>(c: Config<K, H>, e: Engine<K>, k: nat, t: Token)
    requires k < |e.running| && Accept(c, e.running[k].req, t).1.None?
    ensures Settles(c, e, k, t, true, Taken(c, e, k, t))
  {
  }

  lemma SettledGone<K, H>(c: Config<K, H>, e: Engine<K>, k: nat, t: Token, e2: Engine<K>)
    requires k < |e.running| && Accept(c, e.running[k].req, t).1.Some? && Leaves(Taken(c, e, k, t), k, e2)
    ensures Settles(c, e, k, t, false,
            Record(c, e2, Accept(c, e.running[k].req, t).0, Accept(c, e.running[k].req, t).1.value))
  {
    hide Shaped, Leave, Record, Accept;
  }

  ghost predicate AcceptsAll<K, H>(c: Config<K, H>, e: Engine<K>, k: nat, toks: seq<Token>, n: nat, goal: Engine<K>)
  {
    n <= |toks| && AcceptAll(c, e, k, toks[n..]) == goal
  }

  lemma AcceptsNext<K, H>(
    c: Config<K, H>, e: Engine<K>, k: nat, toks: seq<Token>, n: nat, goal: Engine<K>, stays: bool, r: Engine<K>)
    requires AcceptsAll(c, e, k, toks, n, goal) && n < |toks| && Shaped(e) && Settles(c, e, k, toks[n], stays, r)
    ensures AcceptsAll(c, r, if stays then k + 1 else k, toks, n + 1, goal)
  {
    assert toks[n..][0] == toks[n] && toks[n..][1..] == toks[n + 1..];
    hide Shaped, Leave, Record, Accept, Emit;
  }

  lemma AcceptsDone<K, H>(c: Config<K, H>, e: Engine<K>, k: nat, toks: seq<Token>, n: nat, goal: Engine<K>)
    requires AcceptsAll(c, e, k, toks, n, goal) && n >= |toks|
    ensures e == goal
  {
  }

  // -- admission --------------------------------------------------------------------------------------

  /** `r` is `e` after the head of its queue, `req`, was given a sequence and its prompt was run. */
  ghost predicate StartsWith<K, H>(c: Config<K, H>, e: Engine<K>, req: Request, r: Engine<K>)
  {
    && StoreOK(e.st) && e.waiting != [] && req.prompt != []
    && var p := Prefill(c, e.st, req.prompt);
       var e2 := e.(waiting := e.waiting[1..]);
       r == if p.ok then Joined(c, e2.(st := p.s), req, p.token) else Record(c, e2.(st := Abandon(p.s)), req, Preempted)
  }

  lemma OpenedTables<E>(s: Store<E>)
    requires StoreOK(Opened(s))
    ensures |Opened(s).w.tables| == |s.w.tables| + 1
  {
  }

  lemma Started<K, H>(
    c: Config<K, H>, e: Engine<K>, req: Request, st: Store<seq<K>>, token: Token, e1: Engine<K>, stays: bool,
    r: Engine<K>)
    requires e.waiting != [] && PrefillsTo(c, e.st, req.prompt, true, st, token)
    requires e1 == e.(waiting := e.waiting[1..], st := st, running := e.running + [Sequence(req, 0)]) && Shaped(e1)
    requires Settles(c, e1, |e.running|, token, stays, r)
    ensures StartsWith(c, e, req, r)
  {
    hide StoreOK, Prefill, Joined, AcceptAll, Settles;
    var e2 := e.(waiting := e.waiting[1..], st := st);
    JoinedIsAccept(c, e2, req, token);
    AcceptsOne(c, e1, |e.running|, token, stays, r);
  }

  lemma AcceptsOne<K, H>(c: Config<K, H>, e: Engine<K>, k: nat, t: Token, stays: bool, r: Engine<K>)
    requires Shaped(e) && Settles(c, e, k, t, stays, r)
    ensures AcceptAll(c, e, k, [t]) == r
  {
    assert [t][0..] == [t];
    AcceptsNext(c, e, k, [t], 0, AcceptAll(c, e, k, [t]), stays, r);
    AcceptsDone(c, r, if stays then k + 1 else k, [t], 1, AcceptAll(c, e, k, [t]));
  }

  lemma AbandonedBy<E>(st: Store<E>, i: nat, w: World<E>)
    requires StoreOK(st) && |st.w.tables| == i + 1 && Closed(st.w, i, w) && Inv(w)
    ensures st.(w := w) == Abandon(st) && StoreOK(st.(w := w))
  {
  }

  lemma Refused<K, H>(c: Config<K, H>, e: Engine<K>, req: Request, st: Store<seq<K>>, token: Token, e1: Engine<K>)
    requires e.waiting != [] && PrefillsTo(c, e.st, req.prompt, false, st, token)
    requires e1 == e.(waiting := e.waiting[1..], st := Abandon(st))
    ensures StartsWith(c, e, req, Record(c, e1, req, Preempted))
  {
    hide StoreOK, Prefill, Abandon, Joined;
  }

  lemma OpenedStore<E>(s: Store<E>)
    requires StoreOK(s)
    ensures StoreOK(Opened(s)) && Opened(s) == s.(w := Open(s.w))
  {
    OpenedOK(s);
  }

  /** One iteration of `_admit` on `e` answers `more` and leaves `r`. */
  ghost predicate AdmitsOne<K, H>(c: Config<K, H>, e: Engine<K>, more: bool, r: Engine<K>)
  {
    Shaped(e) && e.waiting != [] && e.waiting[0].prompt != [] && AdmitOne(c, e) == Admission(more, r)
  }

  lemma HeadFacts<K, H>(c: Config<K, H>, e: Engine<K>)
    requires Serving(c, e)
    ensures Shaped(e) && StoreOK(e.st) && e.st.w.bs >= 1 && (e.waiting != [] ==> e.waiting[0].prompt != [])
  {
    ServingShape(c, e);
  }

  lemma FreedStays<K, H>(c: Config<K, H>, e: Engine<K>, room: nat, ok: bool, st: Store<seq<K>>)
    requires Serving(c, e) && FreesTo(e.st, room, ok, st)
    ensures PoolRight(c.m, st) && st.w.tables == e.st.w.tables
  {
    ServingShape(c, e);
    FreedRight(c.m, e.st, room);
  }

  lemma AdmitsIs<K, H>(c: Config<K, H>, e: Engine<K>, room: nat, ok: bool, e1: Engine<K>, more: bool, r: Engine<K>)
    requires Shaped(e) && e.st.w.bs >= 1 && e.waiting != [] && e.waiting[0].prompt != []
    requires room == Need(e.st.w.bs, e.waiting[0]) + ReserveFor(c, |e.running|)
    requires FreesTo(e.st, room, ok, e1.st) && e1 == e.(st := e1.st)
    requires
      if !ok then !more && r == e1
      else if e.running == [] && room > |e1.st.w.alloc.refs| then
        more && r == Record(c, e1.(waiting := e.waiting[1..]), e.waiting[0], Rejected)
      else more == (NumFree(e1.st.w) > 0) && if more then StartsWith(c, e1, e.waiting[0], r) else r == e1
    ensures AdmitsOne(c, e, more, r)
  {
    hide StoreOK, EnsureFree, Prefill, Abandon, Joined, Record, Need, ReserveFor;
  }

  /** What is left of `_admit` from `e` on, if the loop goes on, gives `goal`. */
  ghost predicate AdmitsTo<K, H>(c: Config<K, H>, e: Engine<K>, more: bool, goal: Engine<K>)
  {
    goal == if more then Admit(c, e) else e
  }

  lemma AdmitStart<K, H>(c: Config<K, H>, e: Engine<K>)
    ensures AdmitsTo(c, e, true, Admit(c, e))
  {
  }

  lemma AdmitShrinks<K, H>(c: Config<K, H>, e: Engine<K>, r: Engine<K>)
    requires AdmitsOne(c, e, true, r)
    ensures r.waiting == e.waiting[1..]
  {
    hide Shaped, StoreOK, EnsureFree, Prefill, Abandon, Accept;
  }

  lemma AdmitsNext<K, H>(c: Config<K, H>, e: Engine<K>, more: bool, r: Engine<K>, goal: Engine<K>)
    requires Serving(c, e) && e.waiting != [] && |e.running| < c.maxBatch && AdmitsTo(c, e, true, goal)
             && AdmitsOne(c, e, more, r)
    ensures Serving(c, r) && AdmitsTo(c, r, more, goal) && (more ==> |r.waiting| < |e.waiting|)
    ensures !more ==> r.waiting == e.waiting
  {
    hide Serving, Shaped, AdmitOne, StoreOK, PoolRight, Prefill, Extends, TableRight, EnsureFree, Joined;
    HeadFacts(c, e);
    AdmitOneServing(c, e);
    AdmitOneFacts(c, e);
    if more { AdmitShrinks(c, e, r); }
  }

  lemma AdmitDone<K, H>(c: Config<K, H>, e: Engine<K>, more: bool, goal: Engine<K>)
    requires AdmitsTo(c, e, more, goal) && (!more || e.waiting == [] || |e.running| >= c.maxBatch)
    ensures e == goal
  {
    hide Shaped, AdmitOne;
  }

  // -- one decode pass -------------------------------------------------------------------------------

  ghost predicate Preempts<K>(e: Engine<K>, r: Engine<K>)
  {
    Shaped(e) && e.running != [] && r == Preempt(e)
  }

  lemma PreemptedBy<K>(e: Engine<K>, e1: Engine<K>)
    requires e.running != [] && Leaves(e, |e.running| - 1, e1)
    ensures e1.waiting == e.waiting && e1.preemptions == e.preemptions
    ensures Preempts(e, e1.(waiting := [e.running[|e.running| - 1].req.(output := [])] + e1.waiting,
                            preemptions := e1.preemptions + 1))
  {
    hide StoreOK;
  }

  /** From the prepared pool `r`, the pass leaves `w` and samples `toks`. */
  ghost predicate Passes<K, H>(c: Config<K, H>, e: Engine<K>, r: World<seq<K>>, w: World<seq<K>>, toks: seq<Token>)
  {
    && |e.st.w.tables| == |e.running| <= |r.tables|
    && var y := RunPlan(c.m, DecodePlan(r, |e.running|), Pass(r.slab, Pending(c, e)));
       w == r.(slab := y.slab) && toks == Heads(c, y) && |toks| == |e.running| && Inv(w) && w.cached == e.st.w.cached
  }

  lemma PreparedBatch<K, H>(c: Config<K, H>, e: Engine<K>, r: World<seq<K>>)
    requires Serving(c, e) && Prepares(e.st.w, |e.running|, true, r)
    ensures Inv(e.st.w) && |e.st.w.tables| == |e.running| == |r.tables| && Committed(e.st.w, r, |e.running|)
    ensures BatchReady(c.m, r, Histories(e)) && Inv(r) && r.cached == e.st.w.cached
  {
    ServingShape(c, e);
    PreparedRight(c.m, e.st);
    CommittedReady(c, e, r);
  }

  /** `hs` is what the batch feeds the model. */
  ghost predicate Feeds<K, H>(c: Config<K, H>, e: Engine<K>, hs: seq<H>)
  {
    |e.st.w.tables| == |e.running| && hs == Pending(c, e)
  }

  /** A plan and inputs for the prepared batch, and what the pass will leave is in order. */
  ghost predicate BatchPlanned<K, H>(c: Config<K, H>, e: Engine<K>, r: World<seq<K>>, p: Plan, hs: seq<H>)
  {
    && Feeds(c, e, hs) && |e.running| <= |r.tables| && p == DecodePlan(r, |e.running|)
    && PlanOK(c.m.layers, r.slab, p) && |hs| == |p.writes| == |e.running|
    && var y := RunPlan(c.m, p, Pass(r.slab, hs));
       Inv(r.(slab := y.slab)) && |y.hs| == |e.running| && r.cached == e.st.w.cached
  }

  lemma PassPlan<K, H>(c: Config<K, H>, e: Engine<K>, r: World<seq<K>>, p: Plan, hs: seq<H>)
    requires BatchPlanned(c, e, r, p, hs)
    ensures PlanOK(c.m.layers, r.slab, p) && |hs| == |p.writes|
    ensures var y := RunPlan(c.m, p, Pass(r.slab, hs)); Inv(r.(slab := y.slab))
  {
  }

  lemma BatchReadyNow<K, H>(c: Config<K, H>, e: Engine<K>, r: World<seq<K>>, p: Plan, hs: seq<H>)
    requires Serving(c, e) && Feeds(c, e, hs) && Prepares(e.st.w, |e.running|, true, r)
    requires |e.running| <= |r.tables| && p == DecodePlan(r, |e.running|)
    ensures BatchPlanned(c, e, r, p, hs)
  {
    var toks := Histories(e);
    PreparedBatch(c, e, r);
    assert forall i :: 0 <= i < |e.running| ==> SeqOK(c, e, i);
    hide Serving, Committed, Inv, SeqOK;
    PendingRight(c, e);
    DecodeSound(c.m, r, toks);
    DecodeRight(c.m, r, toks);
    DecodeOwned(c.m, r, toks);
    var y := DecodePass(c.m, r, toks);
    hide BatchReady, DecodePass;
    PassIsolated(r, DecodePlan(r, |toks|).writes, DecodeOwners(r, |toks|), y.slab);
  }

  lemma PassedBatch<K, H>(c: Config<K, H>, e: Engine<K>, r: World<seq<K>>, p: Plan, hs: seq<H>, y: Pass<K, H>)
    requires BatchPlanned(c, e, r, p, hs) && y == RunPlan(c.m, p, Pass(r.slab, hs))
    ensures Passes(c, e, r, r.(slab := y.slab), Heads(c, y))
  {
    hide Inv, RunPlan, DecodePlan, Pending, PlanOK;
  }

  /** `r` is `e` after the decode half of a step. */
  ghost predicate Decodes<K, H>(c: Config<K, H>, e: Engine<K>, r: Engine<K>)
  {
    Shaped(e) && AllTight(e.st.w) && e.running != [] && r == Decode(c, e)
  }

  lemma DecodeReady<K, H>(c: Config<K, H>, e: Engine<K>)
    requires Serving(c, e)
    ensures Shaped(e) && AllTight(e.st.w) && e.st.w.bs >= 1
  {
    ServingShape(c, e);
  }

  ghost function Accepted<K, H>(c: Config<K, H>, e: Engine<K>, toks: seq<Token>): (r: Engine<K>)
    ensures AcceptsAll(c, e, 0, toks, 0, r)
  {
    assert toks[0..] == toks;
    AcceptAll(c, e, 0, toks)
  }

  lemma DecodeGoal<K, H>(c: Config<K, H>, e: Engine<K>, r: World<seq<K>>, w: World<seq<K>>, toks: seq<Token>)
    requires Serving(c, e) && e.running != [] && Prepares(e.st.w, |e.running|, true, r) && Passes(c, e, r, w, toks)
    ensures StoreOK(e.st.(w := w)) && Inv(w) && |toks| == |e.running|
    ensures Decodes(c, e, Accepted(c, e.(st := e.st.(w := w)), toks))
  {
    hide Serving, Inv, StoreOK, Decode, AcceptAll, RunPlan, DecodePlan, Prepare, AllTight;
    ServingShape(c, e);
    StoreMoved(e.st, w);
    DecodeUnfold(c, e, r);
  }

  lemma NotPrepared<E>(w: World<E>, n: nat, r: World<E>)
    requires Prepares(w, n, false, r)
    ensures r == w
  {
    PrepareAtomic(w, n);
  }

  lemma DecodeFails<K, H>(c: Config<K, H>, e: Engine<K>, w: World<seq<K>>, r: Engine<K>)
    requires Prepares(e.st.w, |e.running|, false, w) && Preempts(e, r)
    ensures Decodes(c, e, r)
  {
    hide Inv, StoreOK, AllTight, Prepare, Preempt;
  }

  lemma StepIs<K, H>(c: Config<K, H>, e: Engine<K>, a: Engine<K>, r: Engine<K>)
    requires a == Admit(c, ApplyCancellations(c, e)) && Serving(c, a)
    requires if a.running == [] then r == a else Decodes(c, a, r)
    ensures r == Scheduling.Step(c, e)
  {
    hide Serving, Shaped, AllTight, Decode, Admit, ApplyCancellations;
    ServingShape(c, a);
  }

  // -- run -----------------------------------------------------------------------------------------------

  /** From `e` on the loop of `run` ends in `goal`. */
  ghost predicate RunsOn<K, H>(c: Config<K, H>, e: Engine<K>, goal: Engine<K>)
  {
    Serving(c, e) && Small(c, e) && Progress.RunLoop(c, e) == goal
  }

  lemma RunsStart<K, H>(c: Config<K, H>, e: Engine<K>) returns (goal: Engine<K>)
    requires Serving(c, e) && Small(c, e)
    ensures RunsOn(c, e, goal)
  {
    goal := Progress.RunLoop(c, e);
  }

  lemma RunsIs<K, H>(c: Config<K, H>, e: Engine<K>, goal: Engine<K>)
    requires RunsOn(c, e, goal)
    ensures Serving(c, e) && Small(c, e) && goal == Progress.RunLoop(c, e)
  {
  }

  lemma AddAllNext<K, H>(c: Config<K, H>, e: Engine<K>, rs: seq<Request>, admit: seq<bool>, i: nat)
    requires |admit| == |rs| && i < |rs|
    ensures AddAll(c, e, rs[..i + 1], admit[..i + 1]) == Add(c, AddAll(c, e, rs[..i], admit[..i]), rs[i], admit[i])
  {
    assert rs[..i + 1][..i] == rs[..i] && admit[..i + 1][..i] == admit[..i];
  }

  lemma {:induction false} AddAllDrains<K, H>(c: Config<K, H>, e: Engine<K>, rs: seq<Request>, admit: seq<bool>)
    requires |admit| == |rs|
    ensures AddAll(c, e, rs, admit).drained == e.drained
  {
    if rs != [] { AddAllDrains(c, e, rs[..|rs| - 1], admit[..|rs| - 1]); }
  }

  lemma RunsNext<K, H>(c: Config<K, H>, e: Engine<K>, goal: Engine<K>, r: Engine<K>)
    requires RunsOn(c, e, goal) && (e.waiting != [] || e.running != []) && r == Progress.RunOnce(c, e)
    ensures RunsOn(c, r, goal)
    ensures || Unfinished(r) < Unfinished(e)
            || (Unfinished(r) == Unfinished(e) && HeadLeft(r) < HeadLeft(e))
            || (Unfinished(r) == Unfinished(e) && HeadLeft(r) == HeadLeft(e) && |r.running| < |e.running|)
  {
    hide Serving, Small, Scheduling.Step, Progress.RunOnce;
    OnceSmaller(c, e);
  }

  lemma RunsEnd<K, H>(c: Config<K, H>, e: Engine<K>, goal: Engine<K>)
    requires RunsOn(c, e, goal) && e.waiting == [] && e.running == []
    ensures goal == Scheduling.DrainFinished(e)
  {
  }
}
