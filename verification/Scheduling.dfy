/**
  Iteration-level scheduling over the paged pool (engine/scheduler.py,
  `ContinuousBatchingEngine`), as a state machine on values. `running[i]` owns table `i`
  of the pool. `arrivals` and `drained` are history: every request submitted so far, and every
  outcome already collected by `drain_finished`.
 */
module Scheduling {
  import opened Wrappers
  import opened Allocator
  import opened Arith
  import opened Paging
  import opened Batch
  import opened Transformer
  import opened PrefixCaching
  import opened Content
  import opened Requests
  import opened Prefilling

  datatype Sequence = Sequence(req: Request, next: Token)

  datatype Engine<K> = Engine(
    st: Store<seq<K>>,
    waiting: seq<Request>,
    running: seq<Sequence>,
    finished: seq<Request>,        // the bounded window of recent outcomes
    numFinished: nat,
    newly: seq<Request>,           // outcomes since the last drain
    cancels: set<nat>,
    emitted: seq<(nat, Token)>,
    preemptions: nat,
    arrivals: seq<Request>,
    drained: seq<Request>)

  /** The pool has one table per running sequence. */
  ghost predicate Shaped<K>(e: Engine<K>)
  {
    StoreOK(e.st) && |e.st.w.tables| == |e.running|
  }

  /** A deque of bounded length keeps its newest elements. */
  function Newest<T>(s: seq<T>, n: nat): seq<T>
  {
    if |s| <= n then s else s[|s| - n..]
  }

  /** `_record_finished`: the single place a request becomes an outcome. */
  function Record<K, H>(c: Config<K, H>, e: Engine<K>, r: Request, why: FinishReason): Engine<K>
  {
    var done := r.(reason := Some(why));
    e.(finished := Newest(e.finished + [done], c.history),
       numFinished := e.numFinished + 1,
       newly := e.newly + [done])
  }

  /** Running sequence `k` gives back its blocks and leaves the batch. */
  ghost function Leave<K>(e: Engine<K>, k: nat): Engine<K>
    requires Shaped(e) && k < |e.running|
  {
    CloseInv(e.st.w, k);
    e.(running := RemoveAt(e.running, k), st := e.st.(w := Close(e.st.w, k)))
  }

  // -- queue ----------------------------------------------------------------------

  /** `add_request`, with the admission controller's verdict. */
  function Add<K, H>(c: Config<K, H>, e: Engine<K>, r: Request, admit: bool): Engine<K>
  {
    var e' := e.(arrivals := e.arrivals + [Core(r)]);
    if admit then e'.(waiting := e'.waiting + [r]) else Record(c, e', r, Rejected)
  }

  /** The first loop of `apply_cancellations`, from position `k` of the batch on. */
  ghost function CancelRunning<K, H>(c: Config<K, H>, e: Engine<K>, wanted: set<nat>, k: nat): Engine<K>
    decreases |e.running| - k
  {
    if !Shaped(e) || k >= |e.running| then e
    else if e.running[k].req.id in wanted then
      CancelRunning(c, Record(c, Leave(e, k), e.running[k].req, Cancelled), wanted, k)
    else CancelRunning(c, e, wanted, k + 1)
  }

  /** The second loop of `apply_cancellations`, from position `k` of the queue on. */
  ghost function CancelWaiting<K, H>(c: Config<K, H>, e: Engine<K>, wanted: set<nat>, k: nat): Engine<K>
    decreases |e.waiting| - k
  {
    if k >= |e.waiting| then e
    else if e.waiting[k].id in wanted then
      CancelWaiting(c, Record(c, e.(waiting := RemoveAt(e.waiting, k)), e.waiting[k], Cancelled), wanted, k)
    else CancelWaiting(c, e, wanted, k + 1)
  }

  ghost function ApplyCancellations<K, H>(c: Config<K, H>, e: Engine<K>): Engine<K>
  {
    if e.cancels == {} then e else
      CancelWaiting(c, CancelRunning(c, e.(cancels := {}), e.cancels, 0), e.cancels, 0)
  }

  // -- admission --------------------------------------------------------------------

  /** `_blocks_needed + 1`. */
  function Need(bs: nat, r: Request): nat
    requires bs >= 1
  {
    CeilDiv(|r.prompt|, bs) + 1
  }

  /** One spare block per sequence of the batch the request would join, and the floor. */
  function ReserveFor<K, H>(c: Config<K, H>, batch: nat): nat
  {
    if c.reserve >= batch + 1 then c.reserve else batch + 1
  }

  datatype Admission<K> = Admission(more: bool, e: Engine<K>)

  /** One iteration of `_admit`; `more` is false where the loop breaks. */
  ghost function AdmitOne<K, H>(c: Config<K, H>, e: Engine<K>): Admission<K>
    requires Shaped(e) && e.waiting != [] && e.waiting[0].prompt != []
  {
    var r := e.waiting[0];
    var room := Need(e.st.w.bs, r) + ReserveFor(c, |e.running|);
    var f := EnsureFree(e.st, room);
    EnsureFreeOK(e.st, room);
    var e1 := e.(st := f.s);
    if !f.ok then Admission(false, e1)
    else if e.running == [] && room > |f.s.w.alloc.refs| then
      Admission(true, Record(c, e1.(waiting := e.waiting[1..]), r, Rejected))
    else if NumFree(f.s.w) == 0 then Admission(false, e1)
    else
      var e2 := e1.(waiting := e.waiting[1..]);
      var p := Prefill(c, f.s, r.prompt);
      if !p.ok then Admission(true, Record(c, e2.(st := Abandon(p.s)), r, Preempted))
      else Admission(true, Joined(c, e2.(st := p.s), r, p.token))
  }

  lemma EnsureFreeOK<E>(s: Store<E>, n: nat)
    requires StoreOK(s)
    ensures StoreOK(EnsureFree(s, n).s) && EnsureFree(s, n).s.w.tables == s.w.tables
  {
  }

  /** The failed prefill's cache is freed. */
  ghost function Abandon<E>(s: Store<E>): Store<E>
  {
    var n := |s.w.tables|;
    if !Inv(s.w) || n == 0 then s else
      CloseInv(s.w, n - 1);
      s.(w := Close(s.w, n - 1))
  }

  /** The first token of a prefilled request: it joins the batch, or is already finished. */
  ghost function Joined<K, H>(c: Config<K, H>, e: Engine<K>, r: Request, t: Token): Engine<K>
  {
    var (r', f) := Accept(c, r, t);
    var e1 := Emit(e.(running := e.running + [Sequence(r', t)]), r, r', t);
    if f.None? || !Shaped(e1) then e1
    else Record(c, Leave(e1, |e.running|), r', f.value)
  }

  function Emit<K>(e: Engine<K>, before: Request, after: Request, t: Token): Engine<K>
  {
    if |after.output| > |before.output| then e.(emitted := e.emitted + [(after.id, t)]) else e
  }

  /** `_admit`. */
  ghost function Admit<K, H>(c: Config<K, H>, e: Engine<K>): Engine<K>
    decreases |e.waiting|
  {
    if !Shaped(e) || e.waiting == [] || |e.running| >= c.maxBatch || e.waiting[0].prompt == [] then e else
      var a := AdmitOne(c, e);
      if !a.more || |a.e.waiting| >= |e.waiting| then a.e else Admit(c, a.e)
  }

  // -- decoding -----------------------------------------------------------------------

  /** `_preempt_newest`: back to the head of the queue, to be recomputed from the prompt. */
  ghost function Preempt<K>(e: Engine<K>): Engine<K>
    requires Shaped(e) && e.running != []
  {
    var n := |e.running| - 1;
    Leave(e, n).(waiting := [e.running[n].req.(output := [])] + e.waiting, preemptions := e.preemptions + 1)
  }

  /** The batch enters the model at each sequence's position with its pending token. */
  ghost function Pending<K, H>(c: Config<K, H>, e: Engine<K>): seq<H>
    requires |e.st.w.tables| == |e.running|
  {
    seq(|e.running|, i requires 0 <= i < |e.running| => c.m.embed(e.running[i].next, e.st.w.tables[i].len))
  }

  /** The loop after the forward pass: `k` sequences are settled, the rest take `toks`. */
  ghost function AcceptAll<K, H>(c: Config<K, H>, e: Engine<K>, k: nat, toks: seq<Token>): Engine<K>
    decreases |toks|
  {
    if toks == [] || k >= |e.running| || !Shaped(e) then e else
      var (r, f) := Accept(c, e.running[k].req, toks[0]);
      var e1 := Emit(e.(running := e.running[k := Sequence(r, toks[0])]), e.running[k].req, r, toks[0]);
      if f.None? then AcceptAll(c, e1, k + 1, toks[1..])
      else AcceptAll(c, Record(c, Leave(e1, k), r, f.value), k, toks[1..])
  }

  /** One forward pass over the whole batch, or a preemption when the pool runs dry. */
  ghost function Decode<K, H>(c: Config<K, H>, e: Engine<K>): Engine<K>
    requires Shaped(e) && AllTight(e.st.w) && e.running != []
  {
    var n := |e.running|;
    var r := Prepare(e.st.w, n);
    if !r.ok then Preempt(e) else
      PrepareAtomic(e.st.w, n);
      var y := RunPlan(c.m, DecodePlan(r.w, n), Pass(r.w.slab, Pending(c, e)));
      AcceptAll(c, e.(st := e.st.(w := r.w.(slab := y.slab))), 0,
                seq(|y.hs|, i requires 0 <= i < |y.hs| => c.m.head(y.hs[i])))
  }

  /** `step`. */
  ghost function Step<K, H>(c: Config<K, H>, e: Engine<K>): Engine<K>
  {
    var a := Admit(c, ApplyCancellations(c, e));
    if a.running == [] || !Shaped(a) || !AllTight(a.st.w) then a else Decode(c, a)
  }

  function DrainFinished<K>(e: Engine<K>): Engine<K>
  {
    e.(newly := [], drained := e.drained + e.newly)
  }

  // -- runs -------------------------------------------------------------------------------

  datatype Op =
    | AddRequest(r: Request, admit: bool)
    | RequestCancel(id: nat)
    | ApplyPending
    | RunStep
    | DrainEmitted
    | Drain

  ghost function Apply<K, H>(c: Config<K, H>, e: Engine<K>, op: Op): Engine<K>
  {
    match op
    case AddRequest(r, admit) => Add(c, e, r, admit)
    case RequestCancel(id) => e.(cancels := e.cancels + {id})
    case ApplyPending => ApplyCancellations(c, e)
    case RunStep => Step(c, e)
    case DrainEmitted => e.(emitted := [])
    case Drain => DrainFinished(e)
  }

  ghost function Run<K, H>(c: Config<K, H>, e: Engine<K>, ops: seq<Op>): Engine<K>
  {
    if ops == [] then e else Apply(c, Run(c, e, ops[..|ops| - 1]), ops[|ops| - 1])
  }

  /** A new engine over an empty pool of `n` blocks. */
  function Boot<K>(bs: nat, slab: seq<seq<K>>, n: nat): Engine<K>
  {
    Engine(Store(World(bs, Fresh(n), slab, [], {}), NoPrefix), [], [], [], 0, [], {}, [], 0, [], [])
  }
}
