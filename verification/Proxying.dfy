/**
  The two ends of a stream as they run: a replica's `Generate` (engine/replica.py) and the
  router's retry loop (router/proxy.go).
 */
module Proxying {
  import opened Wrappers
  import opened Transformer
  import opened Requests
  import opened Hashing
  import opened RingState
  import opened Migration
  import RateLimiting

  lemma ChunksSnoc(ps: seq<Piece>, p: Piece, base: nat)
    ensures Chunks(ps + [p], base) == Chunks(ps, base) + [TokenChunk(p.text, p.id, base + |ps|)]
  {
  }

  lemma PopRestores(m: map<string, seq<Piece>>, id: string, ps: seq<Piece>)
    requires id !in m
    ensures m[id := ps] - {id} == m
  {
  }

  lemma NoChunks(decode: seq<Token> -> string, base: nat)
    ensures Chunks([], base) == [] && Follow(decode, []) == Progress(0, [])
  {
  }

  lemma FollowSnoc(decode: seq<Token> -> string, tokens: seq<Token>, n: nat)
    requires n < |tokens|
    ensures Follow(decode, tokens[..n + 1]) == Emit(Follow(decode, tokens[..n]), tokens[n], decode(tokens[..n + 1]))
  {
    assert tokens[..n + 1][..n] == tokens[..n];
  }

  lemma ForwardedSnoc(cs: seq<Chunk>, i: nat)
    requires i < |cs| && AllTokens(cs[..i + 1])
    ensures AllTokens(cs[..i])
    ensures Forwarded(cs[..i + 1]) == Forwarded(cs[..i]) + [TokenEvent(cs[i].text, cs[i].index)]
    ensures IdsOf(cs[..i + 1]) == IdsOf(cs[..i]) + [cs[i].id]
  {
    assert cs[..i + 1][i] == cs[i];
    assert forall j :: 0 <= j < i ==> cs[..i][j] == cs[..i + 1][j];
  }

  lemma HeardHere(cs: seq<Chunk>, i: nat)
    requires i <= |cs| && AllTokens(cs[..i]) && (i < |cs| ==> cs[i].FinishChunk?)
    ensures Heard(cs) == i
  {
    assert forall j :: 0 <= j < i ==> cs[..i][j] == cs[j];
  }

  /** One replica. */
  class InferenceServicer {
    const server: Server
    var draining: bool
    /** What each running generation has emitted, by request id. */
    var inflight: map<string, seq<Piece>>

    constructor (server: Server)
      ensures !draining && inflight == map[] && this.server == server
    {
      this.server := server;
      draining, inflight := false, map[];
    }

    function State(): Node
      reads this
    {
      Node(server, draining, inflight)
    }

    /** `Generate`, with the caller seen to be gone after `patience` tokens. The id is in flight only while it runs. */
    method Generate(q: Query, resume: seq<Token>, patience: nat) returns (chunks: seq<Chunk>)
      modifies this`inflight
      ensures State() == old(State())
      ensures chunks == Reply(State(), q, resume, patience)
      ensures Replies(State(), q, resume, patience, chunks)
    {
      hide Follow, Chunks, Emitted, Replies;
      RepliesSo(State(), q, resume, patience);
      if draining {
        return [FinishChunk(Finished(Rejected), 0)];
      }
      if q.id in inflight {
        return Chunks(inflight[q.id], 0) + [FinishChunk(Finished(Cancelled), |inflight[q.id]|)];
      }
      var promptIds := server.encode(q.prompt);
      if promptIds == [] {
        return [FinishChunk(Error, 0)];
      }
      var remaining := if q.maxTokens <= |resume| + 1 then 1 else q.maxTokens - |resume|;
      var a := server.engine(promptIds + resume, remaining);
      inflight := inflight[q.id := []];
      if a.reason == Rejected {
        PopRestores(old(inflight), q.id, []);
        inflight := inflight - {q.id};
        return [FinishChunk(Finished(Rejected), 0)];
      }
      var produced;
      chunks, produced := StreamTokens(q.id, a.output, |resume|, patience);
      PopRestores(old(inflight), q.id, Emitted(server.decode, produced));
      assert inflight == old(inflight)[q.id := Emitted(server.decode, produced)];
      var done := |produced| == |a.output|;
      chunks := chunks + [FinishChunk(Finished(if done then a.reason else Cancelled), |resume| + |produced|)];
      inflight := inflight - {q.id};
    }

    /** The loop of `Generate`: emit each token the engine streams, or hold it back. */
    method StreamTokens(id: string, output: seq<Token>, base: nat, patience: nat)
      returns (chunks: seq<Chunk>, produced: seq<Token>)
      modifies this`inflight
      ensures produced == if patience >= |output| then output else output[..patience]
      ensures chunks == Chunks(Emitted(server.decode, produced), base)
      ensures inflight == old(inflight)[id := Emitted(server.decode, produced)]
    {
      hide Follow, Chunks;
      chunks, produced := [], [];
      NoChunks(server.decode, base);
      var emittedChars: nat, emitted: seq<Piece> := 0, [];
      inflight := inflight[id := []];
      while |produced| < |output| && |produced| < patience
        invariant |produced| <= |output| && |produced| <= patience && produced == output[..|produced|]
        invariant Follow(server.decode, produced) == Progress(emittedChars, emitted)
        invariant chunks == Chunks(emitted, base)
        invariant inflight == old(inflight)[id := emitted]
        decreases |output| - |produced|
      {
        var token := output[|produced|];
        FollowSnoc(server.decode, output, |produced|);
        produced := produced + [token];
        assert produced == output[..|produced|];
        var text := server.decode(produced);
        if !Broken(text) && |text| > emittedChars {
          var piece := Piece(token, text[emittedChars..]);
          ChunksSnoc(emitted, piece, base);
          chunks := chunks + [TokenChunk(piece.text, token, base + |emitted|)];
          emittedChars, emitted := |text|, emitted + [piece];
          inflight := inflight[id := emitted];
        }
      }
    }
  }

  /** The client pool's replicas, as values. */
  ghost function FleetOf(clients: map<Id, InferenceServicer>): Fleet
    reads clients.Values
  {
    map x | x in clients :: clients[x].State()
  }

  lemma FaithfulSnoc(fleet: Fleet, q: Query, links: nat -> Link, trials: seq<Trial>, t: Trial)
    requires Faithful(fleet, q, links, trials)
    requires forall i :: 0 <= i < |trials| ==> trials[i].replica != t.replica
    requires var l := links(|trials|);
             t == Trial(t.replica, Arrives(fleet, q, t.replica, Streamed(trials).ids, l), l.exhausted, l.gone)
    ensures Faithful(fleet, q, links, trials + [t])
    ensures Streamed(trials).status.Retry? ==> Streamed(trials + [t]) == Attempted(Streamed(trials), t)
  {
    hide Arrives, Attempted;
    var all := trials + [t];
    assert all[..|trials|] == trials;
    forall i | 0 <= i < |all| ensures FaithfulAt(fleet, q, links, all, i) {
      if i < |trials| {
        assert FaithfulAt(fleet, q, links, trials, i) && all[..i] == trials[..i];
      }
    }
  }

  lemma LoadRestored(m: Replicas, id: Id)
    requires id in m
    ensures var l := Loaded(m, id); id in l && l[id].load > 0 && l[id := l[id].(load := l[id].load - 1)] == m
  {
  }

  lemma StartFacts(fleet: Fleet, q: Query, links: nat -> Link)
    ensures Faithful(fleet, q, links, []) && Streamed([]) == Stream([], [], Retry) == START
  {
  }

  lemma TriedMore(trials: seq<Trial>, tried: set<Id>, t: Trial)
    requires tried == (set u | u in trials :: u.replica) && t.replica !in tried
    ensures tried + {t.replica} == (set u | u in trials + [t] :: u.replica)
    ensures forall i :: 0 <= i < |trials| ==> trials[i].replica != t.replica
  {
    assert forall i :: 0 <= i < |trials| ==> trials[i] in trials && trials[i].replica in tried;
  }

  lemma RelaysIds(trials: seq<Trial>, s: Stream)
    requires Relays(trials, s)
    ensures s.ids == PassedOn(trials).1
  {
  }

  lemma FreshUnbroken(fleet: Fleet, q: Query, links: nat -> Link, trials: seq<Trial>)
    requires Faithful(fleet, q, links, trials)
    ensures Unseen(fleet, q) ==> Numbered(Streamed(trials))
  {
    if Unseen(fleet, q) { Unbroken(fleet, q, links, trials); }
  }

  /** The events an attempt itself writes: its tokens, and the finish unless it refuses. */
  function Written(t: Trial): seq<Event>
  {
    Forwarded(TokenPart(t.chunks)) + if FaultOf(t.chunks, t.exhausted).Clean? then Closing(t) else []
  }

  lemma AttemptedIs(s: Stream, t: Trial)
    ensures var fault := FaultOf(t.chunks, t.exhausted);
            Attempted(s, t) == Stream(
              s.events + Written(t) + (if fault.Refused? && !t.gone then [RejectedEvent] else []),
              s.ids + IdsOf(TokenPart(t.chunks)),
              if fault.Severed? && !t.gone then Retry else Answered)
  {
    hide Forwarded, TokenPart, IdsOf;
    var part, close := Forwarded(TokenPart(t.chunks)), Closing(t);
    assert s.events + part + close == s.events + (part + close) + [];
    assert s.events + part + close == s.events + (part + []) + close;
  }

  /** The router's front end: the ring, the client pool and the shared limiter. */
  class Proxy {
    const ring: Ring
    const clients: map<Id, InferenceServicer>
    const limiter: RateLimiting.Store
    const maxRetries: int

    constructor (ring: Ring, clients: map<Id, InferenceServicer>, limiter: RateLimiting.Store, maxRetries: int)
      ensures this.ring == ring && this.clients == clients && this.limiter == limiter && this.maxRetries == maxRetries
    {
      this.ring, this.clients, this.limiter, this.maxRetries := ring, clients, limiter, maxRetries;
    }

    /** `attempt`: forward the chunks that arrive, as they come; `n` are the ids forwarded. */
    method Attempt(t: Trial) returns (events: seq<Event>, n: seq<Token>, fault: Fault)
      ensures events == Written(t) && n == IdsOf(TokenPart(t.chunks)) && fault == FaultOf(t.chunks, t.exhausted)
      ensures Relayed(t, events, n, fault)
    {
      events, n := [], [];
      var i := 0;
      while i < |t.chunks| && t.chunks[i].TokenChunk?
        invariant 0 <= i <= |t.chunks| && AllTokens(t.chunks[..i])
        invariant events == Forwarded(t.chunks[..i]) && n == IdsOf(t.chunks[..i])
      {
        var chunk := t.chunks[i];
        assert t.chunks[..i + 1] == t.chunks[..i] + [chunk];
        ForwardedSnoc(t.chunks, i);
        n := n + [chunk.id];
        events := events + [TokenEvent(chunk.text, chunk.index)];
        i := i + 1;
      }
      HeardHere(t.chunks, i);
      if i == |t.chunks| {
        fault := if t.exhausted then Refused else Severed;
      } else if t.chunks[i].code == Finished(Rejected) {
        fault := Refused;
      } else {
        fault := Clean;
        events := events + [DoneEvent(t.chunks[i].code, t.chunks[i].outputTokens, t.replica)];
      }
    }

    /** The stub's call: what arrives of the reply; nothing without a connection. */
    method Call(rep: Id, q: Query, resume: seq<Token>, l: Link) returns (chunks: seq<Chunk>)
      modifies clients.Values
      ensures FleetOf(clients) == old(FleetOf(clients))
      ensures chunks == Arrives(FleetOf(clients), q, rep, resume, l)
    {
      hide Reply;
      chunks := [];
      if rep in clients {
        var reply := clients[rep].Generate(q, resume, l.patience);
        assert forall x :: x in clients ==> clients[x].State() == old(clients[x].State());
        chunks := if l.cut < |reply| then reply[..l.cut] else reply;
      }
    }

    /** `pickUntried`: a ready replica outside `tried`, its load raised; none if and only if all have been tried. */
    method PickUntried(key: string, tried: set<Id>) returns (r: Option<Id>)
      requires ring.Valid()
      modifies ring`replicas
      ensures ring.Valid()
      ensures r.None? ==> ReadyIds(ring.replicas) <= tried && ring.replicas == old(ring.replicas)
      ensures r.Some? ==> r.value in old(ring.replicas) && r.value in ReadyIds(old(ring.replicas)) - tried
                          && ring.replicas == Loaded(old(ring.replicas), r.value)
    {
      hide *;
      r := ring.PickExcluding(key, tried);
      ring.ValidEpsilon();
      PickFailsIff(old(ring.replicas), ring.points, ring.keyHash(key), tried, ring.epsilon, r);
      if r.None? {
        assert forall x :: x in ReadyIds(ring.replicas) ==> x in ReadyIds(ring.replicas) - tried || x in tried;
      }
    }

    /** One pass of the loop on the replica picked: call it, forward what arrives, release it. */
    method Once(rep: Id, q: Query, delivered: seq<Token>, l: Link, ghost before: Replicas)
      returns (events: seq<Event>, n: seq<Token>, fault: Fault, ghost t: Trial)
      requires ring.Valid() && rep in before && ring.replicas == Loaded(before, rep)
      modifies ring`replicas, clients.Values
      ensures ring.Valid() && ring.replicas == before
      ensures FleetOf(clients) == old(FleetOf(clients))
      ensures t == Trial(rep, Arrives(FleetOf(clients), q, rep, delivered, l), l.exhausted, l.gone)
      ensures events == Written(t) && n == IdsOf(TokenPart(t.chunks)) && fault == FaultOf(t.chunks, t.exhausted)
    {
      hide *;
      var chunks := Call(rep, q, delivered, l);
      var trial := Trial(rep, chunks, l.exhausted, l.gone);
      events, n, fault := Attempt(trial);
      LoadRestored(before, rep);
      ring.Release(rep);
      t := trial;
    }

    /**
      `stream`: attempts on fresh replicas until one answers. What reaches the client is what its
      replicas replied to the ids delivered so far; every pick has been released; the request fails
      only when the attempts are used up or no ready replica is left untried; and if its id was not
      already running anywhere, the client's indices are unbroken and as many as the ids counted.
     */
    method Run(q: Query, key: string, links: nat -> Link)
      returns (events: seq<Event>, deliveredOut: nat, ok: bool, ghost trials: seq<Trial>)
      requires ring.Valid()
      modifies ring, clients.Values
      ensures ring.Valid() && ring.replicas == old(ring.replicas) && ring.points == old(ring.points)
      ensures FleetOf(clients) == old(FleetOf(clients)) && Faithful(FleetOf(clients), q, links, trials)
      ensures events == Streamed(trials).events && deliveredOut == |Streamed(trials).ids|
      ensures ok <==> Streamed(trials).status.Answered?
      ensures Relays(trials, Stream(events, PassedOn(trials).1, if ok then Answered else Retry))
      ensures deliveredOut == |PassedOn(trials).1|
      ensures |trials| <= if maxRetries < 0 then 0 else maxRetries + 1
      ensures !ok ==> |trials| > maxRetries || ReadyIds(ring.replicas) <= (set t | t in trials :: t.replica)
      ensures Unseen(FleetOf(clients), q) ==> Numbered(Streamed(trials))
    {
      hide *;
      ghost var fleet := FleetOf(clients);
      events, deliveredOut, trials, ok := [], 0, [], false;
      var delivered: seq<Token>, tried: set<Id>, attempt, live := [], {}, 0, true;
      StartFacts(fleet, q, links);
      RelaysNone();
      while attempt <= maxRetries && live
        invariant 0 <= attempt && |trials| <= if maxRetries < 0 then 0 else maxRetries + 1
        invariant ring.Valid() && ring.replicas == old(ring.replicas) && ring.points == old(ring.points)
        invariant FleetOf(clients) == fleet && Faithful(fleet, q, links, trials)
        invariant events == Streamed(trials).events && deliveredOut == |Streamed(trials).ids|
        invariant ok <==> Streamed(trials).status.Answered?
        invariant Relays(trials, Streamed(trials))
        invariant live ==> attempt == |trials| && !ok && delivered == Streamed(trials).ids
        invariant tried == (set t | t in trials :: t.replica)
        invariant !live && !ok ==> ReadyIds(ring.replicas) <= tried
        invariant !live || attempt <= maxRetries || |trials| > maxRetries
        decreases maxRetries - attempt, live
      {
        ghost var replicas := ring.replicas;
        var pick := PickUntried(key, tried);
        if pick.None? {
          live := false;
        } else {
          var l := links(attempt);
          var more, n, fault, t := Once(pick.value, q, delivered, l, replicas);
          TriedMore(trials, tried, t);
          FaithfulSnoc(fleet, q, links, trials, t);
          AttemptedIs(Streamed(trials), t);
          RelaysMore(trials, Streamed(trials), t);
          tried, trials := tried + {pick.value}, trials + [t];
          events, deliveredOut := events + more, |delivered| + |n|;
          if fault.Clean? || l.gone {
            live, ok := false, true;
          } else if fault.Refused? {
            events := events + [RejectedEvent];
            live, ok := false, true;
          } else {
            delivered := delivered + n;
            attempt := attempt + 1;
          }
        }
      }
      FreshUnbroken(fleet, q, links, trials);
      RelaysIds(trials, Streamed(trials));
    }

    /**
      `ServeGenerate` behind a limiter that answers: nothing is dispatched unless the whole budget
      can be reserved, and once the stream has ended the client has paid for the tokens delivered, up
      to the budget, and for one request. No other client's buckets change.
     */
    method ServeGenerate(
      q: Query, key: string, links: nat -> Link, client: string, t: RateLimiting.Tier, now: real, later: real)
      returns (events: seq<Event>, v: RateLimiting.Verdict, delivered: nat, ghost trials: seq<Trial>)
      requires ring.Valid() && RateLimiting.TierOK(t) && now <= later
      requires RateLimiting.ClientOK(t, limiter.View(client), now)
      modifies ring, limiter, clients.Values
      ensures ring.Valid() && ring.replicas == old(ring.replicas) && FleetOf(clients) == old(FleetOf(clients))
      ensures forall other :: other != client ==> limiter.View(other) == old(limiter.View(other))
      ensures v.allowed <==> RateLimiting.Affordable(t, old(limiter.View(client)), now, q.maxTokens)
      ensures !v.allowed ==> events == [] && delivered == 0 && forall d: RateLimiting.Dim ::
                RateLimiting.Balance(t, limiter.View(client), d, now)
                == RateLimiting.Balance(t, old(limiter.View(client)), d, now)
      ensures v.allowed ==> Faithful(FleetOf(clients), q, links, trials) && delivered == |Streamed(trials).ids|
                            && events == Streamed(trials).events
                                         + if Streamed(trials).status.Answered? then [] else [ErrorEvent]
      ensures v.allowed && RateLimiting.Lives(t, RateLimiting.Tokens, now, later) ==>
                var charged := if delivered < q.maxTokens then delivered else q.maxTokens;
                RateLimiting.Balance(t, limiter.View(client), RateLimiting.Tokens, later)
                == RateLimiting.Min(RateLimiting.Balance(t, old(limiter.View(client)), RateLimiting.Tokens, now)
                                    - charged as real + RateLimiting.Gain(t.tokRate, later - now), t.tokCap)
    {
      hide *;
      ghost var before := limiter.View(client);
      RateLimiting.AdmitCharges(t, before, now, q.maxTokens);
      events, delivered, trials := [], 0, [];
      v := limiter.Allow(t, client, now, q.maxTokens);
      if v.allowed {
        var ok;
        events, delivered, ok, trials := Run(q, key, links);
        if !ok { events := events + [ErrorEvent]; }
        limiter.Refund(t, client, later, q.maxTokens - delivered);
        RateLimiting.ReserveThenRefund(t, before, now, later, q.maxTokens, delivered);
      }
    }
  }
}
