/**
  Streaming one request across replica failures (router/proxy.go `stream` and `attempt`,
  engine/replica.py `Generate`), on values: what one replica emits, what the client has received
  after any sequence of attempts, and how that compares with an uninterrupted generation.
 */
module Migration {
  import opened Wrappers
  import opened Transformer
  import opened Requests
  import opened Hashing

  // -- what a replica emits ---------------------------------------------------------------

  /** One emitted token: its id and the new text it completes. */
  datatype Piece = Piece(id: Token, text: string)

  /** The replica's loop variables: characters and pieces emitted so far. */
  datatype Progress = Progress(chars: nat, emitted: seq<Piece>)

  const REPLACEMENT: char := '\U{FFFD}'

  /** The text ends in the middle of a multi-byte character. */
  predicate Broken(text: string)
  {
    text != "" && text[|text| - 1] == REPLACEMENT
  }

  /** After the token that makes the text `text`: emit what is new, unless it is broken or empty. */
  function Emit(p: Progress, t: Token, text: string): Progress
  {
    if Broken(text) || |text| <= p.chars then p
    else Progress(|text|, p.emitted + [Piece(t, text[p.chars..])])
  }

  /** The replica's state once the engine has produced `tokens`. */
  function Follow(decode: seq<Token> -> string, tokens: seq<Token>): Progress
  {
    if tokens == [] then Progress(0, [])
    else
      var n := |tokens| - 1;
      Emit(Follow(decode, tokens[..n]), tokens[n], decode(tokens))
  }

  function Ids(ps: seq<Piece>): (r: seq<Token>)
    ensures |r| == |ps|
  {
    seq(|ps|, i requires 0 <= i < |ps| => ps[i].id)
  }

  function Emitted(decode: seq<Token> -> string, tokens: seq<Token>): seq<Piece>
  {
    Follow(decode, tokens).emitted
  }

  /** Every token completes some text. */
  ghost predicate AllShow(decode: seq<Token> -> string, tokens: seq<Token>)
  {
    forall n :: 0 < n <= |tokens| ==> Shows(decode, tokens[..n])
  }

  ghost predicate Shows(decode: seq<Token> -> string, tokens: seq<Token>)
    requires tokens != []
  {
    !Broken(decode(tokens)) && |decode(tokens)| > Follow(decode, tokens[..|tokens| - 1]).chars
  }

  lemma AllShowPrefix(decode: seq<Token> -> string, tokens: seq<Token>)
    requires tokens != []
    ensures AllShow(decode, tokens) <==> AllShow(decode, tokens[..|tokens| - 1]) && Shows(decode, tokens)
  {
    var m := |tokens| - 1;
    assert forall n :: 0 < n <= m ==> tokens[..m][..n] == tokens[..n];
    assert tokens[..m + 1] == tokens;
    if AllShow(decode, tokens) {
      assert Shows(decode, tokens[..m + 1]);
      forall n | 0 < n <= m ensures Shows(decode, tokens[..m][..n]) { assert Shows(decode, tokens[..n]); }
    }
    if AllShow(decode, tokens[..m]) && Shows(decode, tokens) {
      forall n | 0 < n <= |tokens| ensures Shows(decode, tokens[..n]) {
        if n <= m { assert Shows(decode, tokens[..m][..n]); }
      }
    }
  }

  /**
    The client can hold every token the replica generated exactly when every token shows: ids of
    tokens that only complete a later token's text are never sent.
   */
  lemma {:induction false} EmittedAllIff(decode: seq<Token> -> string, tokens: seq<Token>)
    ensures |Emitted(decode, tokens)| <= |tokens|
    ensures Ids(Emitted(decode, tokens)) == tokens <==> AllShow(decode, tokens)
  {
    if tokens != [] {
      var n := |tokens| - 1;
      EmittedAllIff(decode, tokens[..n]);
      AllShowPrefix(decode, tokens);
      var e, f := Emitted(decode, tokens[..n]), Emitted(decode, tokens);
      assert tokens == tokens[..n] + [tokens[n]];
      if Shows(decode, tokens) {
        assert Ids(f) == Ids(e) + [tokens[n]];
        if Ids(f) == tokens { assert Ids(e) == Ids(f)[..n]; }
      } else {
        assert f == e && |Ids(f)| < |tokens|;
      }
    }
  }

  function Concat(ps: seq<Piece>): string
  {
    if ps == [] then "" else Concat(ps[..|ps| - 1]) + ps[|ps| - 1].text
  }

  /** Text that ends on a character boundary is never revised by later tokens. */
  ghost predicate Stable(decode: seq<Token> -> string)
  {
    decode([]) == "" && forall a, b :: Unrevised(decode, a, b)
  }

  ghost predicate Unrevised(decode: seq<Token> -> string, a: seq<Token>, b: seq<Token>)
  {
    !Broken(decode(a)) ==> decode(a) <= decode(a + b)
  }

  lemma ConcatSnoc(ps: seq<Piece>, x: Piece)
    ensures Concat(ps + [x]) == Concat(ps) + x.text
  {
    assert (ps + [x])[..|ps|] == ps;
  }

  lemma PrefixParts(sent: string, text: string)
    requires sent <= text
    ensures sent + text[|sent|..] == text && (|text| <= |sent| ==> text == sent)
  {
  }

  /** Emitting keeps the text sent equal to the decoded text, or to what it was while that is broken. */
  lemma EmitText(p: Progress, t: Token, text: string, sent: string)
    requires Concat(p.emitted) == sent && p.chars == |sent| && sent <= text
    ensures Emit(p, t, text) == p || (Concat(Emit(p, t, text).emitted) == text && Emit(p, t, text).chars == |text|)
    ensures !Broken(text) ==> Concat(Emit(p, t, text).emitted) == text && Emit(p, t, text).chars == |text|
    ensures Broken(text) ==> Emit(p, t, text) == p
  {
    hide Concat;
    PrefixParts(sent, text);
    ConcatSnoc(p.emitted, Piece(t, text[p.chars..]));
  }

  /** The text sent so far is what decoding the first `k` tokens gives. */
  ghost predicate Sent(decode: seq<Token> -> string, tokens: seq<Token>, k: nat)
  {
    && k <= |tokens| && !Broken(decode(tokens[..k]))
    && Concat(Emitted(decode, tokens)) == decode(tokens[..k])
    && Follow(decode, tokens).chars == |decode(tokens[..k])|
  }

  lemma SentPrefix(decode: seq<Token> -> string, tokens: seq<Token>, k: nat)
    requires Stable(decode) && k <= |tokens| && !Broken(decode(tokens[..k]))
    ensures decode(tokens[..k]) <= decode(tokens)
  {
    assert tokens == tokens[..k] + tokens[k..];
    assert Unrevised(decode, tokens[..k], tokens[k..]);
  }

  lemma {:induction false} SentText(decode: seq<Token> -> string, tokens: seq<Token>) returns (k: nat)
    requires Stable(decode)
    ensures Sent(decode, tokens, k)
    ensures !Broken(decode(tokens)) ==> Concat(Emitted(decode, tokens)) == decode(tokens)
  {
    assert tokens[..|tokens|] == tokens;
    if tokens == [] {
      k := 0;
    } else {
      var n := |tokens| - 1;
      var p := Follow(decode, tokens[..n]);
      assert Follow(decode, tokens) == Emit(p, tokens[n], decode(tokens));
      k := SentText(decode, tokens[..n]);
      assert tokens[..n][..k] == tokens[..k];
      SentPrefix(decode, tokens, k);
      hide Stable, Follow, Concat, Emit;
      EmitText(p, tokens[n], decode(tokens), decode(tokens[..k]));
      if !Broken(decode(tokens)) { k := |tokens|; }
    }
  }

  /** Pieces in the order sent spell the whole decoded text once it ends on a character boundary. */
  lemma StreamedText(decode: seq<Token> -> string, tokens: seq<Token>)
    requires Stable(decode) && !Broken(decode(tokens))
    ensures Concat(Emitted(decode, tokens)) == decode(tokens)
  {
    var k := SentText(decode, tokens);
  }

  /** Two tokens that together make one character: decoding the first alone ends in a replacement. */
  function Halves(tokens: seq<Token>): string
  {
    if tokens == [] then "" else if |tokens| == 1 then [REPLACEMENT] else "e"
  }

  /**
    The negative side of `EmittedAllIff`: of these two tokens only the second is ever sent, so a
    resume would continue from a context the replica never had.
   */
  lemma HalfCharacterLost()
    ensures Stable(Halves) && !Broken(Halves([1, 2]))
    ensures Emitted(Halves, [1, 2]) == [Piece(2, "e")] && Ids(Emitted(Halves, [1, 2])) != [1, 2]
  {
    forall a, b ensures Unrevised(Halves, a, b) {
      if |a| >= 2 { assert |a + b| >= 2; }
    }
    assert [1, 2][..1] == [1] && [1][..0] == [];
    assert Follow(Halves, []) == Progress(0, []);
    assert Follow(Halves, [1]) == Progress(0, []);
    assert Follow(Halves, [1, 2]) == Progress(1, [Piece(2, "e")]);
  }

  // -- what a replica replies -----------------------------------------------------------------

  datatype FinishCode = Finished(reason: FinishReason) | Error

  datatype Chunk = TokenChunk(text: string, id: Token, index: nat) | FinishChunk(code: FinishCode, outputTokens: nat)

  /** The token chunks of these pieces, numbered on from `base`. */
  function Chunks(ps: seq<Piece>, base: nat): (r: seq<Chunk>)
    ensures |r| == |ps|
  {
    seq(|ps|, i requires 0 <= i < |ps| => TokenChunk(ps[i].text, ps[i].id, base + i))
  }

  /** The tokenizer and the engine behind a replica. */
  datatype Server = Server(
    encode: string -> seq<Token>,
    decode: seq<Token> -> string,
    engine: (seq<Token>, nat) -> Answer)

  /** A replica as a call finds it: `inflight` is what each running generation has emitted. */
  datatype Node = Node(server: Server, draining: bool, inflight: map<string, seq<Piece>>)

  /** What the client asks for; every attempt repeats it. */
  datatype Query = Query(id: string, prompt: string, maxTokens: nat)

  function Remaining(maxTokens: nat, held: nat): nat
  {
    if maxTokens <= held + 1 then 1 else maxTokens - held
  }

  /** Under an id that is not running: the pieces of what the engine makes, and a finish that counts it all. */
  function Generated(sv: Server, q: Query, resume: seq<Token>, patience: nat): seq<Chunk>
  {
    if sv.encode(q.prompt) == [] then [FinishChunk(Error, 0)]
    else
      var a := sv.engine(sv.encode(q.prompt) + resume, Remaining(q.maxTokens, |resume|));
      if a.reason == Rejected then [FinishChunk(Finished(Rejected), 0)]
      else
        var done := patience >= |a.output|;
        var made := if done then a.output else a.output[..patience];
        Chunks(Emitted(sv.decode, made), |resume|)
        + [FinishChunk(Finished(if done then a.reason else Cancelled), |resume| + |made|)]
  }

  /** Under an id that is running: what that generation has emitted, numbered from 0. */
  function Replayed(ps: seq<Piece>): seq<Chunk>
  {
    Chunks(ps, 0) + [FinishChunk(Finished(Cancelled), |ps|)]
  }

  /** Everything `Generate` yields when the caller is seen to be gone after `patience` tokens. */
  function Reply(n: Node, q: Query, resume: seq<Token>, patience: nat): seq<Chunk>
  {
    if n.draining then [FinishChunk(Finished(Rejected), 0)]
    else if q.id in n.inflight then Replayed(n.inflight[q.id])
    else Generated(n.server, q, resume, patience)
  }

  /** Token chunks for these pieces, numbered on from `base`, and then one finish. */
  predicate Streams(cs: seq<Chunk>, ps: seq<Piece>, base: nat, finish: Chunk)
  {
    && |cs| == |ps| + 1 && cs[|ps|] == finish
    && forall i :: 0 <= i < |ps| ==> cs[i] == TokenChunk(ps[i].text, ps[i].id, base + i)
  }

  /** `Generate`, case by case. */
  ghost predicate Replies(n: Node, q: Query, resume: seq<Token>, patience: nat, cs: seq<Chunk>)
  {
    var ids, held, sv := n.server.encode(q.prompt), |resume|, n.server;
    var a := sv.engine(ids + resume, if q.maxTokens <= held + 1 then 1 else q.maxTokens - held);
    var made := if patience < |a.output| then a.output[..patience] else a.output;
    if n.draining then cs == [FinishChunk(Finished(Rejected), 0)]
    else if q.id in n.inflight then
      Streams(cs, n.inflight[q.id], 0, FinishChunk(Finished(Cancelled), |n.inflight[q.id]|))
    else if ids == [] then cs == [FinishChunk(Error, 0)]
    else if a.reason == Rejected then cs == [FinishChunk(Finished(Rejected), 0)]
    else
      Streams(cs, Emitted(sv.decode, made), held,
              FinishChunk(Finished(if patience < |a.output| then Cancelled else a.reason), held + |made|))
  }

  lemma ChunksStream(ps: seq<Piece>, base: nat, finish: Chunk)
    ensures Streams(Chunks(ps, base) + [finish], ps, base, finish)
  {
  }

  lemma RepliesSo(n: Node, q: Query, resume: seq<Token>, patience: nat)
    ensures Replies(n, q, resume, patience, Reply(n, q, resume, patience))
  {
    var a := n.server.engine(n.server.encode(q.prompt) + resume, Remaining(q.maxTokens, |resume|));
    var made := if patience < |a.output| then a.output[..patience] else a.output;
    hide Emitted, Chunks, Streams;
    ChunksStream(Emitted(n.server.decode, made), |resume|,
                 FinishChunk(Finished(if patience < |a.output| then Cancelled else a.reason), |resume| + |made|));
    if q.id in n.inflight {
      ChunksStream(n.inflight[q.id], 0, FinishChunk(Finished(Cancelled), |n.inflight[q.id]|));
    }
  }

  // -- one request's attempts -----------------------------------------------------------------

  /**
    One attempt: the replica tried, the chunks that reached the router before the stream ended or
    broke, whether a break carried the status that means rejection, and whether the client has left.
   */
  datatype Trial = Trial(replica: Id, chunks: seq<Chunk>, exhausted: bool, gone: bool)

  datatype Event =
    | TokenEvent(text: string, index: nat)
    | DoneEvent(code: FinishCode, outputTokens: nat, replica: Id)
    | RejectedEvent
    | ErrorEvent

  /** How the request ended: answered (or abandoned by its client), or still to be retried. */
  datatype Status = Retry | Answered

  /** What the client has received, and the ids the router has forwarded. */
  datatype Stream = Stream(events: seq<Event>, ids: seq<Token>, status: Status)

  /** How many token chunks come before the finish, or before the break. */
  function Heard(cs: seq<Chunk>): (n: nat)
    ensures n <= |cs| && (n < |cs| ==> cs[n].FinishChunk?)
    ensures forall i :: 0 <= i < n ==> cs[i].TokenChunk?
  {
    if cs == [] || cs[0].FinishChunk? then 0 else 1 + Heard(cs[1..])
  }

  predicate AllTokens(cs: seq<Chunk>)
  {
    forall i :: 0 <= i < |cs| ==> cs[i].TokenChunk?
  }

  function Forwarded(cs: seq<Chunk>): (r: seq<Event>)
    requires AllTokens(cs)
    ensures |r| == |cs|
  {
    seq(|cs|, i requires 0 <= i < |cs| => TokenEvent(cs[i].text, cs[i].index))
  }

  function IdsOf(cs: seq<Chunk>): (r: seq<Token>)
    requires AllTokens(cs)
    ensures |r| == |cs|
  {
    seq(|cs|, i requires 0 <= i < |cs| => cs[i].id)
  }

  function TokenPart(cs: seq<Chunk>): (r: seq<Chunk>)
    ensures AllTokens(r)
  {
    cs[..Heard(cs)]
  }

  /** How an attempt ends: with a finish, with a refusal, or because the stream broke. */
  datatype Fault = Clean | Refused | Severed

  predicate Finishes(cs: seq<Chunk>)
  {
    Heard(cs) < |cs|
  }

  function FaultOf(cs: seq<Chunk>, exhausted: bool): Fault
  {
    if Finishes(cs) then (if cs[Heard(cs)].code == Finished(Rejected) then Refused else Clean)
    else if exhausted then Refused else Severed
  }

  /** The events after an attempt's tokens. */
  function Closing(t: Trial): seq<Event>
  {
    match FaultOf(t.chunks, t.exhausted)
    case Clean => var f := t.chunks[Heard(t.chunks)]; [DoneEvent(f.code, f.outputTokens, t.replica)]
    case Refused => if t.gone then [] else [RejectedEvent]
    case Severed => []
  }

  /** One attempt: the chunks that arrived are passed on as they are. */
  function Attempted(s: Stream, t: Trial): Stream
  {
    Stream(s.events + Forwarded(TokenPart(t.chunks)) + Closing(t), s.ids + IdsOf(TokenPart(t.chunks)),
           if FaultOf(t.chunks, t.exhausted).Severed? && !t.gone then Retry else Answered)
  }

  // -- what reaches the client, said outright ------------------------------------------------------

  /** The stream broke off, not as a refusal, and the client is still there. */
  predicate Retryable(t: Trial)
  {
    (forall i :: 0 <= i < |t.chunks| ==> t.chunks[i].TokenChunk?) && !t.exhausted && !t.gone
  }

  /**
    The events after an attempt's tokens: a done event with the finish's own code and count if one
    arrived that is not a rejection; a rejected event if the finish says so, or the stream broke with
    the status that means it, and the client is still there; otherwise none.
   */
  predicate Closes(t: Trial, close: seq<Event>)
  {
    var n := Heard(t.chunks);
    if n < |t.chunks| && t.chunks[n].code != Finished(Rejected) then
      close == [DoneEvent(t.chunks[n].code, t.chunks[n].outputTokens, t.replica)]
    else if (n < |t.chunks| || t.exhausted) && !t.gone then close == [RejectedEvent]
    else close == []
  }

  /** What one attempt passes on: its token chunks as they are, and how it ended. */
  predicate Relayed(t: Trial, events: seq<Event>, ids: seq<Token>, fault: Fault)
  {
    var cs, n := t.chunks, Heard(t.chunks);
    && |ids| == n <= |events| <= n + 1
    && (forall i :: 0 <= i < n ==> ids[i] == cs[i].id && events[i] == TokenEvent(cs[i].text, cs[i].index))
    && (fault.Clean? <==> n < |cs| && cs[n].code != Finished(Rejected))
    && (fault.Refused? <==> if n < |cs| then cs[n].code == Finished(Rejected) else t.exhausted)
    && (fault.Clean? ==> events[n..] == [DoneEvent(cs[n].code, cs[n].outputTokens, t.replica)])
    && (!fault.Clean? ==> |events| == n)
  }

  /** The tokens of all the attempts, in order. */
  function PassedOn(trials: seq<Trial>): (seq<Event>, seq<Token>)
  {
    if trials == [] then ([], [])
    else
      var (n, part) := (|trials| - 1, TokenPart(trials[|trials| - 1].chunks));
      var (es, ids) := PassedOn(trials[..n]);
      (es + Forwarded(part), ids + IdsOf(part))
  }

  /**
    A whole request: every attempt but the last broke off and was retried; the client has the tokens
    of all attempts in order, then what closes the last; it is answered unless that broke off too.
   */
  ghost predicate Relays(trials: seq<Trial>, s: Stream)
  {
    && (forall i :: 0 <= i < |trials| - 1 ==> Retryable(trials[i]))
    && (s.status.Retry? <==> trials == [] || Retryable(trials[|trials| - 1]))
    && s.ids == PassedOn(trials).1
    && exists close :: s.events == PassedOn(trials).0 + close
                  && if trials == [] then close == [] else Closes(trials[|trials| - 1], close)
  }

  lemma ClosingCloses(t: Trial)
    ensures Closes(t, Closing(t))
    ensures Retryable(t) <==> FaultOf(t.chunks, t.exhausted).Severed? && !t.gone
    ensures Retryable(t) ==> Closing(t) == []
  {
    assert Heard(t.chunks) < |t.chunks| ==> !t.chunks[Heard(t.chunks)].TokenChunk?;
  }

  lemma RelaysMore(trials: seq<Trial>, s: Stream, t: Trial)
    requires Relays(trials, s) && s.status.Retry?
    ensures Relays(trials + [t], Attempted(s, t))
  {
    var all, part := trials + [t], TokenPart(t.chunks);
    ClosingCloses(t);
    if trials != [] { ClosingCloses(trials[|trials| - 1]); }
    hide Forwarded, IdsOf, Closing, FaultOf;
    assert all[..|trials|] == trials;
    var close :| s.events == PassedOn(trials).0 + close
      && if trials == [] then close == [] else Closes(trials[|trials| - 1], close);
    assert close == [] by { if trials != [] { NothingCloses(trials[|trials| - 1], close); } }
    assert s.events == PassedOn(trials).0;
    assert Attempted(s, t).events == PassedOn(all).0 + Closing(t);
  }

  lemma NothingCloses(t: Trial, close: seq<Event>)
    requires Retryable(t) && Closes(t, close)
    ensures close == []
  {
    assert Heard(t.chunks) == |t.chunks|;
  }

  lemma RelaysNone()
    ensures Relays([], START)
  {
    assert START.events == PassedOn([]).0 + [];
  }

  const START := Stream([], [], Retry)

  /** The request after these attempts; nothing is attempted once it is answered. */
  function Streamed(trials: seq<Trial>): Stream
  {
    if trials == [] then START
    else
      var n := |trials| - 1;
      var s := Streamed(trials[..n]);
      if s.status.Answered? then s else Attempted(s, trials[n])
  }

  // -- the two ends together ----------------------------------------------------------------------

  type Fleet = map<Id, Node>

  /** What the network and the client do to one attempt: `cut` chunks get through at most. */
  datatype Link = Link(cut: nat, exhausted: bool, gone: bool, patience: nat)

  function Cut(cs: seq<Chunk>, n: nat): (r: seq<Chunk>)
    ensures r <= cs && |r| == if n < |cs| then n else |cs|
  {
    if n < |cs| then cs[..n] else cs
  }

  /** What arrives from a replica asked to resume after `resume`; nothing from one without a connection. */
  function Arrives(fleet: Fleet, q: Query, replica: Id, resume: seq<Token>, l: Link): seq<Chunk>
  {
    if replica in fleet then Cut(Reply(fleet[replica], q, resume, l.patience), l.cut) else []
  }

  /** Attempt `i` resumes from all that was delivered before it. */
  ghost predicate FaithfulAt(fleet: Fleet, q: Query, links: nat -> Link, trials: seq<Trial>, i: nat)
    requires i < |trials|
  {
    && trials[i].chunks == Arrives(fleet, q, trials[i].replica, Streamed(trials[..i]).ids, links(i))
    && trials[i].exhausted == links(i).exhausted && trials[i].gone == links(i).gone
  }

  /** No replica is tried twice, and every attempt is what its replica replied, as far as it arrived. */
  ghost predicate Faithful(fleet: Fleet, q: Query, links: nat -> Link, trials: seq<Trial>)
  {
    && (forall i, j :: 0 <= i < j < |trials| ==> trials[i].replica != trials[j].replica)
    && (forall i :: 0 <= i < |trials| ==> FaithfulAt(fleet, q, links, trials, i))
  }

  lemma FaithfulPrefix(fleet: Fleet, q: Query, links: nat -> Link, trials: seq<Trial>)
    requires trials != [] && Faithful(fleet, q, links, trials)
    ensures Faithful(fleet, q, links, trials[..|trials| - 1])
    ensures FaithfulAt(fleet, q, links, trials, |trials| - 1)
  {
    var before := trials[..|trials| - 1];
    forall i | 0 <= i < |before| ensures FaithfulAt(fleet, q, links, before, i) {
      assert FaithfulAt(fleet, q, links, trials, i) && before[..i] == trials[..i];
    }
  }

  // -- what the client sees -----------------------------------------------------------------------

  function TokensOf(es: seq<Event>): (r: seq<Event>)
    ensures forall i :: 0 <= i < |r| ==> r[i].TokenEvent?
  {
    if es == [] then []
    else
      var n := |es| - 1;
      TokensOf(es[..n]) + if es[n].TokenEvent? then [es[n]] else []
  }

  lemma {:induction false} TokensOfAppend(a: seq<Event>, b: seq<Event>)
    ensures TokensOf(a + b) == TokensOf(a) + TokensOf(b)
  {
    if b == [] {
      assert a + b == a;
    } else {
      var n := |b| - 1;
      TokensOfAppend(a, b[..n]);
      assert (a + b)[..|a| + n] == a + b[..n];
    }
  }

  lemma {:induction false} TokensOfAll(es: seq<Event>)
    requires forall i :: 0 <= i < |es| ==> es[i].TokenEvent?
    ensures TokensOf(es) == es
  {
    if es != [] { TokensOfAll(es[..|es| - 1]); }
  }

  lemma TokensOfAttempt(s: Stream, t: Trial)
    ensures TokensOf(Attempted(s, t).events) == TokensOf(s.events) + Forwarded(TokenPart(t.chunks))
  {
    var more, close := Forwarded(TokenPart(t.chunks)), Closing(t);
    assert TokensOf(close) == [] by {
      if close != [] { assert close[..0] == []; }
    }
    TokensOfAll(more);
    hide TokensOf, Forwarded, Closing;
    TokensOfAppend(s.events + more, close);
    TokensOfAppend(s.events, more);
  }

  /** The client has seen indices 0, 1, 2, ... with no gap and no repeat, one for each id forwarded. */
  ghost predicate Numbered(s: Stream)
  {
    && |TokensOf(s.events)| == |s.ids|
    && forall i :: 0 <= i < |s.ids| ==> TokensOf(s.events)[i].index == i
  }

  /** Token chunks numbered on from `base`. */
  predicate NumberedFrom(cs: seq<Chunk>, base: nat)
    requires AllTokens(cs)
  {
    forall i :: 0 <= i < |cs| ==> cs[i].index == base + i
  }

  /** An attempt keeps the numbering if and only if its own chunks are numbered on from what was delivered. */
  lemma NumberedStep(s: Stream, t: Trial)
    requires Numbered(s)
    ensures Numbered(Attempted(s, t)) <==> NumberedFrom(TokenPart(t.chunks), |s.ids|)
  {
    TokensOfAttempt(s, t);
    var all, part, n := TokensOf(Attempted(s, t).events), TokenPart(t.chunks), |s.ids|;
    assert all == TokensOf(s.events) + Forwarded(part);
    if Numbered(Attempted(s, t)) {
      forall i | 0 <= i < |part| ensures part[i].index == n + i { assert all[n + i].index == n + i; }
    }
    if NumberedFrom(part, n) {
      forall i | 0 <= i < |all| ensures all[i].index == i {
        if i >= n { assert all[i] == Forwarded(part)[i - n]; }
      }
    }
  }

  /** What is heard of a prefix of token chunks and one finish. */
  lemma {:induction false} HeardOf(tokens: seq<Chunk>, finish: Chunk, cs: seq<Chunk>)
    requires AllTokens(tokens) && finish.FinishChunk? && cs <= tokens + [finish]
    ensures TokenPart(cs) <= tokens && |TokenPart(cs)| == Heard(cs)
    ensures Finishes(cs) <==> |cs| == |tokens| + 1
    ensures Finishes(cs) ==> TokenPart(cs) == tokens && cs[Heard(cs)] == finish
  {
    var all, n := tokens + [finish], Heard(cs);
    assert |cs| > |tokens| ==> cs[|tokens|] == all[|tokens|];
    if n < |cs| {
      assert cs[n] == all[n];
      assert n == |tokens|;
    }
    assert TokenPart(cs) == all[..n] == tokens[..n];
  }

  lemma ChunksTokens(ps: seq<Piece>, base: nat)
    ensures AllTokens(Chunks(ps, base)) && NumberedFrom(Chunks(ps, base), base) && IdsOf(Chunks(ps, base)) == Ids(ps)
  {
  }

  /** A reply under a fresh id is numbered on from what it resumes. */
  lemma FreshNumbered(fleet: Fleet, q: Query, replica: Id, resume: seq<Token>, l: Link)
    requires replica in fleet ==> q.id !in fleet[replica].inflight
    ensures NumberedFrom(TokenPart(Arrives(fleet, q, replica, resume, l)), |resume|)
  {
    var cs := Arrives(fleet, q, replica, resume, l);
    if cs != [] {
      var sv := fleet[replica].server;
      var reply := Reply(fleet[replica], q, resume, l.patience);
      if |reply| == 1 && reply[0].FinishChunk? {
        HeardOf([], reply[0], cs);
      } else {
        var a := sv.engine(sv.encode(q.prompt) + resume, Remaining(q.maxTokens, |resume|));
        var made := if l.patience >= |a.output| then a.output else a.output[..l.patience];
        ChunksTokens(Emitted(sv.decode, made), |resume|);
        HeardOf(Chunks(Emitted(sv.decode, made), |resume|), reply[|reply| - 1], cs);
      }
    }
  }

  /** No replica is already running this request. */
  ghost predicate Unseen(fleet: Fleet, q: Query)
  {
    forall x :: x in fleet ==> q.id !in fleet[x].inflight
  }

  /**
    The numbering the replicas choose and the ids the router sends back agree over every run: if
    the request's id is not already running on a replica, the client sees indices 0, 1, 2, ... with
    no gap and no repeat whatever breaks, and the tokens written are the ids the refund is based on.
   */
  lemma {:induction false} Unbroken(fleet: Fleet, q: Query, links: nat -> Link, trials: seq<Trial>)
    requires Faithful(fleet, q, links, trials)
    requires Unseen(fleet, q)
    ensures Numbered(Streamed(trials))
  {
    if trials != [] {
      var n := |trials| - 1;
      FaithfulPrefix(fleet, q, links, trials);
      Unbroken(fleet, q, links, trials[..n]);
      var s := Streamed(trials[..n]);
      hide Attempted, Numbered, Arrives, TokenPart, Faithful;
      if s.status.Retry? {
        FreshNumbered(fleet, q, trials[n].replica, s.ids, links(n));
        NumberedStep(s, trials[n]);
      }
    }
  }

  /**
    A retry that lands on a replica where its id is still running is replayed from index 0: the
    numbering survives if and only if nothing had been delivered or nothing of the replay arrives.
   */
  lemma ReplayNumberedIff(fleet: Fleet, q: Query, s: Stream, t: Trial, l: Link)
    requires Numbered(s) && t.chunks == Arrives(fleet, q, t.replica, s.ids, l)
    requires t.replica in fleet && !fleet[t.replica].draining && q.id in fleet[t.replica].inflight
    ensures Numbered(Attempted(s, t)) <==> s.ids == [] || l.cut == 0 || fleet[t.replica].inflight[q.id] == []
  {
    var ps := fleet[t.replica].inflight[q.id];
    ChunksTokens(ps, 0);
    HeardOf(Chunks(ps, 0), FinishChunk(Finished(Cancelled), |ps|), t.chunks);
    NumberedStep(s, t);
    hide Attempted, Numbered;
    var part := TokenPart(t.chunks);
    assert part == [] <==> l.cut == 0 || ps == [];
    if part != [] { assert part[0] == Chunks(ps, 0)[0]; }
  }

  // -- against an uninterrupted run ------------------------------------------------------------------

  /** The request a replica runs when the client already holds `resume`. */
  function Resumed(r: Request, resume: seq<Token>): Request
  {
    r.(prompt := r.prompt + resume, output := [], reason := None,
       maxTokens := Remaining(r.maxTokens, |resume|))
  }

  /** Generating from the longer prompt continues the original generation. */
  lemma {:induction false} ResumeContinues<K, H>(c: Config<K, H>, r: Request, resume: seq<Token>, out: seq<Token>)
    requires r.prompt != [] && |resume| + |out| < r.maxTokens
    ensures Generation(c, r, resume + out) ==
            var a := Generation(c, Resumed(r, resume), out); Answer(resume + a.output, a.reason)
    decreases r.maxTokens - |out|
  {
    var t := Next(c.m, r.prompt + (resume + out));
    assert r.prompt + resume + out == r.prompt + (resume + out);
    assert resume + out + [t] == resume + (out + [t]);
    if !Stops(c, r, t) && |resume + out| + 1 < r.maxTokens {
      ResumeContinues(c, r, resume, out + [t]);
    }
  }

  /** `out` is a point an uninterrupted generation passes through. */
  ghost predicate OnTrack<K, H>(c: Config<K, H>, r: Request, out: seq<Token>)
    requires r.prompt != []
  {
    |out| < r.maxTokens && Generation(c, r, out) == Generation(c, r, [])
  }

  /** Every proper prefix of an answer is on the way to it. */
  lemma {:induction false} PrefixOnTrack<K, H>(c: Config<K, H>, r: Request, out: seq<Token>, upto: seq<Token>)
    requires r.prompt != [] && |out| < r.maxTokens && out <= upto <= Generation(c, r, out).output
    ensures |upto| < r.maxTokens ==> Generation(c, r, upto) == Generation(c, r, out)
    decreases |upto| - |out|
  {
    if |upto| == |out| {
      assert upto == out;
    } else {
      var t := Next(c.m, r.prompt + out);
      var rest := out + [t];
      if !Stops(c, r, t) && |out| + 1 < r.maxTokens {
        GenerationExtends(c, r, rest);
        assert upto[|out|] == Generation(c, r, out).output[|out|] == t;
        assert rest <= upto;
        PrefixOnTrack(c, r, rest, upto);
      }
    }
  }

  /**
    An attempt resumed from `resume` that is honest: its replica, if it can be reached, runs the
    request under a fresh id and with an engine that answers what the model's own generation of the
    resumed request yields; every token shows; the client stays and no break is taken for a refusal.
   */
  ghost predicate Honest<K, H>(
    c: Config<K, H>, r: Request, fleet: Fleet, q: Query, l: Link, replica: Id, resume: seq<Token>)
    requires r.prompt != []
  {
    && !l.gone && !l.exhausted
    && (replica in fleet ==>
          var (n, a) := (fleet[replica], Generation(c, Resumed(r, resume), []));
          && !n.draining && q.id !in n.inflight && n.server.encode(q.prompt) == r.prompt
          && n.server.engine(r.prompt + resume, Remaining(q.maxTokens, |resume|)) == a
          && l.patience >= |a.output| && AllShow(n.server.decode, a.output))
  }

  ghost predicate HonestRun<K, H>(
    c: Config<K, H>, r: Request, fleet: Fleet, q: Query, links: nat -> Link, trials: seq<Trial>)
    requires r.prompt != []
  {
    && Faithful(fleet, q, links, trials)
    && forall i :: 0 <= i < |trials| ==>
         Honest(c, r, fleet, q, links(i), trials[i].replica, Streamed(trials[..i]).ids)
  }

  lemma HonestPrefix<K, H>(c: Config<K, H>, r: Request, fleet: Fleet, q: Query, links: nat -> Link, trials: seq<Trial>)
    requires r.prompt != [] && trials != [] && HonestRun(c, r, fleet, q, links, trials)
    ensures HonestRun(c, r, fleet, q, links, trials[..|trials| - 1])
    ensures FaithfulAt(fleet, q, links, trials, |trials| - 1)
    ensures var n := |trials| - 1; Honest(c, r, fleet, q, links(n), trials[n].replica, Streamed(trials[..n]).ids)
  {
    FaithfulPrefix(fleet, q, links, trials);
    hide Honest, Streamed, Faithful, FaithfulAt;
    var before := trials[..|trials| - 1];
    forall i | 0 <= i < |before|
      ensures Honest(c, r, fleet, q, links(i), before[i].replica, Streamed(before[..i]).ids)
    {
      assert before[i] == trials[i] && before[..i] == trials[..i];
    }
  }

  lemma HeardIds(ps: seq<Piece>, base: nat, finish: Chunk, cs: seq<Chunk>)
    requires finish.FinishChunk? && cs <= Chunks(ps, base) + [finish]
    ensures IdsOf(TokenPart(cs)) <= Ids(ps)
    ensures Finishes(cs) ==> IdsOf(TokenPart(cs)) == Ids(ps) && cs[Heard(cs)] == finish
  {
    ChunksTokens(ps, base);
    HeardOf(Chunks(ps, base), finish, cs);
  }

  lemma GeneratedWhole(sv: Server, q: Query, resume: seq<Token>, patience: nat, a: Answer)
    requires sv.encode(q.prompt) != [] && a.reason != Rejected && patience >= |a.output|
    requires sv.engine(sv.encode(q.prompt) + resume, Remaining(q.maxTokens, |resume|)) == a
    ensures Generated(sv, q, resume, patience) ==
            Chunks(Emitted(sv.decode, a.output), |resume|) + [FinishChunk(Finished(a.reason), |resume| + |a.output|)]
  {
    hide Emitted, Chunks;
  }

  lemma ArrivesFresh(fleet: Fleet, q: Query, replica: Id, resume: seq<Token>, l: Link)
    requires replica in fleet && !fleet[replica].draining && q.id !in fleet[replica].inflight
    ensures Arrives(fleet, q, replica, resume, l) <= Generated(fleet[replica].server, q, resume, l.patience)
  {
    hide Generated, Cut;
  }

  lemma HonestServer<K, H>(
    c: Config<K, H>, r: Request, fleet: Fleet, q: Query, l: Link, replica: Id, resume: seq<Token>)
    requires r.prompt != [] && Honest(c, r, fleet, q, l, replica, resume) && replica in fleet
    ensures var (n, a) := (fleet[replica], Generation(c, Resumed(r, resume), []));
            && !n.draining && q.id !in n.inflight && n.server.encode(q.prompt) != []
            && n.server.engine(n.server.encode(q.prompt) + resume, Remaining(q.maxTokens, |resume|)) == a
            && l.patience >= |a.output| && AllShow(n.server.decode, a.output)
  {
    hide Generation, AllShow, Resumed, Remaining;
  }

  /** Chunks that are part of the answer `a`, sent as it is. */
  predicate PartOf(cs: seq<Chunk>, a: Answer, decode: seq<Token> -> string, base: nat)
  {
    cs <= Chunks(Emitted(decode, a.output), base) + [FinishChunk(Finished(a.reason), base + |a.output|)]
  }

  /** These chunks deliver a prefix of the answer, all of it if the finish arrives. */
  ghost predicate Delivers(cs: seq<Chunk>, a: Answer)
  {
    && IdsOf(TokenPart(cs)) <= a.output
    && (Finishes(cs) ==> IdsOf(TokenPart(cs)) == a.output && cs[Heard(cs)].code == Finished(a.reason))
  }

  lemma PartDelivers(cs: seq<Chunk>, a: Answer, decode: seq<Token> -> string, base: nat)
    requires PartOf(cs, a, decode, base) && AllShow(decode, a.output)
    ensures Delivers(cs, a)
  {
    EmittedAllIff(decode, a.output);
    hide AllShow, Emitted;
    HeardIds(Emitted(decode, a.output), base, FinishChunk(Finished(a.reason), base + |a.output|), cs);
  }

  lemma ArrivesPart(fleet: Fleet, q: Query, replica: Id, resume: seq<Token>, l: Link, a: Answer)
    requires replica in fleet && !fleet[replica].draining && q.id !in fleet[replica].inflight
    requires a.reason != Rejected && l.patience >= |a.output|
    requires var sv := fleet[replica].server;
             && sv.encode(q.prompt) != []
             && sv.engine(sv.encode(q.prompt) + resume, Remaining(q.maxTokens, |resume|)) == a
    ensures PartOf(Arrives(fleet, q, replica, resume, l), a, fleet[replica].server.decode, |resume|)
  {
    GeneratedWhole(fleet[replica].server, q, resume, l.patience, a);
    ArrivesFresh(fleet, q, replica, resume, l);
    hide Arrives, Generated, Emitted, Chunks;
  }

  /** What an honest attempt delivers of its generation. */
  lemma HonestArrives<K, H>(
    c: Config<K, H>, r: Request, fleet: Fleet, q: Query, l: Link, replica: Id, resume: seq<Token>)
    requires r.prompt != [] && Honest(c, r, fleet, q, l, replica, resume)
    ensures var a := Generation(c, Resumed(r, resume), []);
            a.reason in {Eos, Length} && Delivers(Arrives(fleet, q, replica, resume, l), a)
  {
    assert Resumed(r, resume).prompt != [];
    hide *;
    var a := Generation(c, Resumed(r, resume), []);
    GenerationExtends(c, Resumed(r, resume), []);
    if replica in fleet {
      HonestServer(c, r, fleet, q, l, replica, resume);
      ArrivesPart(fleet, q, replica, resume, l, a);
      PartDelivers(Arrives(fleet, q, replica, resume, l), a, fleet[replica].server.decode, |resume|);
    } else {
      NothingArrives(fleet, q, replica, resume, l, a);
    }
  }

  lemma NothingArrives(fleet: Fleet, q: Query, replica: Id, resume: seq<Token>, l: Link, a: Answer)
    requires replica !in fleet
    ensures Delivers(Arrives(fleet, q, replica, resume, l), a)
  {
  }

  /** An honest attempt adds a prefix of its generation, and ends the request only by finishing. */
  lemma HonestStep<K, H>(
    c: Config<K, H>, r: Request, fleet: Fleet, q: Query, l: Link, s: Stream, t: Trial) returns (more: seq<Token>)
    requires r.prompt != [] && Honest(c, r, fleet, q, l, t.replica, s.ids)
    requires t == Trial(t.replica, Arrives(fleet, q, t.replica, s.ids, l), l.exhausted, l.gone)
    ensures Attempted(s, t).ids == s.ids + more && more <= Generation(c, Resumed(r, s.ids), []).output
    ensures Attempted(s, t).status.Answered? <==> Finishes(t.chunks)
    ensures Finishes(t.chunks) ==> more == Generation(c, Resumed(r, s.ids), []).output
  {
    HonestArrives(c, r, fleet, q, l, t.replica, s.ids);
    hide Generation, Arrives, TokenPart, IdsOf;
    more := IdsOf(TokenPart(t.chunks));
  }

  /** The ids held are those of the uninterrupted run so far, as long as its budget lasts. */
  ghost predicate Holds<K, H>(c: Config<K, H>, r: Request, held: seq<Token>)
    requires r.prompt != []
  {
    && (|held| < r.maxTokens ==> OnTrack(c, r, held))
    && (|held| == r.maxTokens ==> held == Generation(c, r, []).output)
  }

  lemma {:induction false} HeldOnTrack<K, H>(
    c: Config<K, H>, r: Request, fleet: Fleet, q: Query, links: nat -> Link, trials: seq<Trial>)
    requires r.prompt != [] && r.maxTokens >= 1 && HonestRun(c, r, fleet, q, links, trials)
    requires forall i :: 0 <= i < |trials| ==> !Finishes(trials[i].chunks)
    ensures Streamed(trials).status == Retry && Holds(c, r, Streamed(trials).ids)
  {
    if trials != [] {
      hide Honest, HonestRun, Attempted, Holds, Generation, Arrives, Finishes;
      var n := |trials| - 1;
      HonestPrefix(c, r, fleet, q, links, trials);
      HeldOnTrack(c, r, fleet, q, links, trials[..n]);
      var s := Streamed(trials[..n]);
      var more := HonestStep(c, r, fleet, q, links(n), s, trials[n]);
      StepOnTrack(c, r, s.ids, more);
    }
  }

  lemma StepOnTrack<K, H>(c: Config<K, H>, r: Request, held: seq<Token>, more: seq<Token>)
    requires r.prompt != [] && r.maxTokens >= 1
    requires Holds(c, r, held)
    requires more <= Generation(c, Resumed(r, held), []).output
    ensures Holds(c, r, held + more)
  {
    if |held| < r.maxTokens {
      assert held + [] == held;
      ResumeContinues(c, r, held, []);
      GenerationExtends(c, r, []);
      GenerationExtends(c, r, held);
      assert held + more <= Generation(c, r, held).output;
      PrefixOnTrack(c, r, held, held + more);
    } else {
      assert |held + more| == r.maxTokens ==> more == [] && held + more == held;
    }
  }

  /**
    The migrated answer against the uninterrupted one. When every token shows, the ids the client
    holds at the finish are those of an uninterrupted run if and only if the last attempt did not
    start with the whole token budget already delivered, or the model stops right there: a break
    after the last token makes the next replica generate one more.
   */
  lemma MigratedIff<K, H>(
    c: Config<K, H>, r: Request, fleet: Fleet, q: Query, links: nat -> Link, trials: seq<Trial>, last: Trial)
    requires r.prompt != [] && r.maxTokens >= 1 && HonestRun(c, r, fleet, q, links, trials + [last])
    requires (forall i :: 0 <= i < |trials| ==> !Finishes(trials[i].chunks)) && Finishes(last.chunks)
    ensures var held, s := Streamed(trials).ids, Streamed(trials + [last]);
            && s.status == Answered
            && (s.ids == Generation(c, r, []).output <==>
                |held| < r.maxTokens || (|held| == r.maxTokens && Stops(c, r, Next(c.m, r.prompt + held))))
  {
    hide Honest, HonestRun, Attempted, Holds, Generation, Arrives, Finishes;
    var all, n := trials + [last], |trials|;
    assert all[..n] == trials;
    HonestPrefix(c, r, fleet, q, links, all);
    HeldOnTrack(c, r, fleet, q, links, trials);
    var s := Streamed(trials);
    var more := HonestStep(c, r, fleet, q, links(n), s, last);
    LastAttempt(c, r, s.ids);
  }

  lemma LastAttempt<K, H>(c: Config<K, H>, r: Request, held: seq<Token>)
    requires r.prompt != [] && r.maxTokens >= 1
    requires Holds(c, r, held)
    ensures held + Generation(c, Resumed(r, held), []).output == Generation(c, r, []).output <==>
            |held| < r.maxTokens || (|held| == r.maxTokens && Stops(c, r, Next(c.m, r.prompt + held)))
  {
    GenerationExtends(c, r, []);
    if |held| < r.maxTokens {
      assert held + [] == held;
      ResumeContinues(c, r, held, []);
    } else {
      assert r.prompt + held + [] == r.prompt + held;
      var t := Next(c.m, r.prompt + held);
      var a := Generation(c, Resumed(r, held), []);
      assert Stops(c, r, t) ==> a.output == [] && held + a.output == held;
      assert !Stops(c, r, t) ==> |a.output| == 1;
    }
  }

  // -- a run that delivers one token too many --------------------------------------------------------

  function Crosses(tokens: seq<Token>): string
  {
    seq(|tokens|, i => 'x')
  }

  /** A model that always answers 7, and never stops by itself. */
  const SEVENS: Config<int, int> :=
    Config(Model(0, (t, p) => 0, (l, h) => 0, (l, h, kv) => 0, h => 7), 0, 1, 0, 0, false)

  const ONE := Request(0, [1], 1, false, [], None)

  const SEVENTH := Server(s => [1], Crosses, (ids, n) => Answer([7], Length))

  const TWINS: Fleet := map["a" := Node(SEVENTH, false, map[]), "b" := Node(SEVENTH, false, map[])]

  const ASKED := Query("id", "hi", 1)

  /** The first stream breaks after its one token, before the finish. */
  function BreakFirst(i: nat): Link
  {
    Link(if i == 0 then 1 else 2, false, false, 1)
  }

  const LATE := [
    Trial("a", [TokenChunk("x", 7, 0)], false, false),
    Trial("b", [TokenChunk("x", 7, 1), FinishChunk(Finished(Length), 2)], false, false)]

  lemma SevenShows()
    ensures AllShow(Crosses, [7]) && Emitted(Crosses, [7]) == [Piece(7, "x")]
  {
    assert [7][..0] == [] && [7][..1] == [7];
    assert Crosses([7]) == "x";
    assert Follow(Crosses, []) == Progress(0, []);
    assert Shows(Crosses, [7]);
  }

  lemma SevenReply(n: Node, resume: seq<Token>)
    requires n == Node(SEVENTH, false, map[])
    ensures Reply(n, ASKED, resume, 1) == [TokenChunk("x", 7, |resume|), FinishChunk(Finished(Length), |resume| + 1)]
  {
    SevenShows();
    assert Remaining(1, |resume|) == 1;
    hide Emitted;
  }

  lemma SevenAnswers(resume: seq<Token>)
    ensures Generation(SEVENS, Resumed(ONE, resume), []) == Answer([7], Length)
    ensures Generation(SEVENS, ONE, []) == Answer([7], Length)
  {
    var none: seq<Token> := [];
    assert none + [7] == [7];
  }

  lemma LateStreams()
    ensures Streamed(LATE[..0]) == START && Streamed(LATE[..1]).ids == [7] && Streamed(LATE).ids == [7, 7]
  {
    assert LATE[..1] == [LATE[0]] && LATE[..1][..0] == [] && LATE[..0] == [];
    var cs := LATE[1].chunks;
    assert Heard(cs[1..]) == 0 && Heard(cs) == 1 && Heard(LATE[0].chunks) == 1;
    assert Attempted(START, LATE[0]).ids == [7];
    assert Attempted(Streamed(LATE[..1]), LATE[1]).ids == [7, 7];
  }

  lemma SevenHonest(replica: Id, held: seq<Token>, l: Link)
    requires replica in TWINS && l == Link(l.cut, false, false, 1)
    ensures Honest(SEVENS, ONE, TWINS, ASKED, l, replica, held)
    ensures Arrives(TWINS, ASKED, replica, held, l) ==
            Cut([TokenChunk("x", 7, |held|), FinishChunk(Finished(Length), |held| + 1)], l.cut)
  {
    SevenShows();
    SevenAnswers(held);
    SevenReply(TWINS[replica], held);
    hide Generation, AllShow, Emitted, Reply, Resumed, Cut;
  }

  lemma LateFaithful()
    ensures Faithful(TWINS, ASKED, BreakFirst, LATE)
  {
    hide Streamed, Arrives, Honest;
    LateStreams();
    SevenHonest("a", [], BreakFirst(0));
    SevenHonest("b", [7], BreakFirst(1));
    assert FaithfulAt(TWINS, ASKED, BreakFirst, LATE, 0);
    assert FaithfulAt(TWINS, ASKED, BreakFirst, LATE, 1);
  }

  /**
    The failing side of `MigratedIff`: one token is asked for, every attempt is honest, and the
    client ends up with two, where an uninterrupted run has one.
   */
  lemma LateBreakRepeats()
    ensures HonestRun(SEVENS, ONE, TWINS, ASKED, BreakFirst, LATE)
    ensures Streamed(LATE).ids == [7, 7] && Generation(SEVENS, ONE, []) == Answer([7], Length)
  {
    LateStreams();
    SevenAnswers([]);
    LateFaithful();
    SevenHonest("a", [], BreakFirst(0));
    SevenHonest("b", [7], BreakFirst(1));
    hide Faithful, Honest, Streamed, Generation;
  }
}
