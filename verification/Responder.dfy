/**
 Answering a request exactly once (nwep/server.py:252-534, 800-828; the sub-routers of
 nwep/log.py:408-436 and nwep/trust/anchor.py:118-153).

 A handler is any sequence of calls on its Responder, each with the result C gave it, ending in a
 return or an exception; a call that raised in the middle was caught by the handler.
 */
module Responder {

  /** The token a terminal gives. */
  datatype Reply = Reply(deferred: bool)

  /** What put a response into the buffer of the request. */
  datatype Writer = Encoder(ok: bool) | SubRouter

  /** How a terminal that writes gets on, once it has claimed the responder. */
  datatype Fate = BadArguments | EncodeFails | Encodes

  /** What a sub-router's C dispatch reports: 0, 1 or an error. */
  datatype Routed = Accepts | Declines | Fails

  datatype Call =
    | Header(ok: bool)
    | Answer(fate: Fate)        // ok, status and all built on it, not_modified, relay, blit, stream, ...
    | PartialOfNothing          // partial() with no range
    | Defer
    | Capture(ok: bool)
    | Dispatch(rc: Routed)

  datatype Outcome = Gives(reply: Reply) | Returns | Raises

  datatype Ending = ReturnReply(reply: Reply) | ReturnSomethingElse | Raise

  datatype Handler = Handler(calls: seq<Call>, ending: Ending)

  datatype State = State(used: bool, writes: seq<Writer>, replies: seq<Reply>)

  const DEFERRED := 1
  const APP_ERROR := -801

  function Init(): State {
    State(false, [], [])
  }

  function OutcomeOf(s: State, c: Call): Outcome {
    match c
    case Header(ok) => if ok then Returns else Raises
    case Answer(fate) => if !s.used && fate.Encodes? then Gives(Reply(false)) else Raises
    case PartialOfNothing => Raises
    case Defer => if s.used then Raises else Gives(Reply(true))
    case Capture(ok) => if s.used && ok then Returns else Raises
    case Dispatch(rc) =>
      if rc.Accepts? then (if s.used then Raises else Gives(Reply(false)))
      else if rc.Declines? then Returns else Raises
  }

  function WritesOf(s: State, c: Call): seq<Writer> {
    match c
    case Answer(fate) => if s.used || fate.BadArguments? then [] else [Encoder(fate.Encodes?)]
    case Dispatch(Accepts) => [SubRouter]  // the buffer is written before the claim
    case _ => []
  }

  /** A call that leaves the responder claimed. */
  predicate Claims(c: Call) {
    c.Answer? || c.Defer? || c == Dispatch(Accepts)
  }

  function Step(s: State, c: Call): State {
    State(s.used || Claims(c), s.writes + WritesOf(s, c),
          s.replies + match OutcomeOf(s, c) case Gives(r) => [r] case _ => [])
  }

  function Run(s: State, calls: seq<Call>): State
    decreases |calls|
  {
    if calls == [] then s else Run(Step(s, calls[0]), calls[1..])
  }

  lemma {:induction false} RunSnoc(s: State, calls: seq<Call>, c: Call)
    ensures Run(s, calls + [c]) == Step(Run(s, calls), c)
    decreases |calls|
  {
    if calls == [] {
      assert calls + [c] == [c] && [c][1..] == [];
      assert Run(s, [c]) == Run(Step(s, c), []);
    } else {
      RunSnoc(Step(s, calls[0]), calls[1..], c);
      assert (calls + [c])[1..] == calls[1..] + [c];
    }
  }

  /** A handler that returns a Reply got it from this responder, and did not build one itself. */
  predicate Honest(h: Handler) {
    h.ending.ReturnReply? ==> h.ending.reply in Run(Init(), h.calls).replies
  }

  function ResultOf(e: Ending): int {
    match e
    case ReturnReply(reply) => if reply.deferred then DEFERRED else 0
    case _ => APP_ERROR
  }

  // What a handler comes to: its first claiming call decides

  function FirstClaim(calls: seq<Call>): (k: nat)
    ensures k <= |calls|
    ensures forall i :: 0 <= i < k ==> !Claims(calls[i])
    ensures k < |calls| ==> Claims(calls[k])
  {
    if calls == [] || Claims(calls[0]) then 0 else 1 + FirstClaim(calls[1..])
  }

  function ReplyFrom(c: Call): seq<Reply> {
    match c
    case Answer(Encodes) => [Reply(false)]
    case Defer => [Reply(true)]
    case Dispatch(Accepts) => [Reply(false)]
    case _ => []
  }

  /** Accepted dispatches among some calls, each of which writes the buffer again. */
  function Accepted(calls: seq<Call>): nat {
    if calls == [] then 0 else (if calls[0] == Dispatch(Accepts) then 1 else 0) + Accepted(calls[1..])
  }

  function SubRouters(n: nat): (ws: seq<Writer>)
    ensures |ws| == n
  {
    if n == 0 then [] else [SubRouter] + SubRouters(n - 1)
  }

  lemma {:induction false} OnceClaimed(s: State, calls: seq<Call>)
    requires s.used
    ensures Run(s, calls) == State(true, s.writes + SubRouters(Accepted(calls)), s.replies)
    decreases |calls|
  {
    if calls == [] {
      assert s.writes + [] == s.writes;
    } else {
      OnceClaimed(Step(s, calls[0]), calls[1..]);
      assert s.replies + [] == s.replies;
      var rest := SubRouters(Accepted(calls[1..]));
      assert s.writes + [] + rest == s.writes + rest;
      assert s.writes + [SubRouter] + rest == s.writes + ([SubRouter] + rest);
    }
  }

  /** The first claiming call at k, and the accepted dispatches behind it. */
  function Decided(calls: seq<Call>, k: nat): State
    requires k <= |calls|
  {
    if k == |calls| then Init()
    else State(true, WritesOf(Init(), calls[k]) + SubRouters(Accepted(calls[k + 1..])), ReplyFrom(calls[k]))
  }

  lemma UnclaimingStep(c: Call)
    requires !Claims(c)
    ensures Step(Init(), c) == Init()
  {
  }

  lemma ClaimingStep(c: Call)
    requires Claims(c)
    ensures Step(Init(), c) == State(true, WritesOf(Init(), c), ReplyFrom(c))
  {
  }

  /**
   Whatever the handler does: the first claiming call alone decides the reply and who writes
   first; after it, only accepted dispatches still reach the buffer.
   */
  lemma {:induction false} FirstClaimDecides(calls: seq<Call>)
    ensures Run(Init(), calls) == Decided(calls, FirstClaim(calls))
  {
    if calls == [] {
    } else if Claims(calls[0]) {
      ClaimingStep(calls[0]);
      OnceClaimed(Step(Init(), calls[0]), calls[1..]);
    } else {
      UnclaimingStep(calls[0]);
      FirstClaimDecides(calls[1..]);
      var k := FirstClaim(calls[1..]);
      if k < |calls| - 1 {
        assert calls[1..][k + 1..] == calls[k + 2..];
      }
    }
  }

  /** No handler gets two replies, and at most one terminal encoder runs for a request. */
  lemma OneReplyOneEncoder(calls: seq<Call>)
    ensures var s := Run(Init(), calls);
            && |s.replies| <= 1
            && forall j :: 0 < j < |s.writes| ==> s.writes[j] == SubRouter
  {
    FirstClaimDecides(calls);
    var k := FirstClaim(calls);
    if k < |calls| {
      AllSubRouters(Accepted(calls[k + 1..]));
    }
  }

  /** The outcome of the i-th call of a handler. */
  function OutcomeAt(calls: seq<Call>, i: nat): Outcome
    requires i < |calls|
  {
    OutcomeOf(Run(Init(), calls[..i]), calls[i])
  }

  /**
   A second terminal is a bug and raises: behind the first claiming call every terminal, defer and
   accepted dispatch raises, whether or not the first one succeeded.  The first itself gives its
   reply, or raises because its own encoding failed.
   */
  lemma SecondClaimRaises(calls: seq<Call>, i: nat)
    requires i < |calls| && Claims(calls[i])
    ensures i > FirstClaim(calls) ==> OutcomeAt(calls, i) == Raises
    ensures i == FirstClaim(calls) ==>
              match calls[i]
              case Answer(fate) => OutcomeAt(calls, i) == if fate.Encodes? then Gives(Reply(false)) else Raises
              case Defer => OutcomeAt(calls, i) == Gives(Reply(true))
              case _ => OutcomeAt(calls, i) == Gives(Reply(false))
    ensures i >= FirstClaim(calls)
  {
    FirstClaimOfPrefix(calls, i);
    FirstClaimDecides(calls[..i]);
  }

  /** Calls that claim nothing: what each of them comes to, before and behind the claim. */
  lemma OtherCallsMean(calls: seq<Call>, i: nat)
    requires i < |calls| && !Claims(calls[i])
    ensures match calls[i]
            case Header(ok) => OutcomeAt(calls, i) == if ok then Returns else Raises
            case PartialOfNothing => OutcomeAt(calls, i) == Raises
            case Capture(ok) => OutcomeAt(calls, i) == if ok && FirstClaim(calls) < i then Returns else Raises
            case Dispatch(rc) => OutcomeAt(calls, i) == if rc.Declines? then Returns else Raises
            case _ => false
  {
    FirstClaimOfPrefix(calls, i);
    FirstClaimDecides(calls[..i]);
  }

  lemma {:induction false} FirstClaimOfPrefix(calls: seq<Call>, i: nat)
    requires i <= |calls|
    ensures FirstClaim(calls[..i]) == if FirstClaim(calls) < i then FirstClaim(calls) else i
  {
    if i > 0 && !Claims(calls[0]) {
      FirstClaimOfPrefix(calls[1..], i - 1);
      assert calls[..i][1..] == calls[1..][..i - 1];
    }
  }

  lemma {:induction false} AllSubRouters(n: nat)
    ensures forall i :: 0 <= i < n ==> SubRouters(n)[i] == SubRouter
  {
    if n > 0 {
      AllSubRouters(n - 1);
    }
  }

  /**
   The trampoline's result, read off the calls: the error code exactly without a reply, and for a
   reply of this responder what its first claiming call did.
   */
  lemma ResultMeans(h: Handler)
    ensures ResultOf(h.ending) == -801 <==> !h.ending.ReturnReply?
    ensures h.ending.ReturnReply? ==> ResultOf(h.ending) == if h.ending.reply.deferred then 1 else 0
    ensures var k := FirstClaim(h.calls); var r := ResultOf(h.ending);
            h.ending.ReturnReply? && Honest(h) ==>
              k < |h.calls| && if h.calls[k] == Defer then r == DEFERRED
                               else r == 0 && (h.calls[k] == Answer(Encodes) || h.calls[k] == Dispatch(Accepts))
  {
    FirstClaimDecides(h.calls);
  }

  /** No sub-router accepts once the responder is claimed. */
  predicate NeverOverwrites(calls: seq<Call>) {
    var k := FirstClaim(calls);
    k == |calls| || Accepted(calls[k + 1..]) == 0
  }

  /** What a result tells the server fits what is in the buffer. */
  predicate Fits(writes: seq<Writer>, result: int) {
    match result
    case 0 => writes == [Encoder(true)] || writes == [SubRouter]
    case 1 => writes == []
    case _ => |writes| <= 1
  }

  predicate Consistent(h: Handler) {
    Fits(Run(Init(), h.calls).writes, ResultOf(h.ending))
  }

  /** A first claim and a number of dispatches accepted after it that make a result fit. */
  predicate ClaimMatches(c: Call, more: nat, result: int) {
    var first := WritesOf(Init(), c);
    match result
    case 0 => (first != [] && first != [Encoder(false)] && more == 0) || (first == [] && more == 1)
    case 1 => first == [] && more == 0
    case _ => |first| + more <= 1
  }

  predicate Matches(calls: seq<Call>, result: int) {
    var k := FirstClaim(calls);
    if k == |calls| then result != 0 else ClaimMatches(calls[k], Accepted(calls[k + 1..]), result)
  }

  lemma ClaimFits(c: Call, more: nat, result: int)
    ensures Fits(WritesOf(Init(), c) + SubRouters(more), result) <==> ClaimMatches(c, more, result)
  {
    var first := WritesOf(Init(), c);
    WritesAdd(first, more);
    if more == 1 {
      assert SubRouters(1) == [SubRouter] + SubRouters(0);
    }
  }

  /** Of the replies a responder gives, each matches exactly as long as nothing was accepted after it. */
  lemma HonestMatches(h: Handler)
    requires Honest(h) && h.ending.ReturnReply?
    ensures Matches(h.calls, ResultOf(h.ending)) <==> NeverOverwrites(h.calls)
  {
    ResultMeans(h);
    assert ResultOf(h.ending) == 0 || ResultOf(h.ending) == 1;
  }

  /**
   For every handler, whatever it returns, the result fits the buffer exactly when its calls make
   it fit.  So a handler that returns a Reply it got leaves exactly the response it claims, or
   none for a deferred one, if and only if it lets no sub-router accept on a responder already
   claimed: the dispatches write the buffer first and claim afterwards (log.py:423-433,
   anchor.py:138-149).
   */
  lemma ConsistentIff(h: Handler)
    ensures Consistent(h) <==> Matches(h.calls, ResultOf(h.ending))
    ensures h.ending.ReturnReply? && Honest(h) ==> (Consistent(h) <==> NeverOverwrites(h.calls))
  {
    FirstClaimDecides(h.calls);
    var k := FirstClaim(h.calls);
    if k < |h.calls| {
      ClaimFits(h.calls[k], Accepted(h.calls[k + 1..]), ResultOf(h.ending));
    }
    if h.ending.ReturnReply? && Honest(h) {
      HonestMatches(h);
    }
  }

  lemma WritesAdd(first: seq<Writer>, more: nat)
    ensures |first + SubRouters(more)| == |first| + more
    ensures more == 0 ==> first + SubRouters(more) == first
  {
  }

  /** Without a reply too there is never more than one write, under the same condition. */
  lemma AtMostOneWrite(calls: seq<Call>)
    requires NeverOverwrites(calls)
    ensures |Run(Init(), calls).writes| <= 1
  {
    FirstClaimDecides(calls);
  }

  /** Answering, then letting the log routes try as well, returns 0 over a buffer written twice. */
  lemma AnsweredThenRouted()
    ensures var h := Handler([Answer(Encodes), Dispatch(Accepts)], ReturnReply(Reply(false)));
            Honest(h) && ResultOf(h.ending) == 0 && Run(Init(), h.calls).writes == [Encoder(true), SubRouter]
  {
    var calls := [Answer(Encodes), Dispatch(Accepts)];
    assert calls[1..] == [Dispatch(Accepts)] && calls[1..][1..] == [];
    var one := Step(Init(), calls[0]);
    assert one == State(true, [Encoder(true)], [Reply(false)]);
    var two := Step(one, Dispatch(Accepts));
    assert two == State(true, [Encoder(true), SubRouter], [Reply(false)]);
    assert Run(one, calls[1..]) == Run(two, []);
  }

  // The code

  /** The C response buffer. */
  class Buffer {
    var writes: seq<Writer>

    constructor ()
      ensures writes == []
    {
      writes := [];
    }

    method Write(w: Writer)
      modifies this
      ensures writes == old(writes) + [w]
    {
      writes := writes + [w];
    }
  }

  class Responder {
    const buf: Buffer
    var used: bool
    ghost var replies: seq<Reply>

    ghost function At(): State
      reads this, buf
    {
      State(used, buf.writes, replies)
    }

    constructor (buf: Buffer)
      requires buf.writes == []
      ensures this.buf == buf && At() == Init()
    {
      this.buf := buf;
      used := false;
      replies := [];
    }

    method Claim() returns (ok: bool)
      modifies this`used
      ensures ok == !old(used) && used
    {
      if used { return false; }
      used := true;
      return true;
    }

    method AddHeader(ok: bool) returns (o: Outcome)
      ensures o == OutcomeOf(At(), Header(ok)) && At() == Step(At(), Header(ok))
      ensures o == if ok then Returns else Raises
    {
      assert buf.writes + [] == buf.writes && replies + [] == replies;
      o := if ok then Returns else Raises;
    }

    method Terminal(fate: Fate) returns (o: Outcome)
      modifies this, buf
      ensures o == OutcomeOf(old(At()), Answer(fate)) && At() == Step(old(At()), Answer(fate))
      ensures o == if !old(used) && fate.Encodes? then Gives(Reply(false)) else Raises
      ensures used && buf.writes == old(buf.writes) + if old(used) || fate.BadArguments? then [] else [Encoder(fate.Encodes?)]
    {
      assert buf.writes + [] == buf.writes && replies + [] == replies;
      var ok := Claim();
      if !ok || fate.BadArguments? { return Raises; }
      buf.Write(Encoder(fate.Encodes?));
      if fate.EncodeFails? { return Raises; }
      replies := replies + [Reply(false)];
      return Gives(Reply(false));
    }

    /** ranges counts the ranges asked for. */
    method Partial(ranges: nat, fate: Fate) returns (o: Outcome)
      modifies this, buf
      ensures var c := if ranges == 0 then PartialOfNothing else Answer(fate);
              o == OutcomeOf(old(At()), c) && At() == Step(old(At()), c)
      ensures ranges == 0 ==> o == Raises && At() == old(At())
    {
      if ranges == 0 {
        assert buf.writes + [] == buf.writes && replies + [] == replies;
        return Raises;
      }
      o := Terminal(fate);
    }

    method DeferIt() returns (o: Outcome)
      modifies this, buf
      ensures o == OutcomeOf(old(At()), Defer) && At() == Step(old(At()), Defer)
      ensures o == (if old(used) then Raises else Gives(Reply(true))) && used && buf.writes == old(buf.writes)
    {
      assert buf.writes + [] == buf.writes && replies + [] == replies;
      var ok := Claim();
      if !ok { return Raises; }
      replies := replies + [Reply(true)];
      return Gives(Reply(true));
    }

    method CaptureFrame(ok: bool) returns (o: Outcome)
      ensures o == OutcomeOf(At(), Capture(ok)) && At() == Step(At(), Capture(ok))
      ensures o == if used && ok then Returns else Raises
    {
      assert buf.writes + [] == buf.writes && replies + [] == replies;
      if !used { return Raises; }
      o := if ok then Returns else Raises;
    }

    /** A sub-router's dispatch: C writes the buffer when it accepts, then the claim. */
    method Route(rc: Routed) returns (o: Outcome)
      modifies this, buf
      ensures o == OutcomeOf(old(At()), Dispatch(rc)) && At() == Step(old(At()), Dispatch(rc))
      ensures rc.Accepts? ==> o == (if old(used) then Raises else Gives(Reply(false))) && used
                              && buf.writes == old(buf.writes) + [SubRouter]
      ensures !rc.Accepts? ==> o == (if rc.Declines? then Returns else Raises) && At() == old(At())
    {
      assert buf.writes + [] == buf.writes && replies + [] == replies;
      if rc.Accepts? {
        buf.Write(SubRouter);
        var ok := Claim();
        if !ok { return Raises; }
        replies := replies + [Reply(false)];
        return Gives(Reply(false));
      }
      o := if rc.Declines? then Returns else Raises;
    }

    method Do(c: Call) returns (o: Outcome)
      modifies this, buf
      ensures o == OutcomeOf(old(At()), c) && At() == Step(old(At()), c)
    {
      match c
      case Header(ok) => o := AddHeader(ok);
      case Answer(fate) => o := Terminal(fate);
      case PartialOfNothing => o := Partial(0, BadArguments);
      case Defer => o := DeferIt();
      case Capture(ok) => o := CaptureFrame(ok);
      case Dispatch(rc) => o := Route(rc);
    }

    /**
     Sub-routers tried one after another on a fresh responder: the first that does not decline
     has the last word.  One that accepts is the only writer; declining and failing leave the
     responder untouched for the handler to answer.
     */
    method TryRouters(routers: seq<Routed>) returns (o: Outcome, tried: nat)
      requires At() == Init()
      modifies this, buf
      ensures tried <= |routers| && forall i :: 0 <= i < tried ==> routers[i] == Declines
      ensures tried == |routers| ==> o == Returns && At() == Init()
      ensures tried < |routers| ==> routers[tried] != Declines
      ensures tried < |routers| && routers[tried] == Fails ==> o == Raises && At() == Init()
      ensures tried < |routers| && routers[tried] == Accepts ==>
                o == Gives(Reply(false)) && At() == State(true, [SubRouter], [Reply(false)])
    {
      tried := 0;
      while tried < |routers|
        invariant tried <= |routers| && At() == Init()
        invariant forall i :: 0 <= i < tried ==> routers[i] == Declines
      {
        o := Route(routers[tried]);
        if o != Returns { return; }
        tried := tried + 1;
      }
      o := Returns;
    }
  }

  /** The trampoline around one request. */
  method Trampoline(h: Handler, buf: Buffer) returns (rc: int)
    requires buf.writes == []
    modifies buf
    ensures rc == (if !h.ending.ReturnReply? then -801 else if h.ending.reply.deferred then 1 else 0)
    ensures rc == ResultOf(h.ending) && buf.writes == Run(Init(), h.calls).writes
    ensures rc == 0 ==> (buf.writes == [Encoder(true)] || buf.writes == [SubRouter] <==> Matches(h.calls, 0))
    ensures rc == DEFERRED ==> (buf.writes == [] <==> Matches(h.calls, DEFERRED))
    ensures NeverOverwrites(h.calls) ==>
              && |buf.writes| <= 1
              && (Honest(h) && rc == 0 ==> buf.writes == [Encoder(true)] || buf.writes == [SubRouter])
              && (Honest(h) && rc == DEFERRED ==> buf.writes == [])
  {
    var responder := new Responder(buf);
    for k := 0 to |h.calls|
      invariant responder.buf == buf && responder.At() == Run(Init(), h.calls[..k])
    {
      var _ := responder.Do(h.calls[k]);
      RunSnoc(Init(), h.calls[..k], h.calls[k]);
      assert h.calls[..k] + [h.calls[k]] == h.calls[..k + 1];
    }
    assert h.calls[..|h.calls|] == h.calls;
    if NeverOverwrites(h.calls) {
      AtMostOneWrite(h.calls);
    }
    ConsistentIff(h);
    if h.ending.ReturnReply? {
      return if h.ending.reply.deferred then DEFERRED else 0;
    }
    return APP_ERROR;
  }
}
