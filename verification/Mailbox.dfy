/**
 The mailbox between the tasks of one event loop and an owner thread: a FIFO of commands with
 one asyncio future each, the loop's callback queue, and futures that may be cancelled at any
 moment.  Both managed runtimes use it (nwep/runtime.py:151-183, 267-285, 325-368, 405-411, 423-434).
 */
module Mailbox {

  datatype Future<+A> = Pending | Cancelled | Settled(answer: A)

  /** A _resolve or _reject handed to call_soon_threadsafe, for the future with this token. */
  datatype Callback<+A> = Callback(token: nat, answer: A)

  /** A queued command, whose token is the index of its future, or the _STOP sentinel. */
  datatype Command<+Q> = Ask(token: nat, query: Q) | Stop

  /**
   asked, answers and consumed are histories: every query accepted, every answer handed to the
   loop, and the tokens of the callbacks that ran.  invalidState says that some set_result or
   set_exception met a future that was already done.
   */
  datatype Box<Q, A> = Box(
    queue: seq<Command<Q>>,
    futures: seq<Future<A>>,
    inbox: seq<Callback<A>>,
    asked: seq<Q>,
    answers: seq<A>,
    consumed: seq<nat>,
    invalidState: bool)

  function EmptyBox<Q, A>(): Box<Q, A> {
    Box([], [], [], [], [], [], false)
  }

  /** future.cancel() */
  function CancelFuture<A>(f: Future<A>): Future<A> {
    if f.Pending? then Cancelled else f
  }

  /**
   _resolve and _reject skip a cancelled future and otherwise set it; setting one that is done
   raises InvalidStateError and leaves it as it is.
   */
  function SettleFuture<A>(f: Future<A>, answer: A): Future<A> {
    if f.Pending? then Settled(answer) else f
  }

  function Submit<Q, A>(b: Box<Q, A>, query: Q): Box<Q, A> {
    b.(queue := b.queue + [Ask(|b.futures|, query)], futures := b.futures + [Pending], asked := b.asked + [query])
  }

  function PutStop<Q, A>(b: Box<Q, A>): Box<Q, A> {
    b.(queue := b.queue + [Stop])
  }

  function CancelAt<Q, A>(b: Box<Q, A>, token: nat): Box<Q, A>
    requires token < |b.futures|
  {
    b.(futures := b.futures[token := CancelFuture(b.futures[token])])
  }

  predicate CanRun<Q, A>(b: Box<Q, A>) {
    b.inbox != [] && b.inbox[0].token < |b.futures|
  }

  function RunHead<Q, A>(b: Box<Q, A>): Box<Q, A>
    requires CanRun(b)
  {
    var cb := b.inbox[0];
    var f := b.futures[cb.token];
    b.(inbox := b.inbox[1..],
       futures := b.futures[cb.token := SettleFuture(f, cb.answer)],
       invalidState := b.invalidState || f.Settled?,
       consumed := b.consumed + [cb.token])
  }

  function TakeHead<Q, A>(b: Box<Q, A>): Box<Q, A>
    requires b.queue != []
  {
    b.(queue := b.queue[1..])
  }

  function Post<Q, A>(b: Box<Q, A>, cb: Callback<A>): Box<Q, A> {
    b.(inbox := b.inbox + [cb], answers := b.answers + [cb.answer])
  }

  // One ordered pipeline: consumed, inbox, the owner's hand, queue

  predicate HasStop<Q, A>(b: Box<Q, A>) {
    b.queue != [] && b.queue[|b.queue| - 1].Stop?
  }

  function Sends<Q, A>(b: Box<Q, A>): nat {
    if HasStop(b) then |b.queue| - 1 else |b.queue|
  }

  /** The queue holds the tokens from first on, in order, and at most one _STOP, at its end. */
  ghost predicate QueueRight<Q, A>(b: Box<Q, A>, first: nat) {
    && |b.asked| == |b.futures| == first + Sends(b)
    && (forall i :: 0 <= i < Sends(b) ==> b.queue[i] == Ask(first + i, b.asked[first + i]))
  }

  ghost predicate LoopRight<Q, A>(b: Box<Q, A>) {
    && |b.answers| == |b.consumed| + |b.inbox| <= |b.futures|
    && (forall i :: 0 <= i < |b.consumed| ==> b.consumed[i] == i)
    && (forall i :: 0 <= i < |b.inbox| ==> b.inbox[i] == Callback(|b.consumed| + i, b.answers[|b.consumed| + i]))
  }

  ghost predicate FuturesRight<Q, A>(b: Box<Q, A>)
    requires LoopRight(b)
  {
    && (forall i :: 0 <= i < |b.consumed| ==> b.futures[i] == Cancelled || b.futures[i] == Settled(b.answers[i]))
    && (forall i :: |b.consumed| <= i < |b.futures| ==> !b.futures[i].Settled?)
    && !b.invalidState
  }

  /** hand is what the owner has taken and not yet answered: nothing, or the oldest token. */
  ghost predicate BoxInv<Q, A>(b: Box<Q, A>, hand: seq<nat>) {
    && LoopRight(b) && FuturesRight(b)
    && QueueRight(b, |b.answers| + |hand|)
    && |hand| <= 1 && (hand != [] ==> hand[0] == |b.answers|)
  }

  lemma EmptyBoxIsRight<Q, A>()
    ensures BoxInv(EmptyBox<Q, A>(), []) && !HasStop(EmptyBox<Q, A>())
  {
  }

  lemma SubmitKeepsBox<Q, A>(b: Box<Q, A>, hand: seq<nat>, query: Q)
    requires BoxInv(b, hand) && !HasStop(b)
    ensures BoxInv(Submit(b, query), hand) && !HasStop(Submit(b, query))
  {
    assert Sends(Submit(b, query)) == |b.queue| + 1;
  }

  lemma PutStopKeepsBox<Q, A>(b: Box<Q, A>, hand: seq<nat>)
    requires BoxInv(b, hand) && !HasStop(b)
    ensures BoxInv(PutStop(b), hand) && HasStop(PutStop(b))
  {
    assert Sends(PutStop(b)) == |b.queue|;
  }

  lemma CancelKeepsBox<Q, A>(b: Box<Q, A>, hand: seq<nat>, token: nat)
    requires BoxInv(b, hand) && token < |b.futures|
    ensures BoxInv(CancelAt(b, token), hand) && HasStop(CancelAt(b, token)) == HasStop(b)
  {
  }

  lemma RunHeadKeepsBox<Q, A>(b: Box<Q, A>, hand: seq<nat>)
    requires BoxInv(b, hand) && b.inbox != []
    ensures CanRun(b) && b.futures[b.inbox[0].token].Settled? == false
    ensures BoxInv(RunHead(b), hand) && HasStop(RunHead(b)) == HasStop(b)
  {
    assert b.inbox[0] == Callback(|b.consumed|, b.answers[|b.consumed|]);
    var t := RunHead(b);
    assert forall i :: 0 <= i < |t.inbox| ==> t.inbox[i] == b.inbox[i + 1];
  }

  /** The queue's head is its oldest token; a _STOP at the head is alone. */
  lemma QueueHead<Q, A>(b: Box<Q, A>, first: nat)
    requires QueueRight(b, first) && b.queue != []
    ensures b.queue[0].Stop? ==> |b.queue| == 1
    ensures b.queue[0].Ask? ==> first < |b.asked| && b.queue[0] == Ask(first, b.asked[first])
  {
    if |b.queue| > 1 || b.queue[0].Ask? {
      assert b.queue[0] == Ask(first, b.asked[first]);
    }
  }

  lemma TakeKeepsBox<Q, A>(b: Box<Q, A>)
    requires BoxInv(b, []) && b.queue != []
    ensures var t := TakeHead(b);
            if b.queue[0].Stop? then BoxInv(t, []) && t.queue == []
            else BoxInv(t, [b.queue[0].token]) && HasStop(t) == HasStop(b)
                 && |b.answers| < |b.asked| && b.queue[0] == Ask(|b.answers|, b.asked[|b.answers|])
  {
    QueueHead(b, |b.answers|);
    var t := TakeHead(b);
    if b.queue[0].Ask? {
      assert HasStop(t) == HasStop(b);
      assert forall i :: 0 <= i < Sends(t) ==> t.queue[i] == b.queue[i + 1];
    }
  }

  lemma PostKeepsBox<Q, A>(b: Box<Q, A>, cb: Callback<A>)
    requires BoxInv(b, [cb.token])
    ensures BoxInv(Post(b, cb), []) && HasStop(Post(b, cb)) == HasStop(b)
  {
    var t := Post(b, cb);
    assert Sends(t) == Sends(b);
  }

  // What the invariant says of every token

  /** first, first + 1, ... : n tokens in order. */
  function From(first: nat, n: nat): seq<nat>
    decreases n
  {
    if n == 0 then [] else [first] + From(first + 1, n - 1)
  }

  lemma {:induction false} FromConcat(first: nat, m: nat, n: nat)
    ensures From(first, m) + From(first + m, n) == From(first, m + n)
    decreases m
  {
    if m > 0 { FromConcat(first + 1, m - 1, n); }
  }

  lemma {:induction false} FromElements(first: nat, n: nat, token: nat)
    ensures |From(first, n)| == n
    ensures token in From(first, n) <==> first <= token < first + n
    decreases n
  {
    if n > 0 { FromElements(first + 1, n - 1, token); }
  }

  lemma {:induction false} CountingIsFrom(s: seq<nat>, first: nat)
    requires forall i :: 0 <= i < |s| ==> s[i] == first + i
    ensures s == From(first, |s|)
    decreases |s|
  {
    if s != [] { CountingIsFrom(s[1..], first + 1); }
  }

  function InboxTokens<A>(inbox: seq<Callback<A>>): seq<nat> {
    if inbox == [] then [] else [inbox[0].token] + InboxTokens(inbox[1..])
  }

  function QueueTokens<Q>(queue: seq<Command<Q>>): seq<nat> {
    if queue == [] then []
    else (if queue[0].Ask? then [queue[0].token] else []) + QueueTokens(queue[1..])
  }

  /** Every place a token can be, in the order in which tokens move through them. */
  function Pipeline<Q, A>(b: Box<Q, A>, hand: seq<nat>): seq<nat> {
    b.consumed + InboxTokens(b.inbox) + hand + QueueTokens(b.queue)
  }

  lemma {:induction false} InboxTokensAre<A>(inbox: seq<Callback<A>>, first: nat)
    requires forall i :: 0 <= i < |inbox| ==> inbox[i].token == first + i
    ensures InboxTokens(inbox) == From(first, |inbox|)
  {
    if inbox != [] { InboxTokensAre(inbox[1..], first + 1); }
  }

  lemma {:induction false} QueueTokensAre<Q>(queue: seq<Command<Q>>, first: nat, sends: nat)
    requires sends <= |queue| <= sends + 1
    requires forall i :: 0 <= i < sends ==> queue[i].Ask? && queue[i].token == first + i
    requires |queue| == sends + 1 ==> queue[sends].Stop?
    ensures QueueTokens(queue) == From(first, sends)
  {
    if sends > 0 {
      QueueTokensAre(queue[1..], first + 1, sends - 1);
    } else if queue != [] {
      assert queue[1..] == [];
    }
  }

  lemma AnsweredInOrder<Q, A>(b: Box<Q, A>)
    requires LoopRight(b)
    ensures b.consumed + InboxTokens(b.inbox) == From(0, |b.answers|)
  {
    CountingIsFrom(b.consumed, 0);
    InboxTokensAre(b.inbox, |b.consumed|);
    FromConcat(0, |b.consumed|, |b.inbox|);
  }

  lemma RestInOrder<Q, A>(b: Box<Q, A>, hand: seq<nat>)
    requires QueueRight(b, |b.answers| + |hand|) && |hand| <= 1 && (hand != [] ==> hand[0] == |b.answers|)
    ensures From(0, |b.answers|) + hand + QueueTokens(b.queue) == From(0, |b.futures|)
  {
    CountingIsFrom(hand, |b.answers|);
    FromConcat(0, |b.answers|, |hand|);
    QueueTokensAre(b.queue, |b.answers| + |hand|, Sends(b));
    FromConcat(0, |b.answers| + |hand|, Sends(b));
  }

  /** Each token is in exactly one place, and tokens never overtake each other. */
  lemma PipelineIsOrdered<Q, A>(b: Box<Q, A>, hand: seq<nat>)
    requires BoxInv(b, hand)
    ensures Pipeline(b, hand) == From(0, |b.futures|)
  {
    AnsweredInOrder(b);
    RestInOrder(b, hand);
  }

  /** A future is settled or cancelled once its callback ran, and never settled before. */
  lemma ConsumedMeansDone<Q, A>(b: Box<Q, A>, hand: seq<nat>, token: nat)
    requires BoxInv(b, hand) && token < |b.futures|
    ensures token in b.consumed <==> token < |b.consumed|
    ensures token in b.consumed ==> !b.futures[token].Pending?
    ensures token !in b.consumed ==> !b.futures[token].Settled?
  {
    assert token < |b.consumed| ==> b.consumed[token] == token;
  }
}
