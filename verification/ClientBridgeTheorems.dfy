/**
 What every run of the client bridge guarantees: exactly-once settlement, refinement of a
 sequential client, completeness of shutdown, and termination of the owner.
 */
module ClientBridgeTheorems {
  import opened Mailbox
  import opened ClientBridge

  // Exactly-once settlement

  /**
   In every reachable state each token is in exactly one place, tokens never overtake each
   other, and no set_result or set_exception ever met a future that was already done,
   although the guards look only at cancelled().
   */
  lemma ExactlyOnce(acts: seq<Action>)
    requires Runs(Init(), acts)
    ensures var s := Run(Init(), acts);
            && Pipeline(s.box, Hand(s.thread.owner)) == From(0, |s.box.futures|)
            && !s.box.invalidState
            && forall i :: 0 <= i < |s.box.futures| ==>
                 (i in s.box.consumed ==> !s.box.futures[i].Pending?)
                 && (i !in s.box.consumed ==> !s.box.futures[i].Settled?)
  {
    InvRun(Init(), acts);
    var s := Run(Init(), acts);
    PipelineIsOrdered(s.box, Hand(s.thread.owner));
    forall i | 0 <= i < |s.box.futures|
      ensures (i in s.box.consumed ==> !s.box.futures[i].Pending?)
              && (i !in s.box.consumed ==> !s.box.futures[i].Settled?)
    {
      ConsumedMeansDone(s.box, Hand(s.thread.owner), i);
    }
  }

  /** A callback that is due always finds its own future not yet settled. */
  lemma CallbackMeetsUnsettledFuture(acts: seq<Action>)
    requires Runs(Init(), acts) && Run(Init(), acts).box.inbox != []
    ensures TaskEnabled(Run(Init(), acts), RunCallback)
    ensures var b := Run(Init(), acts).box; !b.futures[b.inbox[0].token].Settled?
  {
    InvRun(Init(), acts);
    RunHeadKeepsBox(Run(Init(), acts).box, Hand(Run(Init(), acts).thread.owner));
  }

  /** A settled future holds the outcome of the call made with its own request, or a shutdown rejection. */
  lemma OwnResponse(acts: seq<Action>, token: nat)
    requires Runs(Init(), acts)
    requires token < |Run(Init(), acts).box.futures| && Run(Init(), acts).box.futures[token].Settled?
    ensures |Run(Init(), acts).box.asked| == |Run(Init(), acts).box.futures|
    ensures var s := Run(Init(), acts);
            if token < |s.thread.calls|
            then s.thread.calls[token] == Call(s.box.asked[token], s.box.futures[token].answer)
            else s.box.futures[token].answer == Raised(NetworkClosed) && s.thread.faulted
  {
    InvRun(Init(), acts);
  }

  /** The C client is ticked, called and closed only while it is open, so it is closed once. */
  lemma ClientUsedOnlyWhileOpen(acts: seq<Action>, next: OwnerAction)
    requires Runs(Init(), acts) && OwnerEnabled(Run(Init(), acts), next)
    requires next.OwnerTick? || next.OwnerCall? || next.OwnerClose?
    ensures Run(Init(), acts).thread.clientOpen
  {
    InvRun(Init(), acts);
  }

  // Refinement of a plain sequential client

  /**
   A program with no threads: it calls client.send once for each submission in order, may
   give up and refuse the rest, and delivers the answers in that same order.
   */
  datatype Sequential = Sequential(
    submitted: seq<Request>,
    calls: seq<Call>,
    refused: nat,
    delivered: nat,
    futures: seq<Future<Outcome>>)

  datatype SequentialStep = Stutter | Submits(request: Request) | Serves(outcome: Outcome) | Refuses | Delivers
    | Abandons(token: nat)

  function Answer(q: Sequential, token: nat): Outcome {
    if token < |q.calls| then q.calls[token].outcome else Raised(NetworkClosed)
  }

  predicate MayStep(q: Sequential, step: SequentialStep) {
    match step
    case Stutter => true
    case Submits(_) => true
    case Serves(_) => q.refused == 0 && |q.calls| < |q.submitted|
    case Refuses => |q.calls| + q.refused < |q.submitted|
    case Delivers => q.delivered < |q.calls| + q.refused && q.delivered < |q.futures|
                     && !q.futures[q.delivered].Settled?
    case Abandons(token) => token < |q.futures|
  }

  function Advance(q: Sequential, step: SequentialStep): Sequential
    requires MayStep(q, step)
  {
    match step
    case Stutter => q
    case Submits(request) => q.(submitted := q.submitted + [request], futures := q.futures + [Pending])
    case Serves(outcome) => q.(calls := q.calls + [Call(q.submitted[|q.calls|], outcome)])
    case Refuses => q.(refused := q.refused + 1)
    case Delivers =>
      var f := q.futures[q.delivered];
      q.(delivered := q.delivered + 1,
         futures := q.futures[q.delivered := if f.Cancelled? then f else Settled(Answer(q, q.delivered))])
    case Abandons(token) =>
      q.(futures := q.futures[token := if q.futures[token].Pending? then Cancelled else q.futures[token]])
  }

  predicate MayRun(q: Sequential, steps: seq<SequentialStep>)
    decreases |steps|
  {
    steps == [] || (MayStep(q, steps[0]) && MayRun(Advance(q, steps[0]), steps[1..]))
  }

  function AdvanceAll(q: Sequential, steps: seq<SequentialStep>): Sequential
    requires MayRun(q, steps)
    decreases |steps|
  {
    if steps == [] then q else AdvanceAll(Advance(q, steps[0]), steps[1..])
  }

  /** The sequential client a bridge state stands for. */
  function Abstract(s: State): Sequential {
    Sequential(s.box.asked, s.thread.calls,
               if |s.box.answers| >= |s.thread.calls| then |s.box.answers| - |s.thread.calls| else 0,
               |s.box.consumed|, s.box.futures)
  }

  function StepImage(s: State, a: Action): SequentialStep {
    match a
    case Task(task) =>
      (match task
       case CallSend(request) => if s.closed then Stutter else Submits(request)
       case CallClose => Stutter
       case Cancel(token) => Abandons(token)
       case RunCallback => Delivers)
    case Own(own) =>
      (match own
       case OwnerCall(outcome) => Serves(outcome)
       case DrainPost => Refuses
       case _ => Stutter)
  }

  function RunImage(s: State, acts: seq<Action>): seq<SequentialStep>
    requires Runs(s, acts)
    decreases |acts|
  {
    if acts == [] then [] else [StepImage(s, acts[0])] + RunImage(Apply(s, acts[0]), acts[1..])
  }

  lemma DeliveryRefines(s: State)
    requires Inv(s) && TaskEnabled(s, RunCallback)
    ensures MayStep(Abstract(s), Delivers)
    ensures Abstract(TaskStep(s, RunCallback)) == Advance(Abstract(s), Delivers)
  {
    var i := |s.box.consumed|;
    assert s.box.inbox[0] == Callback(i, s.box.answers[i]);
    assert s.box.answers[i] == Owed(s.thread.calls, i);
  }

  lemma TaskRefines(s: State, a: TaskAction)
    requires Inv(s) && TaskEnabled(s, a)
    ensures MayStep(Abstract(s), StepImage(s, Task(a)))
    ensures Abstract(TaskStep(s, a)) == Advance(Abstract(s), StepImage(s, Task(a)))
  {
    if a.RunCallback? { DeliveryRefines(s); }
  }

  lemma AnsweringRefines(s: State, a: OwnerAction)
    requires Inv(s) && OwnerEnabled(s, a) && (a.OwnerCall? || a.DrainPost?)
    ensures MayStep(Abstract(s), StepImage(s, Own(a)))
    ensures Abstract(OwnerStep(s, a)) == Advance(Abstract(s), StepImage(s, Own(a)))
  {
  }

  lemma OtherwiseStutters(s: State, a: OwnerAction)
    requires Inv(s) && OwnerEnabled(s, a) && !a.OwnerCall? && !a.DrainPost?
    ensures StepImage(s, Own(a)) == Stutter && Abstract(OwnerStep(s, a)) == Abstract(s)
  {
    var t := OwnerStep(s, a);
    assert t.box.asked == s.box.asked && t.box.futures == s.box.futures && t.box.consumed == s.box.consumed;
    assert t.thread.calls == s.thread.calls;
  }

  lemma StepRefines(s: State, a: Action)
    requires Inv(s) && Enabled(s, a)
    ensures MayStep(Abstract(s), StepImage(s, a))
    ensures Abstract(Apply(s, a)) == Advance(Abstract(s), StepImage(s, a))
  {
    match a
    case Task(task) => TaskRefines(s, task);
    case Own(own) => if own.OwnerCall? || own.DrainPost? { AnsweringRefines(s, own); } else { OtherwiseStutters(s, own); }
  }

  lemma {:induction false} RunRefines(s: State, acts: seq<Action>)
    requires Inv(s) && Runs(s, acts)
    ensures MayRun(Abstract(s), RunImage(s, acts))
    ensures AdvanceAll(Abstract(s), RunImage(s, acts)) == Abstract(Run(s, acts))
    decreases |acts|
  {
    if acts != [] {
      StepRefines(s, acts[0]);
      InvKept(s, acts[0]);
      RunRefines(Apply(s, acts[0]), acts[1..]);
      assert RunImage(s, acts)[1..] == RunImage(Apply(s, acts[0]), acts[1..]);
    }
  }

  /** Every run of the bridge is a run of the sequential client. */
  lemma RefinesSequentialClient(acts: seq<Action>)
    requires Runs(Init(), acts)
    ensures MayRun(Sequential([], [], 0, 0, []), RunImage(Init(), acts))
    ensures AdvanceAll(Sequential([], [], 0, 0, []), RunImage(Init(), acts)) == Abstract(Run(Init(), acts))
  {
    RunRefines(Init(), acts);
  }

  // What ends the service loop

  /** Some commands.get of the run takes the stop mark. */
  predicate StopTaken(s: State, acts: seq<Action>)
    requires Runs(s, acts)
    decreases |acts|
  {
    acts != [] &&
    ((acts[0] == Own(OwnerGet) && s.box.queue != [] && s.box.queue[0].Stop?) || StopTaken(Apply(s, acts[0]), acts[1..]))
  }

  lemma {:induction false} FaultedSince(s: State, acts: seq<Action>)
    requires Runs(s, acts)
    ensures Run(s, acts).thread.faulted <==> s.thread.faulted || Own(OwnerTick(false)) in acts
    decreases |acts|
  {
    if acts != [] {
      FaultedSince(Apply(s, acts[0]), acts[1..]);
      assert acts == [acts[0]] + acts[1..];
    }
  }

  /** The owner has left its loop by exception exactly when some idle tick raised. */
  lemma FaultedIff(acts: seq<Action>)
    requires Runs(Init(), acts)
    ensures Run(Init(), acts).thread.faulted <==> Own(OwnerTick(false)) in acts
  {
    FaultedSince(Init(), acts);
  }

  lemma {:induction false} NeverBack(s: State, acts: seq<Action>)
    requires Runs(s, acts) && !InLoop(s.thread.owner)
    ensures !InLoop(Run(s, acts).thread.owner)
    decreases |acts|
  {
    if acts != [] { NeverBack(Apply(s, acts[0]), acts[1..]); }
  }

  /**
   The owner leaves its loop exactly by taking the stop mark or by an idle tick that raises; an
   idle tick that returns, an answered or a failed send all let it go on.
   */
  lemma {:induction false} LoopLeftIff(s: State, acts: seq<Action>)
    requires Runs(s, acts) && InLoop(s.thread.owner)
    ensures !InLoop(Run(s, acts).thread.owner) <==> StopTaken(s, acts) || Own(OwnerTick(false)) in acts
    decreases |acts|
  {
    if acts != [] {
      var t := Apply(s, acts[0]);
      assert acts == [acts[0]] + acts[1..];
      if InLoop(t.thread.owner) { LoopLeftIff(t, acts[1..]); } else { NeverBack(t, acts[1..]); }
    }
  }

  /** The client is closed to new sends exactly since the first aclose. */
  lemma {:induction false} ClosedIff(s: State, acts: seq<Action>)
    requires Runs(s, acts)
    ensures Run(s, acts).closed <==> s.closed || Task(CallClose) in acts
    decreases |acts|
  {
    if acts != [] {
      ClosedIff(Apply(s, acts[0]), acts[1..]);
      assert acts == [acts[0]] + acts[1..];
    }
  }

  function Timeouts(acts: seq<Action>): nat {
    if acts == [] then 0 else (if acts[0] == Own(OwnerTimeout) then 1 else 0) + Timeouts(acts[1..])
  }

  function Ticks(acts: seq<Action>): nat {
    if acts == [] then 0 else (if acts[0].Own? && acts[0].own.OwnerTick? then 1 else 0) + Ticks(acts[1..])
  }

  function TickDue(o: Owner): nat {
    if o.Idle? then 1 else 0
  }

  /** Every timeout of commands.get is followed by one tick of the client, which keeps it alive. */
  lemma {:induction false} TickPerTimeout(s: State, acts: seq<Action>)
    requires Runs(s, acts)
    ensures TickDue(s.thread.owner) + Timeouts(acts) == Ticks(acts) + TickDue(Run(s, acts).thread.owner)
    decreases |acts|
  {
    if acts != [] { TickPerTimeout(Apply(s, acts[0]), acts[1..]); }
  }

  // Shutdown

  /** _STOP is queued at most once, and nothing is ever queued behind it. */
  lemma StopIsLast(acts: seq<Action>, i: nat)
    requires Runs(Init(), acts)
    requires var q := Run(Init(), acts).box.queue; i < |q| && q[i].Stop?
    ensures i == |Run(Init(), acts).box.queue| - 1 && Run(Init(), acts).closed
  {
    InvRun(Init(), acts);
    var b := Run(Init(), acts).box;
    assert forall k :: 0 <= k < Sends(b) ==> b.queue[k].Ask?;
  }

  /** After a _STOP exit every accepted send has really been executed, and the drain finds nothing. */
  lemma StopExitServesAll(acts: seq<Action>)
    requires Runs(Init(), acts)
    requires var h := Run(Init(), acts).thread; !InLoop(h.owner) && !h.faulted
    ensures var s := Run(Init(), acts);
            && s.box.queue == [] && !s.thread.owner.Rejecting?
            && |s.thread.calls| == |s.box.futures| == |s.box.consumed| + |s.box.inbox|
            && forall i :: 0 <= i < |s.box.consumed| ==>
                 s.box.futures[i] == Cancelled || s.box.futures[i] == Settled(s.thread.calls[i].outcome)
  {
    InvRun(Init(), acts);
  }

  /** Has the owner's drain already seen its queue empty? */
  predicate PastDrain(s: State) {
    s.thread.owner.Closing? || s.thread.owner.Finished?
  }

  /**
   Fault or stop, the step that ends the drain leaves no send behind: every future created up
   to then is answered, by its call's outcome or by NetworkClosed, while the client is open.
   */
  lemma DrainAnswersAll(s: State)
    requires Inv(s) && OwnerEnabled(s, DrainEmpty)
    ensures var t := OwnerStep(s, DrainEmpty);
            && |t.box.answers| == |t.box.futures| && t.thread.clientOpen
            && forall i :: 0 <= i < |t.box.answers| ==>
                 t.box.answers[i] == if i < |t.thread.calls| then t.thread.calls[i].outcome else Raised(NetworkClosed)
  {
  }

  lemma PastDrainStep(s: State, a: Action)
    requires PastDrain(s) && Enabled(s, a)
    ensures PastDrain(Apply(s, a)) && Apply(s, a).box.answers == s.box.answers
  {
  }

  /** Once the drain has seen the queue empty, no further token is ever answered. */
  lemma {:induction false} AnswersFrozen(s: State, acts: seq<Action>)
    requires PastDrain(s) && Runs(s, acts)
    ensures PastDrain(Run(s, acts)) && Run(s, acts).box.answers == s.box.answers
    decreases |acts|
  {
    if acts != [] {
      PastDrainStep(s, acts[0]);
      AnswersFrozen(Apply(s, acts[0]), acts[1..]);
    }
  }

  lemma TokensPersistStep(s: State, a: Action)
    requires Enabled(s, a)
    ensures s.box.asked <= Apply(s, a).box.asked && |s.box.futures| <= |Apply(s, a).box.futures|
  {
  }

  lemma {:induction false} TokensPersist(s: State, acts: seq<Action>)
    requires Runs(s, acts)
    ensures s.box.asked <= Run(s, acts).box.asked && |s.box.futures| <= |Run(s, acts).box.futures|
    decreases |acts|
  {
    if acts != [] {
      TokensPersistStep(s, acts[0]);
      TokensPersist(Apply(s, acts[0]), acts[1..]);
    }
  }

  /**
   When the drain ends in s, and later the loop has run every callback, the futures that are
   still unsettled and uncancelled are exactly the uncancelled ones created after the drain.
   */
  lemma UnsettledAfterDrain(s: State, acts: seq<Action>)
    requires Inv(s) && OwnerEnabled(s, DrainEmpty)
    requires Runs(OwnerStep(s, DrainEmpty), acts) && Run(OwnerStep(s, DrainEmpty), acts).box.inbox == []
    ensures var t := Run(OwnerStep(s, DrainEmpty), acts);
            && |s.box.futures| <= |t.box.futures|
            && forall i :: 0 <= i < |t.box.futures| && !t.box.futures[i].Cancelled? ==>
                 (t.box.futures[i].Pending? <==> |s.box.futures| <= i)
  {
    var d := OwnerStep(s, DrainEmpty);
    OwnerKeepsInv(s, DrainEmpty);
    InvRun(d, acts);
    AnswersFrozen(d, acts);
  }

  lemma DrainEndsWithAllAnswered(s: State, a: Action)
    requires Inv(s) && Enabled(s, a) && !PastDrain(s) && PastDrain(Apply(s, a))
    ensures |Apply(s, a).box.answers| == |s.box.futures|
  {
    assert a == Own(DrainEmpty);
  }

  lemma {:induction false} AnsweredBeforeDrainEnds(s: State, token: nat, acts: seq<Action>)
    requires Inv(s) && Runs(s, acts) && !PastDrain(s) && token < |s.box.futures|
    requires PastDrain(Run(s, acts))
    ensures token < |Run(s, acts).box.answers|
    decreases |acts|
  {
    var t := Apply(s, acts[0]);
    if PastDrain(t) {
      DrainEndsWithAllAnswered(s, acts[0]);
      AnswersFrozen(t, acts[1..]);
    } else {
      InvKept(s, acts[0]);
      TokensPersistStep(s, acts[0]);
      AnsweredBeforeDrainEnds(t, token, acts[1..]);
    }
  }

  /**
   The promise "each accepted send is settled", with its exact limit.  Let a send be accepted in
   s and let the owner later be finished with every callback run.  Unless its future was
   cancelled, it is settled if and only if the owner was not past its drain when it was accepted.
   */
  lemma SendSettlesIff(s: State, request: Request, acts: seq<Action>)
    requires Inv(s) && !s.closed
    requires Runs(TaskStep(s, CallSend(request)), acts)
    requires var t := Run(TaskStep(s, CallSend(request)), acts); t.thread.owner.Finished? && t.box.inbox == []
    ensures var t := Run(TaskStep(s, CallSend(request)), acts);
            && |s.box.futures| < |t.box.futures| == |t.box.asked|
            && t.box.asked[|s.box.futures|] == request
            && (t.box.futures[|s.box.futures|].Cancelled? ||
                (t.box.futures[|s.box.futures|].Settled? <==> !PastDrain(s)))
  {
    var u := TaskStep(s, CallSend(request));
    TaskKeepsInv(s, CallSend(request));
    InvRun(u, acts);
    TokensPersist(u, acts);
    assert u.box.asked[|s.box.futures|] == request;
    if PastDrain(s) {
      AnswersFrozen(u, acts);
    } else {
      AnsweredBeforeDrainEnds(u, |s.box.futures|, acts);
    }
  }

  lemma RunCons(s: State, a: Action, rest: seq<Action>)
    requires Enabled(s, a) && Runs(Apply(s, a), rest)
    ensures Runs(s, [a] + rest) && Run(s, [a] + rest) == Run(Apply(s, a), rest)
  {
    assert ([a] + rest)[1..] == rest;
  }

  /** A client whose idle tick raised before anything was sent. */
  function Faulted(): State {
    Init().(thread := Thread(Finished, false, true, []))
  }

  lemma FaultedReachable() returns (acts: seq<Action>)
    ensures Runs(Init(), acts) && Run(Init(), acts) == Faulted()
  {
    var s1 := OwnerStep(Init(), OwnerTimeout);
    var s2 := OwnerStep(s1, OwnerTick(false));
    var s3 := OwnerStep(s2, DrainEmpty);
    RunCons(s3, Own(OwnerClose), []);
    RunCons(s2, Own(DrainEmpty), [Own(OwnerClose)]);
    RunCons(s1, Own(OwnerTick(false)), [Own(DrainEmpty)] + [Own(OwnerClose)]);
    acts := [Own(OwnerTick(false))] + ([Own(DrainEmpty)] + [Own(OwnerClose)]);
    RunCons(Init(), Own(OwnerTimeout), acts);
    acts := [Own(OwnerTimeout)] + acts;
  }

  /**
   The unqualified promise fails: a faulted owner leaves _closed unset, so a send is still
   accepted, and no continuation of the run ever settles it.
   */
  lemma StrandedSend(request: Request, more: seq<Action>)
    returns (acts: seq<Action>)
    requires Runs(TaskStep(Faulted(), CallSend(request)), more)
    ensures Runs(Init(), acts) && Run(Init(), acts) == Faulted() && !Faulted().closed
    ensures var b := Run(TaskStep(Faulted(), CallSend(request)), more).box;
            b.asked != [] && b.asked[0] == request && b.futures != [] && !b.futures[0].Settled?
  {
    acts := FaultedReachable();
    InvRun(Init(), acts);
    var u := TaskStep(Faulted(), CallSend(request));
    TaskKeepsInv(Faulted(), CallSend(request));
    InvRun(u, more);
    AnswersFrozen(u, more);
    TokensPersist(u, more);
    assert u.box.asked[0] == request;
  }

  // Termination of the owner

  function OwnerRank(o: Owner): nat {
    match o
    case Serving(_, _) => 8
    case Idle => 7
    case Posting(_) => 7
    case Waiting => 6
    case Rejecting(_) => 3
    case Draining => 2
    case Closing => 1
    case Finished => 0
  }

  /** Lexicographic in phase, items ahead of _STOP and sub-step, folded into one number. */
  function Measure(s: State): nat {
    4 * |s.box.queue| + OwnerRank(s.thread.owner)
  }

  lemma MeasureStep(s: State, a: Action)
    requires Inv(s) && s.closed && Enabled(s, a)
    ensures Apply(s, a).closed
    ensures if a.Own? then Measure(Apply(s, a)) < Measure(s) else Measure(Apply(s, a)) == Measure(s)
  {
  }

  function OwnerSteps(acts: seq<Action>): nat {
    if acts == [] then 0 else (if acts[0].Own? then 1 else 0) + OwnerSteps(acts[1..])
  }

  /** After aclose the owner takes only boundedly many more steps, whatever else is interleaved. */
  lemma {:induction false} OwnerTerminates(s: State, acts: seq<Action>)
    requires Inv(s) && s.closed && Runs(s, acts)
    ensures OwnerSteps(acts) + Measure(Run(s, acts)) <= Measure(s)
    decreases |acts|
  {
    if acts != [] {
      MeasureStep(s, acts[0]);
      InvKept(s, acts[0]);
      OwnerTerminates(Apply(s, acts[0]), acts[1..]);
    }
  }

  /** And it is never stuck on the way, nor idles again: until it is finished a step of its own is possible. */
  lemma OwnerNeverStuck(s: State) returns (a: OwnerAction)
    requires Inv(s) && !s.thread.owner.Finished?
    ensures OwnerEnabled(s, a)
    ensures s.closed ==> !OwnerEnabled(s, OwnerTimeout)
  {
    match s.thread.owner
    case Waiting => a := if s.box.queue == [] then OwnerTimeout else OwnerGet;
    case Idle => a := OwnerTick(true);
    case Serving(_, _) => a := OwnerCall(CLOSING_ERROR);
    case Posting(_) => a := OwnerPost;
    case Rejecting(_) => a := DrainPost;
    case Draining => a := if s.box.queue == [] then DrainEmpty else DrainGet;
    case Closing => a := OwnerClose;
  }
}
