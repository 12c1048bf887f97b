/** What every run of the managed server's owner guarantees, and where its promises end. */
module ServerBridgeTheorems {
  import opened Mailbox
  import opened ServerBridge
  import Announce

  ghost predicate Reachable(c: Config, s: State) {
    exists acts :: Runs(c, Init(), acts) && Run(c, Init(), acts) == s
  }

  lemma InitThread(c: Config)
    ensures ThreadRight(c, Init().thread, [], [])
  {
    var h := Init().thread;
    assert ClosesBy(c, h.owner) == [] && h.ops[0..] == [];
    assert OpsRight(c, h.owner, h.ops);
    assert Announce.Times([]) == [] && Announce.Last([]) == 0;
    assert TimerRight(c, h.owner, h.timer);
  }

  lemma InitInv(c: Config)
    ensures Inv(c, Init())
  {
    EmptyBoxIsRight<Query, Answer>();
    InitThread(c);
    assert Init().box == EmptyBox() && Hand(Init().thread.owner) == [];
  }

  lemma ReachableInv(c: Config, s: State)
    requires Reachable(c, s)
    ensures Inv(c, s)
  {
    var acts :| Runs(c, Init(), acts) && Run(c, Init(), acts) == s;
    InitInv(c);
    InvRun(c, Init(), acts);
  }

  lemma ReachableAnswers(c: Config, s: State)
    requires Reachable(c, s)
    ensures AnswersRight(s.thread)
  {
    var acts :| Runs(c, Init(), acts) && Run(c, Init(), acts) == s;
    AnswersRun(c, Init(), acts);
  }

  // Commands

  /**
   Each resolve or metrics command is in exactly one place and gets at most one callback, none
   of which ever meets a future already done.
   */
  lemma CommandsConserved(c: Config, s: State)
    requires Reachable(c, s)
    ensures Pipeline(s.box, Hand(s.thread.owner)) == From(0, |s.box.futures|)
    ensures !s.box.invalidState
  {
    ReachableInv(c, s);
    PipelineIsOrdered(s.box, Hand(s.thread.owner));
  }

  /** A settled future holds what the owner found for its own query, by the calls it made for it. */
  lemma OwnAnswer(c: Config, s: State, token: nat)
    requires Reachable(c, s) && token < |s.box.futures| && s.box.futures[token].Settled?
    ensures token < |s.thread.served| && token < |s.box.asked|
    ensures var one := s.thread.served[token];
            && one.query == s.box.asked[token] && one.answer == s.box.futures[token].answer
            && Answers(one.query, one.calls, one.answer)
  {
    ReachableInv(c, s);
    ReachableAnswers(c, s);
  }

  /**
   What a resolve's answer means: an address exactly when one of its lookups, all for its own
   target, found it; an exception exactly when one of its calls raised it; else it timed out after
   starting a lookup.
   */
  lemma ResolveMeans(target: nat, timeout: int, calls: seq<Op>, answer: Answer)
    requires Answers(Resolve(target, timeout), calls, answer)
    ensures forall k :: 0 <= k < |calls| ==> (calls[k].LookedUp? || calls[k].StartedLookup? ==> calls[k].target == target)
    ensures forall a :: answer == Address(a) <==> exists k :: 0 <= k < |calls| && calls[k] == LookedUp(target, Hit(a))
    ensures answer.Raised? <==> exists k :: 0 <= k < |calls| && Throws(calls[k])
    ensures answer.NotFound? ==> |calls| >= 2 && calls[1] == StartedLookup(target, Returned)
    ensures !answer.Snapshot?
  {
    var last := calls[|calls| - 1];
    assert forall k :: 0 <= k < |calls| ==> Scheduled(target, k, calls[k]);
    if Finds(last) {
      assert last == LookedUp(target, Hit(last.lookup.address));
    }
    if answer.NotFound? {
      assert Scheduled(target, 1, calls[1]) && !Throws(calls[1]);
    }
  }

  lemma QueuedAreTheRest(b: Mail, hand: seq<nat>, token: nat)
    requires BoxInv(b, hand) && token < |b.futures|
    ensures token in QueueTokens(b.queue) <==> |b.answers| + |hand| <= token
  {
    QueueTokensAre(b.queue, |b.answers| + |hand|, Sends(b));
    FromElements(|b.answers| + |hand|, Sends(b), token);
  }

  /**
   When the owner has finished and the loop has run every callback, the futures neither settled
   nor cancelled are exactly those whose commands are still in the queue.
   */
  lemma UnsettledAreQueued(c: Config, s: State, token: nat)
    requires Reachable(c, s) && s.thread.owner.Finished? && s.box.inbox == []
    requires token < |s.box.futures| && !s.box.futures[token].Cancelled?
    ensures s.box.futures[token].Pending? <==> token in QueueTokens(s.box.queue)
  {
    ReachableInv(c, s);
    QueuedAreTheRest(s.box, [], token);
  }

  lemma LeavingStep(c: Config, s: State, a: Action)
    requires Enabled(s, a) && Leaving(s.thread.owner)
    ensures var t := Apply(c, s, a); Leaving(t.thread.owner) && t.box.answers == s.box.answers
  {
  }

  /** The owner does not drain: from the moment it leaves its loop, no command is answered. */
  lemma {:induction false} NoAnswerAfterLeaving(c: Config, s: State, acts: seq<Action>)
    requires Runs(c, s, acts) && Leaving(s.thread.owner)
    ensures var t := Run(c, s, acts); Leaving(t.thread.owner) && t.box.answers == s.box.answers
    decreases |acts|
  {
    if acts != [] {
      LeavingStep(c, s, acts[0]);
      NoAnswerAfterLeaving(c, Apply(c, s, acts[0]), acts[1..]);
    }
  }

  /**
   So a command is settled, unless cancelled, if and only if the owner had answered it by the
   time it left its loop; asking earlier than shutdown is not enough.
   */
  lemma SettledIffAnsweredBeforeLeaving(c: Config, s: State, acts: seq<Action>, token: nat)
    requires Inv(c, s) && Leaving(s.thread.owner) && Runs(c, s, acts)
    requires var t := Run(c, s, acts); t.box.inbox == [] && token < |t.box.futures| && !t.box.futures[token].Cancelled?
    ensures Run(c, s, acts).box.futures[token].Settled? <==> token < |s.box.answers|
  {
    InvRun(c, s, acts);
    NoAnswerAfterLeaving(c, s, acts);
  }

  /** The owner is in the part of its loop that serves commands until it sees the queue empty. */
  predicate InService(o: Owner) {
    o.Servicing? || o.Handling? || o.Posting?
  }

  /** Some stop check of the run finds stop unset, so another pass over the commands begins. */
  predicate PassBegins(c: Config, s: State, acts: seq<Action>)
    requires Runs(c, s, acts)
    decreases |acts|
  {
    acts != [] && ((acts[0] == Own(CheckStop) && !s.stop) || PassBegins(c, Apply(c, s, acts[0]), acts[1..]))
  }

  lemma {:induction false} AnswersStay(c: Config, s: State, acts: seq<Action>)
    requires Runs(c, s, acts)
    ensures |s.box.answers| <= |Run(c, s, acts).box.answers| && |s.box.futures| <= |Run(c, s, acts).box.futures|
    ensures s.box.asked <= Run(c, s, acts).box.asked
    decreases |acts|
  {
    if acts != [] {
      AnswersStayStep(c, s, acts[0]);
      AnswersStay(c, Apply(c, s, acts[0]), acts[1..]);
    }
  }

  lemma AnswersStayStep(c: Config, s: State, a: Action)
    requires Enabled(s, a)
    ensures var t := Apply(c, s, a);
            |s.box.answers| <= |t.box.answers| && |s.box.futures| <= |t.box.futures| && s.box.asked <= t.box.asked
    ensures !InService(s.thread.owner) ==> Apply(c, s, a).box.answers == s.box.answers
    ensures InService(Apply(c, s, a).thread.owner) ==> InService(s.thread.owner) || (a == Own(CheckStop) && !s.stop)
    ensures a == Own(CheckStop) && !s.stop ==> InService(Apply(c, s, a).thread.owner)
  {
  }

  /** Serving ends only on an empty queue, with every command so far answered. */
  lemma ServiceEndsAnswered(c: Config, s: State, a: Action)
    requires Inv(c, s) && Enabled(s, a) && InService(s.thread.owner) && !InService(Apply(c, s, a).thread.owner)
    ensures |Apply(c, s, a).box.answers| == |s.box.futures|
  {
    assert a == Own(NoCommand);
  }

  lemma {:induction false} AnsweredIff(c: Config, s: State, acts: seq<Action>, token: nat)
    requires Inv(c, s) && Runs(c, s, acts) && Run(c, s, acts).thread.owner.Finished?
    requires |s.box.answers| <= token < |s.box.futures|
    ensures token < |Run(c, s, acts).box.answers| <==> InService(s.thread.owner) || PassBegins(c, s, acts)
    decreases |acts|
  {
    if acts != [] {
      var a, t := acts[0], Apply(c, s, acts[0]);
      AnswersStayStep(c, s, a);
      InvKept(c, s, a);
      if InService(s.thread.owner) && !InService(t.thread.owner) {
        ServiceEndsAnswered(c, s, a);
      }
      if token < |t.box.answers| {
        AnswersStay(c, t, acts[1..]);
      } else {
        AnsweredIff(c, t, acts[1..], token);
      }
    }
  }

  /**
   The promise "each resolve is answered", with its exact limit.  Let a command be accepted in s,
   and let the owner later be finished with every callback run.  Unless its future was cancelled,
   it is settled if and only if the owner was serving commands when it was accepted, or one of its
   later stop checks still found stop unset.
   */
  lemma CommandSettlesIff(c: Config, s: State, query: Query, acts: seq<Action>)
    requires Reachable(c, s) && c.hasDht
    requires Runs(c, TaskStep(c, s, Call(query)), acts)
    requires var t := Run(c, TaskStep(c, s, Call(query)), acts); t.thread.owner.Finished? && t.box.inbox == []
    ensures var t := Run(c, TaskStep(c, s, Call(query)), acts);
            && |s.box.futures| < |t.box.futures| == |t.box.asked|
            && t.box.asked[|s.box.futures|] == query
            && (t.box.futures[|s.box.futures|].Cancelled? ||
                (t.box.futures[|s.box.futures|].Settled? <==>
                   InService(s.thread.owner) || PassBegins(c, TaskStep(c, s, Call(query)), acts)))
  {
    ReachableInv(c, s);
    var u := TaskStep(c, s, Call(query));
    TaskKeepsInv(c, s, Call(query));
    AnswersStay(c, u, acts);
    assert u.box.asked[|s.box.futures|] == query;
    InvRun(c, u, acts);
    AnsweredIff(c, u, acts, |s.box.futures|);
  }

  // What ends the loop, and what it does meanwhile

  /** A tick or an announce of the loop itself raises. */
  predicate LoopRaises(a: Action) {
    a.Own? && ((a.own.TickServer? && a.own.r.Failed?) || (a.own.TickDht? && a.own.r.Failed?) || (a.own.DoAnnounce? && a.own.r.Failed?))
  }

  predicate SomeLoopRaises(acts: seq<Action>) {
    acts != [] && (LoopRaises(acts[0]) || SomeLoopRaises(acts[1..]))
  }

  /** Some stop check of the run finds stop set. */
  predicate StopSeen(c: Config, s: State, acts: seq<Action>)
    requires Runs(c, s, acts)
    decreases |acts|
  {
    acts != [] && ((acts[0] == Own(CheckStop) && s.stop) || StopSeen(c, Apply(c, s, acts[0]), acts[1..]))
  }

  /**
   The owner leaves its loop exactly at a stop check that finds stop set or by a raise of the loop's
   own ticks and announces; what a command raises is only that command's answer.
   */
  lemma {:induction false} LoopLeftIff(c: Config, s: State, acts: seq<Action>)
    requires Runs(c, s, acts)
    ensures Leaving(Run(c, s, acts).thread.owner) <==> Leaving(s.thread.owner) || StopSeen(c, s, acts) || SomeLoopRaises(acts)
    ensures Run(c, s, acts).thread.faulted <==> s.thread.faulted || SomeLoopRaises(acts)
    decreases |acts|
  {
    if acts != [] { LoopLeftIff(c, Apply(c, s, acts[0]), acts[1..]); }
  }

  /** stop is set exactly by shutdown. */
  lemma {:induction false} StopIff(c: Config, s: State, acts: seq<Action>)
    requires Runs(c, s, acts)
    ensures Run(c, s, acts).stop <==> s.stop || Task(Shutdown) in acts
    decreases |acts|
  {
    if acts != [] {
      StopIff(c, Apply(c, s, acts[0]), acts[1..]);
      assert acts == [acts[0]] + acts[1..];
    }
  }

  /** The calls of the loop itself, without those of the commands. */
  function LoopCalls(acts: seq<Action>): seq<OwnerAction> {
    if acts == [] then []
    else
      var rest := LoopCalls(acts[1..]);
      if !acts[0].Own? then rest
      else match acts[0].own
        case CheckStop => [acts[0].own] + rest
        case NoCommand => [acts[0].own] + rest
        case TickServer(_) => [acts[0].own] + rest
        case TickDht(_, _) => [acts[0].own] + rest
        case DoAnnounce(_) => [acts[0].own] + rest
        case Wait => [acts[0].own] + rest
        case _ => rest
  }

  /** One round of the loop: check, serve until empty, tick the server, then the dht if there is one, wait. */
  predicate Follows(c: Config, a: OwnerAction, b: OwnerAction) {
    match a
    case CheckStop => b.NoCommand?
    case NoCommand => b.TickServer?
    case TickServer(_) => if c.hasDht then b.TickDht? else b.Wait?
    case TickDht(_, _) => b.DoAnnounce? || b.Wait?
    case DoAnnounce(_) => b.Wait?
    case Wait => b.CheckStop?
    case _ => false
  }

  predicate MayComeNext(c: Config, o: Owner, b: OwnerAction) {
    match o
    case Checking => b.CheckStop?
    case Servicing => b.NoCommand?
    case Handling(_, _, _) => b.NoCommand?
    case Posting(_) => b.NoCommand?
    case Ticking => b.TickServer?
    case TickingDht => b.TickDht?
    case Announcing(_) => b.DoAnnounce?
    case Waiting => b.Wait?
    case _ => false
  }

  /** The loop goes round in its one order: no tick, check or wait is ever skipped or repeated. */
  lemma {:induction false} RoundInOrder(c: Config, s: State, acts: seq<Action>)
    requires Runs(c, s, acts)
    ensures LoopCalls(acts) != [] ==> MayComeNext(c, s.thread.owner, LoopCalls(acts)[0])
    ensures forall i :: 0 <= i < |LoopCalls(acts)| - 1 ==> Follows(c, LoopCalls(acts)[i], LoopCalls(acts)[i + 1])
    decreases |acts|
  {
    if acts != [] {
      var rest := LoopCalls(acts[1..]);
      RoundInOrder(c, Apply(c, s, acts[0]), acts[1..]);
      RoundStep(c, s, acts[0], rest);
    }
  }

  lemma RoundStep(c: Config, s: State, a: Action, rest: seq<OwnerAction>)
    requires Enabled(s, a)
    requires rest != [] ==> MayComeNext(c, Apply(c, s, a).thread.owner, rest[0])
    ensures a.Own? && MayComeNext(c, s.thread.owner, a.own) && rest != [] ==> Follows(c, a.own, rest[0])
    ensures a.Task? && rest != [] ==> MayComeNext(c, s.thread.owner, rest[0])
    ensures a.Own? && (a.own.Take? || a.own.Pump? || a.own.Answering? || a.own.PostAnswer?) && rest != [] ==>
              MayComeNext(c, s.thread.owner, rest[0])
    ensures a.Own? && (a.own.CheckStop? || a.own.NoCommand? || a.own.TickServer? || a.own.TickDht? || a.own.DoAnnounce? || a.own.Wait?) ==>
              MayComeNext(c, s.thread.owner, a.own)
    ensures a.Own? && (a.own.DoCloseDht? || a.own.DoCloseServer?) ==> rest == []
  {
  }

  /** The clock readings of the loop: one per tick of the dht that returned. */
  function Readings(acts: seq<Action>): seq<int> {
    if acts == [] then [] else ReadingOf(acts[0]) + Readings(acts[1..])
  }

  function ReadingOf(a: Action): seq<int> {
    if a.Own? && a.own.TickDht? && a.own.r.Returned? then [a.own.now] else []
  }

  /** The readings recorded, with the one an announce is still due for. */
  function Recorded(h: Thread): seq<int> {
    h.timer.readings + if h.owner.Announcing? then [h.owner.now] else []
  }

  function AnnouncedAt(ops: seq<Op>): seq<int> {
    if ops == [] then []
    else
      var n := |ops| - 1;
      AnnouncedAt(ops[..n]) + if ops[n].Announce? then [ops[n].now] else []
  }

  lemma ReadingStep(c: Config, s: State, a: Action)
    requires Enabled(s, a)
    ensures Recorded(Apply(c, s, a).thread) == Recorded(s.thread) + ReadingOf(a)
  {
  }

  lemma Regroup(x: seq<int>, y: seq<int>, z: seq<int>)
    ensures (x + y) + z == x + (y + z)
    ensures x + [] == x
  {
  }

  /** The timer sees every reading. */
  lemma {:induction false} TimerSeesAll(c: Config, s: State, acts: seq<Action>)
    requires Runs(c, s, acts)
    ensures Recorded(Run(c, s, acts).thread) == Recorded(s.thread) + Readings(acts)
    decreases |acts|
  {
    var before := Recorded(s.thread);
    if acts == [] {
      Regroup(before, [], []);
    } else {
      var t := Apply(c, s, acts[0]);
      ReadingStep(c, s, acts[0]);
      TimerSeesAll(c, t, acts[1..]);
      Regroup(before, ReadingOf(acts[0]), Readings(acts[1..]));
      assert Run(c, s, acts) == Run(c, t, acts[1..]) && Readings(acts) == ReadingOf(acts[0]) + Readings(acts[1..]);
    }
  }

  /** The announce times among the calls of one step. */
  function TimesOf(made: seq<Op>): seq<int>
    requires |made| <= 1
  {
    if made != [] && made[0].Announce? then [made[0].now] else []
  }

  lemma AnnounceStep(c: Config, s: State, a: OwnerAction)
    requires OwnerEnabled(s, a)
    ensures var h, t := s.thread, OwnerStep(c, s, a).thread; var made := if a.Take? || a.PostAnswer? then [] else OpsOf(h.owner, a);
            |made| <= 1 && t.ops == h.ops + made && t.timer.announced == h.timer.announced + TimesOf(made)
  {
    assert s.thread.ops + [] == s.thread.ops && s.thread.timer.announced + [] == s.thread.timer.announced;
  }

  lemma AnnouncedMore(ops: seq<Op>, made: seq<Op>)
    requires |made| <= 1
    ensures AnnouncedAt(ops + made) == AnnouncedAt(ops) + TimesOf(made)
  {
    if made == [] {
      assert ops + made == ops && AnnouncedAt(ops) + [] == AnnouncedAt(ops);
    } else {
      assert (ops + made)[..|ops|] == ops && (ops + made)[|ops|] == made[0];
    }
  }

  /** What the timer counts as announced are the announces made. */
  lemma {:induction false} TimerCountsAnnounces(c: Config, s: State, acts: seq<Action>)
    requires Runs(c, s, acts) && s.thread.timer.announced == AnnouncedAt(s.thread.ops)
    ensures Run(c, s, acts).thread.timer.announced == AnnouncedAt(Run(c, s, acts).thread.ops)
    decreases |acts|
  {
    if acts != [] {
      if acts[0].Own? {
        var h, a := s.thread, acts[0].own;
        AnnounceStep(c, s, a);
        AnnouncedMore(h.ops, if a.Take? || a.PostAnswer? then [] else OpsOf(h.owner, a));
      }
      TimerCountsAnnounces(c, Apply(c, s, acts[0]), acts[1..]);
    }
  }

  /** So the loop announces exactly at the readings the timer's rule picks, and only if it was told an address. */
  lemma AnnouncesExactly(c: Config, acts: seq<Action>)
    requires Runs(c, Init(), acts) && !Run(c, Init(), acts).thread.owner.Announcing?
    ensures AnnouncedAt(Run(c, Init(), acts).thread.ops) == if c.announces then Announce.Times(Readings(acts)) else []
  {
    InitInv(c);
    InvRun(c, Init(), acts);
    TimerSeesAll(c, Init(), acts);
    TimerCountsAnnounces(c, Init(), acts);
    var h := Run(c, Init(), acts).thread;
    assert h.timer.readings == Recorded(h) == [] + Readings(acts) == Readings(acts);
  }

  // Shutdown

  function OwnerRank(o: Owner): nat {
    match o
    case Handling(_, _, _) => 10
    case Posting(_) => 9
    case Servicing => 8
    case Ticking => 7
    case TickingDht => 6
    case Announcing(_) => 5
    case Waiting => 4
    case Checking => 3
    case ClosingDht => 2
    case ClosingServer => 1
    case Finished => 0
  }

  /** Phase, commands ahead of the end of the pass, and sub-step, folded into one number. */
  function Measure(s: State): nat {
    3 * |s.box.queue| + OwnerRank(s.thread.owner)
  }

  lemma MeasureStep(c: Config, s: State, a: Action)
    requires s.stop && Enabled(s, a)
    ensures Apply(c, s, a).stop
    ensures a.Own? && !a.own.Pump? ==> Measure(Apply(c, s, a)) < Measure(s)
    ensures a.Own? && a.own.Pump? ==> Measure(Apply(c, s, a)) == Measure(s)
    ensures a.Task? ==> Measure(Apply(c, s, a)) <= Measure(s) + if a.task.Call? then 3 else 0
  {
  }

  /** The owner's steps outside the pumping of a blocking resolve, whose length its deadline bounds. */
  function OwnerSteps(acts: seq<Action>): nat {
    if acts == [] then 0 else (if acts[0].Own? && !acts[0].own.Pump? then 1 else 0) + OwnerSteps(acts[1..])
  }

  function Arrivals(acts: seq<Action>): nat {
    if acts == [] then 0 else (if acts[0].Task? && acts[0].task.Call? then 1 else 0) + Arrivals(acts[1..])
  }

  /** Once stop is set the owner takes boundedly many more steps, three more for each command that still arrives. */
  lemma {:induction false} OwnerTerminates(c: Config, s: State, acts: seq<Action>)
    requires s.stop && Runs(c, s, acts)
    ensures OwnerSteps(acts) + Measure(Run(c, s, acts)) <= Measure(s) + 3 * Arrivals(acts)
    decreases |acts|
  {
    if acts != [] {
      MeasureStep(c, s, acts[0]);
      OwnerTerminates(c, Apply(c, s, acts[0]), acts[1..]);
    }
  }

  /** The calls left before a command can be answered or its deadline is checked. */
  function PhaseRank(phase: Phase): nat {
    match phase
    case PumpDht => 4
    case LookAgain => 3
    case Fd => 2
    case Timeout => 1
    case Look => 2
    case Start => 1
    case ReadMetrics => 1
    case Loop => 0
    case Over(_) => 0
  }

  /** Whatever a call of a command comes to, it brings the command nearer to its answer or its deadline check. */
  lemma CallsAdvance(query: Query, phase: Phase, op: Op)
    requires MayCall(query, phase, op) && !phase.Loop?
    ensures PhaseRank(NextPhase(phase, op)) < PhaseRank(phase)
  {
  }

  /**
   And until it is finished it is never stuck: a step outside the commands, an answer, or a call
   that brings the command in hand nearer to one.
   */
  lemma OwnerNeverStuck(c: Config, s: State) returns (a: OwnerAction)
    requires Reachable(c, s) && !s.thread.owner.Finished?
    ensures OwnerEnabled(s, a)
    ensures a.Pump? ==> PhaseRank(NextPhase(s.thread.owner.phase, a.op)) < PhaseRank(s.thread.owner.phase)
  {
    ReachableInv(c, s);
    ReachableAnswers(c, s);
    match s.thread.owner
    case Checking => a := CheckStop;
    case Servicing =>
      if s.box.queue == [] {
        a := NoCommand;
      } else {
        QueueHead(s.box, |s.box.answers|);
        a := Take;
      }
    case Handling(_, query, phase) => a := NextCall(query, s.thread.hand, phase);
    case Posting(_) => a := PostAnswer;
    case Ticking => a := TickServer(Returned);
    case TickingDht => a := TickDht(0, Returned);
    case Announcing(_) => a := DoAnnounce(Returned);
    case Waiting => a := Wait;
    case ClosingDht => a := DoCloseDht;
    case ClosingServer => a := DoCloseServer;
  }

  lemma NextCall(query: Query, calls: seq<Op>, phase: Phase) returns (a: OwnerAction)
    requires PhaseRight(query, calls, phase)
    ensures a.Pump? || a.Answering?
    ensures a.Pump? ==> MayCall(query, phase, a.op) && PhaseRank(NextPhase(phase, a.op)) < PhaseRank(phase)
    ensures a.Answering? ==> MayAnswer(phase, a.answer)
  {
    match phase
    case Look => a := Pump(LookedUp(query.target, Miss));
    case Start => a := Pump(StartedLookup(query.target, Returned));
    case Loop => a := Answering(NotFound);
    case PumpDht => a := Pump(DhtTick(Returned));
    case LookAgain => a := Pump(LookedUp(query.target, Miss));
    case Fd => a := Pump(ServerFd);
    case Timeout => a := Pump(DhtTimeout);
    case ReadMetrics => a := Pump(MetricsRead(0, 0, Returned));
    case Over(answer) => a := Answering(answer);
  }

  lemma Extend(c: Config, acts: seq<Action>, a: Action) returns (longer: seq<Action>)
    requires Runs(c, Init(), acts) && Enabled(Run(c, Init(), acts), a)
    ensures longer == acts + [a]
    ensures Runs(c, Init(), longer) && Run(c, Init(), longer) == Apply(c, Run(c, Init(), acts), a)
  {
    RunSnoc(c, Init(), acts, a);
    longer := acts + [a];
  }

  /** A resolve called before shutdown that nobody ever answers. */
  lemma StrandedResolve(target: nat, timeout: int) returns (acts: seq<Action>)
    ensures var c := Config(true, false);
            && Runs(c, Init(), acts) && [Task(Call(Resolve(target, timeout))), Task(Shutdown)] <= acts
            && var s := Run(c, Init(), acts);
               s.thread.owner.Finished? && s.box.inbox == [] && s.box.futures == [Pending]
  {
    var c := Config(true, false);
    acts := Extend(c, [], Task(Call(Resolve(target, timeout))));
    acts := Extend(c, acts, Task(Shutdown));
    acts := Extend(c, acts, Own(CheckStop));
    acts := Extend(c, acts, Own(DoCloseDht));
    acts := Extend(c, acts, Own(DoCloseServer));
  }

  // Borrow order

  /** Nothing follows the server's close; only it follows the dht's close; each is closed at most once. */
  predicate BorrowOrder(ops: seq<Op>) {
    forall i, j :: 0 <= i < j < |ops| ==> !ops[i].CloseServer? && (ops[i].CloseDht? ==> ops[j].CloseServer?)
  }

  lemma RightOpsInOrder(c: Config, o: Owner, ops: seq<Op>)
    requires OpsRight(c, o, ops)
    ensures BorrowOrder(ops)
    ensures o.Finished? ==> ops != [] && ops[|ops| - 1] == CloseServer
                            && (c.hasDht ==> |ops| > 1 && ops[|ops| - 2] == CloseDht)
  {
    var n := |ops| - |ClosesBy(c, o)|;
    assert forall i :: n <= i < |ops| ==> ops[i] == ops[n..][i - n];
  }

  /**
   On every exit from the owner loop, by stop or by a raise from a tick, an announce or a
   command, the dht is closed before the server it borrows from, each exactly once, and no
   operation reaches a closed handle.
   */
  lemma ClosedInBorrowOrder(c: Config, s: State)
    requires Reachable(c, s)
    ensures BorrowOrder(s.thread.ops)
    ensures s.thread.owner.Finished? ==>
              var ops := s.thread.ops;
              ops != [] && ops[|ops| - 1] == CloseServer && (c.hasDht ==> |ops| > 1 && ops[|ops| - 2] == CloseDht)
    ensures Leaving(s.thread.owner) ==> s.stop || s.thread.faulted
  {
    ReachableInv(c, s);
    RightOpsInOrder(c, s.thread.owner, s.thread.ops);
  }

  // Announcing

  /** In any run the announces of the owner are a minute apart, so at most t / 60 + 1 fall in t seconds. */
  lemma AnnouncesSpaced(c: Config, s: State, i: nat, j: nat, t: nat)
    requires Reachable(c, s)
    requires var times := s.thread.timer.announced; i <= j < |times| && times[j] - times[i] <= t
    ensures j - i + 1 <= t / 60 + 1
    ensures Announce.Spaced(s.thread.timer.announced, 60)
  {
    ReachableInv(c, s);
    var timer := s.thread.timer;
    assert c.announces && timer.announced == Announce.Times(timer.readings);
    Announce.AtLeastAMinuteApart(timer.readings);
    Announce.AnnouncesInAWindow(timer.readings, i, j, t);
  }

  /** With a steady clock and passes at most 1740 seconds apart, successive announces keep the record alive. */
  lemma AnnouncesInTime(c: Config, s: State, d: int)
    requires Reachable(c, s) && 0 <= d <= 1740 && Announce.Steady(s.thread.timer.readings, d)
    ensures Announce.Within(s.thread.timer.announced, Announce.REPUBLISH_INTERVAL_SECS)
  {
    ReachableInv(c, s);
    if c.announces { Announce.WithinRepublishInterval(s.thread.timer.readings, d); }
  }
}
