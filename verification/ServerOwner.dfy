/**
 The code of the managed server's owner (nwep/runtime.py:72-109, 151-193, 240-285, 437-441) in
 its imperative form, with a monotonic clock in microseconds.  Each method performs actions of
 ServerBridge; on top of that the blocking resolve and one pass of the loop are bounded in time,
 for ticks that do not block and a clock that moves in every wait.
 */
module ServerOwner {
  import opened Mailbox
  import opened ServerBridge
  import opened ServerBridgeTheorems

  const POLL_CAP: nat := 100_000

  /** What happens before the owner's next step, and what the library and the clocks will say. */
  datatype Turn = Turn(
    others: seq<TaskAction>,
    result: Result,        // does the call return, or raise
    lookup: Lookup,        // what lookup_result says
    sent: nat,             // the dht's counters
    received: nat,
    wall: int,             // time.time()
    timeoutMs: int,        // next_timeout, negative for none
    wait: nat)             // how long select would wait

  /** Folds a next-timeout in milliseconds into a capped wait. */
  function Cap(timeoutMs: int): (us: nat)
    ensures us <= POLL_CAP
    ensures 0 <= timeoutMs * 1000 <= POLL_CAP ==> us == timeoutMs * 1000
    ensures timeoutMs < 0 || timeoutMs * 1000 > POLL_CAP ==> us == 100_000
  {
    if timeoutMs < 0 then POLL_CAP
    else if timeoutMs * 1000 < POLL_CAP then timeoutMs * 1000 else POLL_CAP
  }

  function Positive(t: int): nat {
    if t < 0 then 0 else t
  }

  /** The time a command may take: a resolve its timeout and one capped wait. */
  function Cost(query: Query): nat {
    if query.Resolve? then Positive(query.timeout) + POLL_CAP else 0
  }

  function Budget(served: seq<Served>): nat {
    if served == [] then 0
    else
      var n := |served| - 1;
      Budget(served[..n]) + Cost(served[n].query)
  }

  lemma BudgetGrows(before: seq<Served>, one: Served)
    ensures Budget(before + [one]) == Budget(before) + Cost(one.query)
  {
    assert (before + [one])[..|before|] == before;
  }

  /** The time the commands in a queue may take. */
  function QueueCost(queue: seq<Command<Query>>): nat {
    if queue == [] then 0 else (if queue[0].Ask? then Cost(queue[0].query) else 0) + QueueCost(queue[1..])
  }

  /** A place in the owner's loop; a command in hand may have pumped for a while towards its deadline. */
  datatype Place =
    | ToCheck
    | ToServe
    | InHand(cmd: Command<Query>, phase: Phase, deadline: int)
    | ToPost(callback: Callback<Answer>)
    | ToTick
    | ToTickDht
    | ToAnnounce(now: int)
    | ToWait

  predicate Fits(place: Place, o: Owner) {
    match place
    case ToCheck => o.Checking?
    case ToServe => o.Servicing?
    case InHand(cmd, phase, _) => cmd.Ask? && o == Handling(cmd.token, cmd.query, phase)
    case ToPost(cb) => o == Posting(cb)
    case ToTick => o.Ticking?
    case ToTickDht => o.TickingDht?
    case ToAnnounce(now) => o == Announcing(now)
    case ToWait => o.Waiting?
  }

  /** The time left to a resolve in hand: before its loop all of it, then up to its deadline. */
  function ResolveTime(timeout: int, phase: Phase, deadline: int, now: nat): nat {
    if phase.Over? then 0
    else if phase.Look? || phase.Start? then Positive(timeout) + POLL_CAP
    else Positive(deadline - now) + POLL_CAP
  }

  /** The time from a place to the next stop check, if no more command arrives. */
  function TimeLeft(place: Place, now: nat, queue: seq<Command<Query>>): nat {
    match place
    case ToCheck => 0
    case InHand(cmd, phase, deadline) =>
      (if cmd.Ask? && cmd.query.Resolve? then ResolveTime(cmd.query.timeout, phase, deadline, now) else 0)
      + QueueCost(queue) + POLL_CAP
    case ToPost(_) => QueueCost(queue) + POLL_CAP
    case ToServe => QueueCost(queue) + POLL_CAP
    case _ => POLL_CAP
  }

  /** A resolve whose deadline lies no further ahead than its timeout costs no more than one still queued. */
  lemma InHandLikeQueued(cmd: Command<Query>, phase: Phase, deadline: int, now: nat, queue: seq<Command<Query>>)
    requires cmd.Ask? && (cmd.query.Resolve? ==> deadline <= now + cmd.query.timeout)
    ensures TimeLeft(InHand(cmd, phase, deadline), now, queue) <= QueueCost([cmd] + queue) + POLL_CAP
  {
    assert ([cmd] + queue)[1..] == queue;
  }

  /** No resolve or metrics command arrives in what is left of the script. */
  predicate NoArrivals(script: seq<Turn>) {
    forall i, k :: 0 <= i < |script| && 0 <= k < |script[i].others| ==> !script[i].others[k].Call?
  }

  class ServerThread {
    const c: Config
    var queue: seq<Command<Query>>
    var futures: seq<Future<Answer>>
    var inbox: seq<Callback<Answer>>
    var stop: bool
    var lastAnnounce: int
    var clock: nat
    var script: seq<Turn>
    var turn: Turn
    ghost var model: State
    ghost var trace: seq<Action>

    /** The object's history is a run of the transition system, and its fields are that run's. */
    ghost predicate Valid()
      reads this
    {
      && Runs(c, Init(), trace) && Run(c, Init(), trace) == model
      && queue == model.box.queue && futures == model.box.futures && inbox == model.box.inbox
      && stop == model.stop && lastAnnounce == model.thread.timer.last
    }

    /** Where the owner thread is. */
    ghost function At(): Owner
      reads this
    {
      model.thread.owner
    }

    ghost function Done(): seq<Served>
      reads this
    {
      model.thread.served
    }

    /** The library calls made so far. */
    ghost function Ops(): seq<Op>
      reads this
    {
      model.thread.ops
    }

    /** The calls made for the command in hand. */
    ghost function MyCalls(): seq<Op>
      reads this
    {
      model.thread.hand
    }

    twostate predicate Did(a: Action)
      reads this
    {
      && Enabled(old(model), a)
      && model == Apply(c, old(model), a)
      && script == old(script) && turn == old(turn) && clock == old(clock)
    }

    /** Writes an action into the history. */
    ghost method Record(a: Action)
      requires Runs(c, Init(), trace) && Run(c, Init(), trace) == model && Enabled(model, a)
      modifies this`model, this`trace
      ensures Runs(c, Init(), trace) && Run(c, Init(), trace) == model
      ensures model == Apply(c, old(model), a) && trace == old(trace) + [a]
    {
      RunSnoc(c, Init(), trace, a);
      model, trace := Apply(c, model, a), trace + [a];
    }

    lemma ValidIsInv()
      requires Valid()
      ensures Inv(c, model)
    {
      ReachableInv(c, model);
    }

    lemma ValidIsAnswers()
      requires Valid()
      ensures At().Handling? ==> PhaseRight(At().query, MyCalls(), At().phase)
    {
      ReachableAnswers(c, model);
    }

    /** No command arrives out of nowhere, and stop is never unset: only the script changes them. */
    twostate predicate Quiet()
      reads this
    {
      && |script| <= |old(script)| && (old(stop) ==> stop)
      && (|script| == |old(script)| ==> queue == old(queue))
      && (NoArrivals(old(script)) ==> NoArrivals(script) && queue == old(queue))
    }

    /** The owner stays where it is, with nothing more served or answered. */
    twostate predicate Still()
      reads this
    {
      && At() == old(At()) && Done() == old(Done())
      && model.box.answers == old(model.box.answers)
    }

    /** The owner stays within its command, with nothing more served or answered. */
    twostate predicate InCommand()
      reads this
    {
      && old(At()).Handling? && At().Handling? && At().token == old(At()).token && At().query == old(At()).query
      && Done() == old(Done()) && model.box.answers == old(model.box.answers)
    }

    /** One call for the command in hand, in no time. */
    twostate predicate Called(op: Op)
      reads this
    {
      && Quiet() && InCommand() && clock == old(clock)
      && MayCall(At().query, old(At()).phase, op) && At().phase == NextPhase(old(At()).phase, op)
      && Ops() == old(Ops()) + [op] && MyCalls() == old(MyCalls()) + [op]
    }

    constructor (c: Config, script: seq<Turn>)
      ensures Valid() && model == Init() && this.c == c && this.script == script
    {
      this.c := c;
      queue, futures, inbox, stop := [], [], [], false;
      lastAnnounce, clock, this.script := 0, 0, script;
      turn := Turn([], Returned, Miss, 0, 0, 0, -1, 0);
      model, trace := Init(), [];
    }

    // The tasks of the event loop

    /** resolve or dht_metrics up to its await; without a dht ConfigMissing is raised. */
    method Ask(query: Query) returns (raised: bool, token: nat)
      requires Valid()
      modifies this
      ensures Valid() && Did(Task(Call(query)))
      ensures raised == !c.hasDht && (!raised ==> token == |old(futures)|)
      ensures Still() && Ops() == old(Ops()) && MyCalls() == old(MyCalls())
    {
      raised, token := !c.hasDht, 0;
      if c.hasDht {
        token := |futures|;
        futures := futures + [Pending];
        queue := queue + [Command.Ask(token, query)];
      }
      Record(Task(Call(query)));
    }

    method CancelToken(token: nat)
      requires Valid() && token < |futures|
      modifies this
      ensures Valid() && Did(Task(Cancel(token)))
      ensures Still() && Ops() == old(Ops()) && MyCalls() == old(MyCalls())
    {
      if futures[token].Pending? {
        futures := futures[token := Cancelled];
      }
      Record(Task(Cancel(token)));
    }

    method RunOneCallback()
      requires Valid() && inbox != []
      modifies this
      ensures Valid() && Did(Task(RunCallback))
      ensures Still() && Ops() == old(Ops()) && MyCalls() == old(MyCalls())
    {
      ValidIsInv();
      RunHeadKeepsBox(model.box, Hand(At()));
      var cb := inbox[0];
      inbox := inbox[1..];
      if !futures[cb.token].Cancelled? {
        futures := futures[cb.token := Settled(cb.answer)];
      }
      Record(Task(RunCallback));
    }

    method ShutDown()
      requires Valid()
      modifies this
      ensures Valid() && Did(Task(Shutdown)) && stop
      ensures Still() && Ops() == old(Ops()) && MyCalls() == old(MyCalls())
    {
      stop := true;
      Record(Task(Shutdown));
    }

    /** Lets the others run between two steps of the owner, as long as the script lasts. */
    method Yield()
      requires Valid()
      modifies this
      ensures Valid() && Quiet() && Still() && clock == old(clock)
      ensures Ops() == old(Ops()) && MyCalls() == old(MyCalls()) && (old(script) != [] ==> |script| < |old(script)|)
    {
      if script == [] { return; }
      turn := script[0];
      script := script[1..];
      var others := turn.others;
      for k := 0 to |others|
        invariant Valid() && Still() && clock == old(clock)
        invariant Ops() == old(Ops()) && MyCalls() == old(MyCalls()) && |script| < |old(script)| && (old(stop) ==> stop)
        invariant NoArrivals(old(script)) ==> NoArrivals(script) && queue == old(queue)
      {
        match others[k]
        case Call(query) => var _, _ := Ask(query);
        case Cancel(token) => if token < |futures| { CancelToken(token); }
        case RunCallback => if inbox != [] { RunOneCallback(); }
        case Shutdown => ShutDown();
      }
    }

    // Steps of the owner

    /** A call into the library from inside a command. */
    method Operate(op: Op)
      requires Valid() && At().Handling? && MayCall(At().query, At().phase, op)
      modifies this
      ensures Valid() && Did(Own(Pump(op))) && Called(op)
    {
      Record(Own(Pump(op)));
    }

    /** select: returns after a wait of at most the cap; time moves. */
    method WaitReadable(cap: nat)
      requires Valid() && cap <= POLL_CAP
      modifies this`clock
      ensures Valid()
      ensures old(clock) < clock <= old(clock) + if cap == 0 then 1 else cap
    {
      var wait := if turn.wait < cap then turn.wait else cap;
      clock := clock + if wait == 0 then 1 else wait;
    }

    /** dht.lookup_result */
    method LookupResult(target: nat) returns (lookup: Lookup)
      requires Valid() && At().Handling? && At().query.Resolve? && At().query.target == target
      requires At().phase.Look? || At().phase.LookAgain?
      modifies this
      ensures Valid() && Called(LookedUp(target, lookup)) && lookup == turn.lookup
    {
      Yield();
      lookup := turn.lookup;
      Operate(LookedUp(target, lookup));
    }

    /** dht.start_lookup */
    method StartLookup(target: nat) returns (r: Result)
      requires Valid() && At().Handling? && At().query.Resolve? && At().query.target == target && At().phase.Start?
      modifies this
      ensures Valid() && Called(StartedLookup(target, r)) && r == turn.result
    {
      Yield();
      r := turn.result;
      Operate(StartedLookup(target, r));
    }

    /** server.tick inside a resolve. */
    method TickServerForLookup() returns (r: Result)
      requires Valid() && At().Handling? && At().phase.Loop?
      modifies this
      ensures Valid() && Called(ServerTick(r)) && r == turn.result
    {
      Yield();
      r := turn.result;
      Operate(ServerTick(r));
    }

    /** dht.tick inside a resolve. */
    method TickDhtForLookup() returns (r: Result)
      requires Valid() && At().Handling? && At().phase.PumpDht?
      modifies this
      ensures Valid() && Called(DhtTick(r)) && r == turn.result
    {
      Yield();
      r := turn.result;
      Operate(DhtTick(r));
    }

    /** server.fileno, dht.next_timeout and the capped wait, from the place given. */
    method WaitForLookup(from: Phase)
      requires Valid() && At().Handling? && At().phase == from && (from.Fd? || from.Timeout?)
      modifies this
      ensures Valid() && Quiet() && InCommand() && At().phase.Loop?
      ensures MyCalls() == old(MyCalls()) + if from.Fd? then [ServerFd, DhtTimeout] else [DhtTimeout]
      ensures old(clock) < clock <= old(clock) + POLL_CAP
    {
      if from.Fd? {
        Operate(ServerFd);
      }
      Yield();
      Operate(DhtTimeout);
      WaitReadable(Cap(turn.timeoutMs));
    }

    predicate InRound(phase: Phase) {
      phase.Loop? || phase.PumpDht? || phase.LookAgain? || phase.Fd? || phase.Timeout?
    }

    /**
     One turn of the pumping loop, from its start or from within: tick, tick, look, wait.  Over at
     the first hit or raise.
     */
    method PumpOnce(target: nat, from: Phase) returns (over: bool, answer: Answer)
      requires Valid() && At().Handling? && At().query.Resolve? && At().query.target == target
      requires At().phase == from && InRound(from)
      modifies this
      ensures Valid() && Quiet() && InCommand()
      ensures (At().phase == if over then Over(answer) else Loop) && (over ==> !answer.NotFound?)
      ensures if over then clock == old(clock) else old(clock) < clock <= old(clock) + POLL_CAP
    {
      var at := from;
      over, answer := false, NotFound;
      if at.Loop? {
        var r := TickServerForLookup();
        if r.Failed? { return true, Raised(r.code); }
        at := PumpDht;
      }
      if at.PumpDht? {
        var r := TickDhtForLookup();
        if r.Failed? { return true, Raised(r.code); }
        at := LookAgain;
      }
      if at.LookAgain? {
        var lookup := LookupResult(target);
        if lookup.Hit? { return true, Address(lookup.address); }
        if lookup.LookupRaises? { return true, Raised(lookup.code); }
        at := Fd;
      }
      WaitForLookup(at);
    }

    /** The pumping loop, from any place in it: over by its deadline and one capped wait. */
    method PumpUntil(target: nat, deadline: int, from: Phase) returns (answer: Answer)
      requires Valid() && At().Handling? && At().query.Resolve? && At().query.target == target
      requires At().phase == from && InRound(from)
      modifies this
      ensures Valid() && Quiet() && InCommand() && MayAnswer(At().phase, answer)
      ensures old(clock) <= clock <= old(clock) + Positive(deadline - old(clock)) + POLL_CAP
      ensures answer.NotFound? ==> clock >= deadline
    {
      if !from.Loop? {
        var over;
        over, answer := PumpOnce(target, from);
        if over { return; }
      }
      while clock < deadline
        invariant Valid() && Quiet() && InCommand() && At().phase.Loop?
        invariant old(clock) <= clock <= old(clock) + Positive(deadline - old(clock)) + POLL_CAP
        decreases deadline - clock
      {
        var over;
        over, answer := PumpOnce(target, Loop);
        if over { return; }
      }
      answer := NotFound;
    }

    /**
     _resolve_blocking, from any place in it: over no later than the deadline plus one capped wait,
     with what its calls owe; a timeout only once the deadline has passed.
     */
    method ResolveBlocking(target: nat, timeout: int, from: Phase, deadline: int) returns (answer: Answer)
      requires Valid() && At().Handling? && At().query == Resolve(target, timeout) && At().phase == from
      modifies this
      ensures Valid() && Quiet() && InCommand() && Answers(At().query, MyCalls(), answer) && MayAnswer(At().phase, answer)
      ensures old(clock) <= clock <= old(clock) + ResolveTime(timeout, from, deadline, old(clock))
      ensures answer.NotFound? ==> clock >= if from.Look? || from.Start? then old(clock) + timeout else deadline
    {
      ValidIsAnswers();
      var at := from;
      if at.Look? {
        var lookup := LookupResult(target);
        at := Found(lookup, Start);
      }
      if at.Start? {
        var r := StartLookup(target);
        at := Unless(r, Loop);
      }
      if at.Over? {
        answer := at.answer;
      } else {
        answer := PumpUntil(target, if from.Look? || from.Start? then clock + timeout else deadline, at);
      }
      ValidIsAnswers();
      PhaseAnswers(At().query, MyCalls(), At().phase, answer);
    }

    /** dht.metrics */
    method MetricsOfDht() returns (answer: Answer)
      requires Valid() && At().Handling? && At().query.Metrics? && At().phase.ReadMetrics?
      modifies this
      ensures Valid() && Called(MetricsRead(turn.sent, turn.received, turn.result)) && At().phase == Over(answer)
      ensures answer == if turn.result.Failed? then Raised(turn.result.code) else Snapshot(turn.sent, turn.received)
    {
      Yield();
      Operate(MetricsRead(turn.sent, turn.received, turn.result));
      answer := if turn.result.Failed? then Raised(turn.result.code) else Snapshot(turn.sent, turn.received);
    }

    method Conclude(token: nat, answer: Answer)
      requires Valid() && At().Handling? && At().token == token && MayAnswer(At().phase, answer)
      modifies this
      ensures Valid() && Did(Own(Answering(answer))) && At() == Posting(Callback(token, answer))
      ensures Done() == old(Done()) + [Served(old(At()).query, old(MyCalls()), answer)]
      ensures model.box.answers == old(model.box.answers)
    {
      Record(Own(Answering(answer)));
    }

    /** loop.call_soon_threadsafe */
    method CallSoon(cb: Callback<Answer>)
      requires Valid() && At() == Posting(cb)
      modifies this
      ensures Valid() && Did(Own(PostAnswer)) && At().Servicing? && Done() == old(Done())
      ensures model.box.answers == old(model.box.answers) + [cb.answer]
    {
      inbox := inbox + [cb];
      Record(Own(PostAnswer));
    }

    /** commands.get_nowait */
    method GetNowait() returns (empty: bool, cmd: Command<Query>)
      requires Valid() && At().Servicing?
      modifies this
      ensures Valid() && empty == (old(queue) == []) && Done() == old(Done())
      ensures if empty then Did(Own(NoCommand)) && At().Ticking?
              else Did(Own(Take)) && cmd == old(queue)[0] && cmd.Ask? && MyCalls() == []
                   && At() == Handling(cmd.token, cmd.query, FirstPhase(cmd.query))
    {
      ValidIsInv();
      empty, cmd := queue == [], Stop;
      ghost var step := if empty then NoCommand else Take;
      if !empty {
        QueueHead(model.box, |model.box.answers|);
        assert queue[0].Ask? by { assert !HasStop(model.box); }
        cmd := queue[0];
        queue := queue[1..];
      }
      Record(Own(step));
    }

    /** What a command comes to, from any place in it: its result, or what it raised. */
    method CarryOut(query: Query, from: Phase, deadline: int) returns (answer: Answer)
      requires Valid() && At().Handling? && At().query == query && At().phase == from
      modifies this
      ensures Valid() && Quiet() && InCommand() && Answers(query, MyCalls(), answer) && MayAnswer(At().phase, answer)
      ensures old(clock) <= clock <= old(clock) + if query.Resolve? then ResolveTime(query.timeout, from, deadline, old(clock)) else 0
      ensures from.Look? && answer.NotFound? ==> clock >= old(clock) + query.timeout
    {
      ValidIsAnswers();
      match query
      case Resolve(target, timeout) => answer := ResolveBlocking(target, timeout, from, deadline);
      case Metrics =>
        if from.Over? { answer := from.answer; } else { answer := MetricsOfDht(); }
        ValidIsAnswers();
        PhaseAnswers(query, MyCalls(), At().phase, answer);
    }

    /**
     Carries out the command in hand and posts its one answer, the one its calls owe, as the next
     in order, for its own future.
     */
    method HandleCommand(cmd: Command<Query>, from: Phase, deadline: int) returns (ghost calls: seq<Op>, ghost answer: Answer)
      requires Valid() && cmd.Ask? && At() == Handling(cmd.token, cmd.query, from)
      modifies this
      ensures Valid() && Quiet() && At().Servicing?
      ensures cmd.token == |old(model.box.answers)| && model.box.answers == old(model.box.answers) + [answer]
      ensures Done() == old(Done()) + [Served(cmd.query, calls, answer)] && Answers(cmd.query, calls, answer)
      ensures old(clock) <= clock <= old(clock) + if cmd.query.Resolve? then ResolveTime(cmd.query.timeout, from, deadline, old(clock)) else 0
      ensures from.Look? && answer.NotFound? ==> clock >= old(clock) + cmd.query.timeout
    {
      ValidIsInv();
      var result := CarryOut(cmd.query, from, deadline);
      answer := result;
      Yield();
      calls := MyCalls();
      Conclude(cmd.token, result);
      Yield();
      CallSoon(Callback(cmd.token, result));
    }

    /** One turn of _service_server_commands: the queue is empty, or its oldest command is carried out. */
    method ServiceOne() returns (empty: bool)
      requires Valid() && At().Servicing?
      modifies this
      ensures Valid() && |script| <= |old(script)| && (old(stop) ==> stop)
      ensures empty ==> At().Ticking? && queue == [] && Done() == old(Done()) && clock == old(clock)
      ensures !empty ==>
                && At().Servicing?
                && (|script| == |old(script)| ==> |queue| < |old(queue)|)
                && |Done()| == |old(Done())| + 1 && Done()[..|old(Done())|] == old(Done())
                && old(clock) <= clock <= old(clock) + Cost(Done()[|old(Done())|].query)
      ensures NoArrivals(old(script)) ==>
                && NoArrivals(script) && empty == (old(queue) == [])
                && (!empty ==> queue == old(queue)[1..] && old(queue)[0].Ask? && Done()[|old(Done())|].query == old(queue)[0].query)
    {
      Yield();
      var cmd;
      empty, cmd := GetNowait();
      if !empty {
        ghost var _, _ := HandleCommand(cmd, FirstPhase(cmd.query), 0);
      }
    }

    /**
     _service_server_commands: serves until the queue is seen empty, in the time its commands
     allow.  If nothing more arrives it serves exactly what was queued, in the time that needs.
     */
    method ServiceCommands()
      requires Valid() && At().Servicing?
      modifies this
      ensures Valid() && At().Ticking? && |script| <= |old(script)| && (old(stop) ==> stop)
      ensures old(Done()) <= Done()
      ensures old(clock) <= clock <= old(clock) + Budget(Done()[|old(Done())|..])
      ensures NoArrivals(old(script)) ==>
                && NoArrivals(script) && |Done()| == |old(Done())| + |old(queue)|
                && clock <= old(clock) + QueueCost(old(queue))
    {
      ghost var first := |Done()|;
      assert Done()[first..] == [];
      while true
        invariant Valid() && At().Servicing? && old(Done()) <= Done() && first == |old(Done())|
        invariant |script| <= |old(script)| && (old(stop) ==> stop)
        invariant old(clock) <= clock <= old(clock) + Budget(Done()[first..])
        invariant NoArrivals(old(script)) ==>
                    && NoArrivals(script) && |Done()| + |queue| == first + |old(queue)|
                    && clock + QueueCost(queue) <= old(clock) + QueueCost(old(queue))
        decreases |script|, |queue|
      {
        ghost var before := Done();
        var empty := ServiceOne();
        if empty { return; }
        assert Done()[first..] == before[first..] + [Done()[|before|]];
        BudgetGrows(before[first..], Done()[|before|]);
      }
    }

    /** while not stop.is_set() */
    method StopIsSet() returns (leave: bool)
      requires Valid() && At().Checking?
      modifies this
      ensures Valid() && Did(Own(CheckStop)) && leave == old(stop) && Done() == old(Done())
      ensures At() == if leave then Leave(c) else Servicing
    {
      leave := stop;
      Record(Own(CheckStop));
    }

    /** server.tick; a raise leaves the loop. */
    method TickTheServer() returns (r: Result)
      requires Valid() && At().Ticking?
      modifies this
      ensures Valid() && Did(Own(TickServer(r))) && Done() == old(Done()) && Ops() == old(Ops()) + [ServerTick(r)]
      ensures if r.Failed? then At() == Leave(c) else At() == if c.hasDht then TickingDht else Waiting
      ensures r == old(turn.result)
    {
      r := turn.result;
      Record(Own(TickServer(r)));
    }

    /** dht.tick(now), then the announce timer's test. */
    method TickTheDht() returns (r: Result, due: bool, now: int)
      requires Valid() && At().TickingDht?
      modifies this
      ensures Valid() && Did(Own(TickDht(now, r))) && Done() == old(Done()) && Ops() == old(Ops()) + [DhtTick(r)]
      ensures At() == if r.Failed? then Leave(c) else if due then Announcing(now) else Waiting
      ensures due <==> r.Returned? && c.announces && now - lastAnnounce >= 60
      ensures r == old(turn.result) && now == old(turn.wall)
    {
      now := turn.wall;
      r := turn.result;
      due := r.Returned? && c.announces && now - lastAnnounce >= 60;
      Record(Own(TickDht(now, r)));
    }

    /** dht.announce; last_announce moves only if it returns. */
    method AnnounceNow(now: int) returns (r: Result)
      requires Valid() && At() == Announcing(now)
      modifies this
      ensures Valid() && Did(Own(DoAnnounce(r))) && Done() == old(Done()) && Ops() == old(Ops()) + [Announce(now, r)]
      ensures At() == if r.Failed? then Leave(c) else Waiting
      ensures lastAnnounce == (if r.Failed? then old(lastAnnounce) else now) && r == old(turn.result)
    {
      r := turn.result;
      if r.Returned? {
        lastAnnounce := now;
      }
      Record(Own(DoAnnounce(r)));
    }

    /** server.next_timeout, then select. */
    method WaitForServer()
      requires Valid() && At().Waiting?
      modifies this
      ensures Valid() && At().Checking? && script == old(script) && Done() == old(Done()) && stop == old(stop)
      ensures Ops() == old(Ops()) + [ServerTimeout]
      ensures old(clock) < clock <= old(clock) + POLL_CAP
    {
      Record(Own(Wait));
      WaitReadable(Cap(turn.timeoutMs));
    }

    /** The calls of a pass behind its commands: the server's tick, the dht's and a due announce, up to one that raises. */
    predicate TickCalls(made: seq<Op>, left: bool) {
      && 1 <= |made| <= 3 && made[0].ServerTick?
      && (|made| > 1 ==> c.hasDht && made[1].DhtTick?)
      && (|made| > 2 ==> made[2].Announce?)
      && (forall i :: 0 <= i < |made| - 1 ==> !Throws(made[i]))
      && (left <==> Throws(made[|made| - 1]))
      && (!left && c.hasDht ==> |made| > 1)
    }

    /** The server's tick, the dht's and perhaps an announce, up to the one that raises. */
    method TickBoth() returns (left: bool, ghost made: seq<Op>)
      requires Valid() && At().Ticking?
      modifies this
      ensures Valid() && |script| <= |old(script)| && Done() == old(Done()) && clock == old(clock)
      ensures (old(stop) ==> stop) && (NoArrivals(old(script)) ==> NoArrivals(script))
      ensures if left then At() == Leave(c) else At().Waiting?
      ensures Ops() == old(Ops()) + made && TickCalls(made, left)
    {
      Yield();
      var r := TickTheServer();
      made := [ServerTick(r)];
      left := r.Failed?;
      if !left && c.hasDht {
        ghost var more;
        left, more := TickTheDhtAndAnnounce();
        made := made + more;
      }
    }

    method TickTheDhtAndAnnounce() returns (left: bool, ghost made: seq<Op>)
      requires Valid() && At().TickingDht?
      modifies this
      ensures Valid() && |script| <= |old(script)| && Done() == old(Done()) && clock == old(clock)
      ensures (old(stop) ==> stop) && (NoArrivals(old(script)) ==> NoArrivals(script))
      ensures if left then At() == Leave(c) else At().Waiting?
      ensures Ops() == old(Ops()) + made && 1 <= |made| <= 2 && made[0].DhtTick?
      ensures |made| > 1 ==> made[1].Announce? && !Throws(made[0])
      ensures left <==> Throws(made[|made| - 1])
    {
      Yield();
      var r, due, now := TickTheDht();
      made := [DhtTick(r)];
      left := r.Failed?;
      if due {
        Yield();
        r := AnnounceNow(now);
        left := r.Failed?;
        made := made + [Announce(now, r)];
      }
    }

    /**
     One pass of the owner's loop: over within the timeouts of the resolves it served, one capped
     wait for each of them, and one more.  If no command arrives, those are the ones queued.
     */
    method OnePass() returns (left: bool)
      requires Valid() && At().Servicing?
      modifies this
      ensures Valid() && |script| <= |old(script)| && (old(stop) ==> stop)
      ensures At() == if left then Leave(c) else Checking
      ensures old(Done()) <= Done()
      ensures old(clock) <= clock <= old(clock) + Budget(Done()[|old(Done())|..]) + POLL_CAP
      ensures NoArrivals(old(script)) ==>
                && NoArrivals(script) && |Done()| == |old(Done())| + |old(queue)|
                && clock <= old(clock) + QueueCost(old(queue)) + POLL_CAP
    {
      ServiceCommands();
      ghost var made;
      left, made := TickBoth();
      if !left {
        Yield();
        WaitForServer();
      }
    }

    /**
     A pass and the stop check behind it.  With k resolves queued and nothing more arriving, a stop
     set before or during the pass is noticed within their timeouts and k + 1 capped waits.
     */
    method PassThenCheck() returns (left: bool)
      requires Valid() && At().Servicing?
      modifies this
      ensures Valid() && |script| <= |old(script)| && (old(stop) ==> stop)
      ensures At() == (if left then Leave(c) else Servicing)
      ensures stop ==> left
      ensures old(clock) <= clock
      ensures NoArrivals(old(script)) ==> NoArrivals(script) && clock <= old(clock) + QueueCost(old(queue)) + POLL_CAP
    {
      left := OnePass();
      if !left {
        left := StopIsSet();
      }
    }

    // From wherever the owner is

    /** The capped wait at the end of a pass, and the stop check behind it. */
    method WaitThenCheck() returns (left: bool)
      requires Valid() && At().Waiting?
      modifies this
      ensures Valid() && At() == (if left then Leave(c) else Servicing) && left == stop
      ensures old(clock) < clock <= old(clock) + POLL_CAP && (old(stop) ==> stop)
    {
      Yield();
      WaitForServer();
      left := StopIsSet();
    }

    /** What is left of a pass once its commands are served, and the stop check. */
    method FinishTicks(place: Place) returns (left: bool)
      requires Valid() && Fits(place, At()) && (place.ToTick? || place.ToTickDht? || place.ToAnnounce? || place.ToWait?)
      modifies this
      ensures Valid() && At() == (if left then Leave(c) else Servicing) && (stop ==> left) && (old(stop) ==> stop)
      ensures old(clock) <= clock <= old(clock) + POLL_CAP
    {
      left := false;
      Yield();
      ghost var made;
      match place {
        case ToTick => left, made := TickBoth();
        case ToTickDht => left, made := TickTheDhtAndAnnounce();
        case ToAnnounce(now) => left := AnnounceOr(now);
        case _ =>
      }
      if !left {
        left := WaitThenCheck();
      }
    }

    method AnnounceOr(now: int) returns (left: bool)
      requires Valid() && At() == Announcing(now)
      modifies this
      ensures Valid() && At() == (if left then Leave(c) else Waiting) && clock == old(clock) && stop == old(stop)
    {
      var r := AnnounceNow(now);
      left := r.Failed?;
    }

    /**
     The owner going on from any place in its loop, to the next stop check.  If no more command
     arrives, a stop set by then is noticed within what is left of the resolve in hand, the
     timeouts of those queued now, one capped wait for each of them, and one more.
     */
    method NoticeStop(place: Place) returns (left: bool)
      requires Valid() && Fits(place, At()) && NoArrivals(script)
      modifies this
      ensures Valid() && At() == (if left then Leave(c) else Servicing)
      ensures (stop ==> left) && (old(stop) ==> stop)
      ensures old(clock) <= clock <= old(clock) + TimeLeft(place, old(clock), old(queue))
    {
      match place {
        case ToCheck =>
          left := StopIsSet();
        case InHand(cmd, phase, deadline) =>
          ghost var _, _ := HandleCommand(cmd, phase, deadline);
          left := PassThenCheck();
        case ToPost(cb) =>
          Yield();
          CallSoon(cb);
          left := PassThenCheck();
        case ToServe =>
          left := PassThenCheck();
        case _ =>
          left := FinishTicks(place);
      }
    }

    /** The service loop; false when the observed run stops while the server is still serving. */
    method ServeLoop() returns (finished: bool)
      requires Valid() && At().Checking?
      modifies this
      ensures Valid() && (!finished ==> script == [])
      ensures finished ==> At() == Leave(c)
      ensures old(stop) ==> finished && clock == old(clock)
    {
      Yield();
      finished := StopIsSet();
      while !finished
        invariant Valid() && At() == if finished then Leave(c) else Servicing
        invariant old(stop) ==> finished && clock == old(clock)
        decreases if finished then 0 else |script| + 1
      {
        if script == [] { return false; }
        Yield();
        finished := PassThenCheck();
      }
    }

    method CloseDht()
      requires Valid() && At().ClosingDht?
      modifies this
      ensures Valid() && Did(Own(DoCloseDht)) && At().ClosingServer?
    {
      Record(Own(DoCloseDht));
    }

    method CloseServer()
      requires Valid() && At().ClosingServer?
      modifies this
      ensures Valid() && Did(Own(DoCloseServer)) && At().Finished?
    {
      Record(Own(DoCloseServer));
    }

    /** The finally: the dht borrows the server's socket, so it goes first. */
    method Finally()
      requires Valid() && At() == Leave(c)
      modifies this
      ensures Valid() && At().Finished? && BorrowOrder(model.thread.ops)
    {
      if c.hasDht {
        CloseDht();
        Yield();
      }
      CloseServer();
      ClosedInBorrowOrder(c, model);
    }

    /** The owner thread from line 240 on. */
    method Owner() returns (finished: bool)
      requires Valid() && At().Checking?
      modifies this
      ensures Valid() && !model.box.invalidState && BorrowOrder(model.thread.ops) && (!finished ==> script == [])
      ensures finished ==> At().Finished? && (stop || model.thread.faulted)
    {
      finished := ServeLoop();
      if finished {
        Finally();
      }
      ClosedInBorrowOrder(c, model);
      CommandsConserved(c, model);
    }
  }
}
