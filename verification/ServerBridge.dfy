/**
 The owner thread of the managed server (nwep/runtime.py:151-193, 240-285) as a transition
 system: a mailbox of resolve and metrics commands, the tick loop with its announce timer, and
 the finally that closes the dht before the server.  It starts where the loop starts; what
 happens before is in Handoff.
 */
module ServerBridge {
  import opened Mailbox
  import Announce

  /** hasDht: a dht is attached.  announces: announce_as was set. */
  datatype Config = Config(hasDht: bool, announces: bool)

  /** timeout is in microseconds; the source takes seconds as a float. */
  datatype Query = Resolve(target: nat, timeout: int) | Metrics

  datatype Answer = Address(address: nat) | Snapshot(sent: nat, received: nat) | NotFound | Raised(code: int)

  /** How a call into the library ends. */
  datatype Result = Returned | Failed(code: int)

  /** What dht.lookup_result reports. */
  datatype Lookup = Miss | Hit(address: nat) | LookupRaises(code: int)

  /** Calls into the library, with what came of them. */
  datatype Op =
    | ServerTick(r: Result)
    | DhtTick(r: Result)
    | Announce(now: int, r: Result)
    | ServerTimeout                              // next_timeout before the wait of the loop
    | LookedUp(target: nat, lookup: Lookup)
    | StartedLookup(target: nat, r: Result)
    | ServerFd
    | DhtTimeout                                 // next_timeout before the wait inside a resolve
    | MetricsRead(sent: nat, received: nat, r: Result)
    | CloseDht
    | CloseServer

  predicate OnDht(op: Op) {
    op.DhtTick? || op.Announce? || op.LookedUp? || op.StartedLookup? || op.DhtTimeout? || op.MetricsRead?
  }

  predicate Closes(op: Op) {
    op.CloseDht? || op.CloseServer?
  }

  /** A command the owner has carried out, with the calls it made for it. */
  datatype Served = Served(query: Query, calls: seq<Op>, answer: Answer)

  /** Where the owner is within a command. */
  datatype Phase =
    | Look                // about to call lookup_result, first of all
    | Start               // about to call start_lookup
    | Loop                // while time.monotonic() < deadline
    | PumpDht
    | LookAgain
    | Fd
    | Timeout
    | ReadMetrics
    | Over(answer: Answer)

  datatype Owner =
    | Checking                              // while not stop.is_set()
    | Servicing                             // in _service_server_commands, about to get_nowait
    | Handling(token: nat, query: Query, phase: Phase)
    | Posting(callback: Callback<Answer>)
    | Ticking                               // about to tick the server
    | TickingDht
    | Announcing(now: int)
    | Waiting                               // next_timeout and select
    | ClosingDht
    | ClosingServer
    | Finished

  type Mail = Box<Query, Answer>

  /** last is last_announce; readings and announced are histories of the clock and of announce. */
  datatype Timer = Timer(last: int, readings: seq<int>, announced: seq<int>)

  /** faulted: a tick or an announce raised.  ops and served are histories; hand is the part of ops made for the command in hand. */
  datatype Thread = Thread(owner: Owner, faulted: bool, ops: seq<Op>, hand: seq<Op>, served: seq<Served>, timer: Timer)

  datatype State = State(box: Mail, stop: bool, thread: Thread)

  datatype TaskAction = Call(query: Query) | Cancel(token: nat) | RunCallback | Shutdown

  datatype OwnerAction =
    | CheckStop
    | Take
    | NoCommand
    | Pump(op: Op)                  // an operation inside a command
    | Answering(answer: Answer)
    | PostAnswer
    | TickServer(r: Result)
    | TickDht(now: int, r: Result)
    | DoAnnounce(r: Result)
    | Wait
    | DoCloseDht
    | DoCloseServer

  datatype Action = Task(task: TaskAction) | Own(own: OwnerAction)

  function Init(): State {
    State(EmptyBox(), false, Thread(Checking, false, [], [], [], Timer(0, [], [])))
  }

  predicate TaskEnabled(s: State, a: TaskAction) {
    match a
    case Call(_) => true
    case Cancel(token) => token < |s.box.futures|
    case RunCallback => CanRun(s.box)
    case Shutdown => true
  }

  /** Without a dht, resolve and dht_metrics raise ConfigMissing and enqueue nothing. */
  function TaskStep(c: Config, s: State, a: TaskAction): State
    requires TaskEnabled(s, a)
  {
    match a
    case Call(query) => if c.hasDht then s.(box := Submit(s.box, query)) else s
    case Cancel(token) => s.(box := CancelAt(s.box, token))
    case RunCallback => s.(box := RunHead(s.box))
    case Shutdown => s.(stop := true)
  }

  function FirstPhase(query: Query): Phase {
    if query.Resolve? then Look else ReadMetrics
  }

  /** The call a command makes next. */
  predicate MayCall(query: Query, phase: Phase, op: Op) {
    match phase
    case Look => query.Resolve? && op.LookedUp? && op.target == query.target
    case Start => query.Resolve? && op.StartedLookup? && op.target == query.target
    case Loop => op.ServerTick?
    case PumpDht => op.DhtTick?
    case LookAgain => query.Resolve? && op.LookedUp? && op.target == query.target
    case Fd => op.ServerFd?
    case Timeout => op.DhtTimeout?
    case ReadMetrics => op.MetricsRead?
    case Over(_) => false
  }

  function Unless(r: Result, next: Phase): Phase {
    match r
    case Returned => next
    case Failed(code) => Over(Raised(code))
  }

  function Found(lookup: Lookup, next: Phase): Phase {
    match lookup
    case Miss => next
    case Hit(address) => Over(Address(address))
    case LookupRaises(code) => Over(Raised(code))
  }

  function NextPhase(phase: Phase, op: Op): Phase {
    match op
    case LookedUp(_, lookup) => Found(lookup, if phase.Look? then Start else Fd)
    case StartedLookup(_, r) => Unless(r, Loop)
    case ServerTick(r) => Unless(r, PumpDht)
    case DhtTick(r) => Unless(r, LookAgain)
    case ServerFd => Timeout
    case DhtTimeout => Loop
    case MetricsRead(sent, received, r) => Unless(r, Over(Snapshot(sent, received)))
    case _ => phase
  }

  /** What a command may answer: what its last call made of it, or not found at the deadline. */
  predicate MayAnswer(phase: Phase, answer: Answer) {
    phase == Over(answer) || (phase.Loop? && answer.NotFound?)
  }

  predicate OwnerEnabled(s: State, a: OwnerAction) {
    var owner := s.thread.owner;
    match a
    case CheckStop => owner.Checking?
    case Take => owner.Servicing? && s.box.queue != [] && s.box.queue[0].Ask?
    case NoCommand => owner.Servicing? && s.box.queue == []
    case Pump(op) => owner.Handling? && MayCall(owner.query, owner.phase, op)
    case Answering(answer) => owner.Handling? && MayAnswer(owner.phase, answer)
    case PostAnswer => owner.Posting?
    case TickServer(_) => owner.Ticking?
    case TickDht(_, _) => owner.TickingDht?
    case DoAnnounce(_) => owner.Announcing?
    case Wait => owner.Waiting?
    case DoCloseDht => owner.ClosingDht?
    case DoCloseServer => owner.ClosingServer?
  }

  /** Where the finally starts. */
  function Leave(c: Config): Owner {
    if c.hasDht then ClosingDht else ClosingServer
  }

  /** The library call a step makes, if any. */
  function OpsOf(o: Owner, a: OwnerAction): seq<Op> {
    match a
    case Pump(op) => [op]
    case TickServer(r) => [ServerTick(r)]
    case TickDht(_, r) => [DhtTick(r)]
    case DoAnnounce(r) => if o.Announcing? then [Announce(o.now, r)] else []
    case Wait => [ServerTimeout]
    case DoCloseDht => [CloseDht]
    case DoCloseServer => [CloseServer]
    case _ => []
  }

  predicate Due(c: Config, t: Timer, now: int) {
    c.announces && now - t.last >= 60
  }

  function NextOwner(c: Config, o: Owner, t: Timer, stop: bool, a: OwnerAction): Owner
    requires a.Answering? || a.Pump? ==> o.Handling?
  {
    match a
    case CheckStop => if stop then Leave(c) else Servicing
    case NoCommand => Ticking
    case Pump(op) => o.(phase := NextPhase(o.phase, op))
    case Answering(answer) => Posting(Callback(o.token, answer))
    case TickServer(r) => if r.Failed? then Leave(c) else if c.hasDht then TickingDht else Waiting
    case TickDht(now, r) => if r.Failed? then Leave(c) else if Due(c, t, now) then Announcing(now) else Waiting
    case DoAnnounce(r) => if r.Failed? then Leave(c) else Waiting
    case Wait => Checking
    case DoCloseDht => ClosingServer
    case DoCloseServer => Finished
    case _ => o
  }

  function NextTimer(c: Config, o: Owner, t: Timer, a: OwnerAction): Timer
    requires a.DoAnnounce? ==> o.Announcing?
  {
    match a
    case TickDht(now, r) => if r.Failed? || Due(c, t, now) then t else t.(readings := t.readings + [now])
    case DoAnnounce(r) => Timer(if r.Failed? then t.last else o.now, t.readings + [o.now], t.announced + [o.now])
    case _ => t
  }

  predicate Raises(a: OwnerAction) {
    (a.TickServer? || a.TickDht? || a.DoAnnounce?) && a.r.Failed?
  }

  /** The steps in which the owner touches only its own state and the C library. */
  function ThreadStep(c: Config, h: Thread, stop: bool, a: OwnerAction): Thread
    requires a.Answering? || a.Pump? ==> h.owner.Handling?
    requires a.DoAnnounce? ==> h.owner.Announcing?
  {
    Thread(NextOwner(c, h.owner, h.timer, stop, a),
           h.faulted || Raises(a),
           h.ops + OpsOf(h.owner, a),
           if a.Pump? then h.hand + [a.op] else h.hand,
           if a.Answering? then h.served + [Served(h.owner.query, h.hand, a.answer)] else h.served,
           NextTimer(c, h.owner, h.timer, a))
  }

  function OwnerStep(c: Config, s: State, a: OwnerAction): State
    requires OwnerEnabled(s, a)
  {
    match a
    case Take =>
      var cmd := s.box.queue[0];
      s.(box := TakeHead(s.box), thread := s.thread.(owner := Handling(cmd.token, cmd.query, FirstPhase(cmd.query)), hand := []))
    case PostAnswer =>
      s.(box := Post(s.box, s.thread.owner.callback), thread := s.thread.(owner := Servicing))
    case _ => s.(thread := ThreadStep(c, s.thread, s.stop, a))
  }

  predicate Enabled(s: State, a: Action) {
    match a
    case Task(task) => TaskEnabled(s, task)
    case Own(own) => OwnerEnabled(s, own)
  }

  function Apply(c: Config, s: State, a: Action): State
    requires Enabled(s, a)
  {
    match a
    case Task(task) => TaskStep(c, s, task)
    case Own(own) => OwnerStep(c, s, own)
  }

  predicate Runs(c: Config, s: State, acts: seq<Action>)
    decreases |acts|
  {
    acts == [] || (Enabled(s, acts[0]) && Runs(c, Apply(c, s, acts[0]), acts[1..]))
  }

  function Run(c: Config, s: State, acts: seq<Action>): State
    requires Runs(c, s, acts)
    decreases |acts|
  {
    if acts == [] then s else Run(c, Apply(c, s, acts[0]), acts[1..])
  }

  lemma {:induction false} RunSnoc(c: Config, s: State, acts: seq<Action>, a: Action)
    requires Runs(c, s, acts) && Enabled(Run(c, s, acts), a)
    ensures Runs(c, s, acts + [a]) && Run(c, s, acts + [a]) == Apply(c, Run(c, s, acts), a)
    decreases |acts|
  {
    if acts == [] {
      assert acts + [a] == [a] && [a][1..] == [];
    } else {
      assert (acts + [a])[0] == acts[0] && (acts + [a])[1..] == acts[1..] + [a];
      RunSnoc(c, Apply(c, s, acts[0]), acts[1..], a);
    }
  }

  // The invariant

  function Hand(o: Owner): seq<nat> {
    match o
    case Handling(token, _, _) => [token]
    case Posting(cb) => [cb.token]
    case _ => []
  }

  predicate Leaving(o: Owner) {
    o.ClosingDht? || o.ClosingServer? || o.Finished?
  }

  /** The closes made so far. */
  function ClosesBy(c: Config, o: Owner): seq<Op> {
    match o
    case ClosingServer => if c.hasDht then [CloseDht] else []
    case Finished => if c.hasDht then [CloseDht, CloseServer] else [CloseServer]
    case _ => []
  }

  /** A call that closes nothing, and needs the dht only if there is one. */
  predicate Ordinary(c: Config, op: Op) {
    !Closes(op) && (OnDht(op) ==> c.hasDht)
  }

  /** The calls into the library are ordinary ones and then the closes. */
  predicate OpsRight(c: Config, o: Owner, ops: seq<Op>) {
    var n := |ops| - |ClosesBy(c, o)|;
    && n >= 0 && ops[n..] == ClosesBy(c, o)
    && (forall i :: 0 <= i < n ==> Ordinary(c, ops[i]))
    && (o.TickingDht? || o.Announcing? || o.ClosingDht? || o.Handling? ==> c.hasDht)
  }

  predicate ServedRight(h: Thread, asked: seq<Query>, answers: seq<Answer>) {
    && |answers| <= |h.served| <= |asked|
    && (forall i :: 0 <= i < |h.served| ==> h.served[i].query == asked[i])
    && (forall i :: 0 <= i < |answers| ==> answers[i] == h.served[i].answer)
    && match h.owner
       case Handling(token, query, _) => |h.served| == |answers| == token < |asked| && query == asked[token]
       case Posting(cb) => |h.served| == |answers| + 1 && cb.token == |answers| && cb.answer == h.served[|answers|].answer
       case _ => |h.served| == |answers|
  }

  predicate TimerRight(c: Config, o: Owner, t: Timer) {
    if !c.announces then t.announced == [] && !o.Announcing?
    else
      && t.announced == Announce.Times(t.readings)
      && (!Leaving(o) ==> t.last == Announce.Last(t.readings))
      && (o.Announcing? ==> o.now - t.last >= 60)
  }

  ghost predicate ThreadRight(c: Config, h: Thread, asked: seq<Query>, answers: seq<Answer>) {
    OpsRight(c, h.owner, h.ops) && ServedRight(h, asked, answers) && TimerRight(c, h.owner, h.timer)
  }

  ghost predicate Inv(c: Config, s: State) {
    && BoxInv(s.box, Hand(s.thread.owner)) && !HasStop(s.box)
    && (!c.hasDht ==> s.box.asked == [])
    && ThreadRight(c, s.thread, s.box.asked, s.box.answers)
    && (Leaving(s.thread.owner) ==> s.stop || s.thread.faulted)
  }

  lemma TaskKeepsInv(c: Config, s: State, a: TaskAction)
    requires Inv(c, s) && TaskEnabled(s, a)
    ensures Inv(c, TaskStep(c, s, a))
  {
    var hand := Hand(s.thread.owner);
    match a
    case Call(query) => if c.hasDht { SubmitKeepsBox(s.box, hand, query); }
    case Cancel(token) => CancelKeepsBox(s.box, hand, token);
    case RunCallback => RunHeadKeepsBox(s.box, hand);
    case Shutdown =>
  }

  lemma OpsStep(c: Config, o: Owner, t: Timer, stop: bool, ops: seq<Op>, a: OwnerAction)
    requires OpsRight(c, o, ops)
    requires match a
             case CheckStop => o.Checking?
             case NoCommand => o.Servicing?
             case Pump(op) => o.Handling? && !Closes(op)
             case Answering(_) => o.Handling?
             case TickServer(_) => o.Ticking?
             case TickDht(_, _) => o.TickingDht?
             case DoAnnounce(_) => o.Announcing?
             case Wait => o.Waiting?
             case DoCloseDht => o.ClosingDht?
             case DoCloseServer => o.ClosingServer?
             case _ => false
    ensures OpsRight(c, NextOwner(c, o, t, stop, a), ops + OpsOf(o, a))
  {
    var next, made := NextOwner(c, o, t, stop, a), OpsOf(o, a);
    if a.DoCloseDht? || a.DoCloseServer? {
      OpsClose(c, o, next, ops, made);
    } else {
      assert made == [] || (|made| == 1 && Ordinary(c, made[0]));
      OpsGoOn(c, o, next, ops, made);
    }
  }

  lemma OpsGoOn(c: Config, o: Owner, next: Owner, ops: seq<Op>, made: seq<Op>)
    requires OpsRight(c, o, ops) && ClosesBy(c, o) == [] && ClosesBy(c, next) == []
    requires forall i :: 0 <= i < |made| ==> Ordinary(c, made[i])
    requires next.TickingDht? || next.Announcing? || next.ClosingDht? || next.Handling? ==> c.hasDht
    ensures OpsRight(c, next, ops + made)
  {
  }

  lemma OpsClose(c: Config, o: Owner, next: Owner, ops: seq<Op>, made: seq<Op>)
    requires OpsRight(c, o, ops) && ClosesBy(c, o) + made == ClosesBy(c, next)
    requires next.ClosingServer? || next.Finished?
    ensures OpsRight(c, next, ops + made)
  {
    var n := |ops| - |ClosesBy(c, o)|;
    assert (ops + made)[n..] == ops[n..] + made;
  }

  lemma TimerStep(c: Config, o: Owner, t: Timer, stop: bool, a: OwnerAction)
    requires TimerRight(c, o, t) && !Leaving(o)
    requires (a.Answering? || a.Pump? ==> o.Handling?) && (a.DoAnnounce? <==> o.Announcing?)
    ensures TimerRight(c, NextOwner(c, o, t, stop, a), NextTimer(c, o, t, a))
  {
    if a.TickDht? {
      Announce.OneMore(t.readings, a.now);
      if !Due(c, t, a.now) { assert Announce.Times(t.readings) + [] == Announce.Times(t.readings); }
    } else if a.DoAnnounce? {
      Announce.OneMore(t.readings, o.now);
    }
  }

  lemma ServedStep(c: Config, h: Thread, stop: bool, a: OwnerAction, asked: seq<Query>, answers: seq<Answer>)
    requires ServedRight(h, asked, answers)
    requires (a.Answering? || a.Pump? ==> h.owner.Handling?) && (a.DoAnnounce? ==> h.owner.Announcing?)
    requires !a.Answering? && !a.Pump? ==> Hand(h.owner) == [] && !a.Take? && !a.PostAnswer?
    ensures ServedRight(ThreadStep(c, h, stop, a), asked, answers)
    ensures Hand(ThreadStep(c, h, stop, a).owner) == Hand(h.owner)
  {
    var t := ThreadStep(c, h, stop, a);
    if !a.Answering? {
      assert t.served == h.served && (!a.Pump? ==> Hand(t.owner) == []);
    }
  }

  lemma ThreadKeepsRight(c: Config, s: State, a: OwnerAction)
    requires OwnerEnabled(s, a) && !a.Take? && !a.PostAnswer?
    requires ThreadRight(c, s.thread, s.box.asked, s.box.answers)
    ensures ThreadRight(c, ThreadStep(c, s.thread, s.stop, a), s.box.asked, s.box.answers)
    ensures Hand(ThreadStep(c, s.thread, s.stop, a).owner) == Hand(s.thread.owner)
  {
    var h := s.thread;
    ServedStep(c, h, s.stop, a, s.box.asked, s.box.answers);
    OpsStep(c, h.owner, h.timer, s.stop, h.ops, a);
    if !Leaving(h.owner) {
      TimerStep(c, h.owner, h.timer, s.stop, a);
    }
  }

  /** The loop is left for a reason. */
  lemma LeavingHasCause(c: Config, h: Thread, stop: bool, a: OwnerAction)
    requires (a.Answering? || a.Pump? ==> h.owner.Handling?) && (a.DoAnnounce? ==> h.owner.Announcing?)
    requires a.DoCloseDht? || a.DoCloseServer? ==> Leaving(h.owner)
    requires Leaving(h.owner) ==> stop || h.faulted
    ensures var t := ThreadStep(c, h, stop, a); Leaving(t.owner) ==> stop || t.faulted
  {
  }

  lemma ThreadKeepsInv(c: Config, s: State, a: OwnerAction)
    requires Inv(c, s) && OwnerEnabled(s, a) && !a.Take? && !a.PostAnswer?
    ensures Inv(c, OwnerStep(c, s, a))
  {
    var t := OwnerStep(c, s, a);
    assert t == s.(thread := ThreadStep(c, s.thread, s.stop, a));
    ThreadKeepsRight(c, s, a);
    LeavingHasCause(c, s.thread, s.stop, a);
    assert ThreadRight(c, t.thread, t.box.asked, t.box.answers);
  }

  lemma TakeThread(c: Config, h: Thread, asked: seq<Query>, answers: seq<Answer>)
    requires ThreadRight(c, h, asked, answers) && h.owner.Servicing? && c.hasDht && |answers| < |asked|
    ensures var query := asked[|answers|];
            ThreadRight(c, h.(owner := Handling(|answers|, query, FirstPhase(query)), hand := []), asked, answers)
  {
  }

  lemma PostThread(c: Config, h: Thread, asked: seq<Query>, answers: seq<Answer>)
    requires ThreadRight(c, h, asked, answers) && h.owner.Posting?
    ensures ThreadRight(c, h.(owner := Servicing), asked, answers + [h.owner.callback.answer])
  {
  }

  lemma MailKeepsInv(c: Config, s: State, a: OwnerAction)
    requires Inv(c, s) && OwnerEnabled(s, a) && (a.Take? || a.PostAnswer?)
    ensures Inv(c, OwnerStep(c, s, a))
  {
    if a.Take? {
      TakeKeepsBox(s.box);
      assert s.box.asked != [];
      TakeThread(c, s.thread, s.box.asked, s.box.answers);
    } else {
      PostKeepsBox(s.box, s.thread.owner.callback);
      PostThread(c, s.thread, s.box.asked, s.box.answers);
    }
  }

  lemma InvKept(c: Config, s: State, a: Action)
    requires Inv(c, s) && Enabled(s, a)
    ensures Inv(c, Apply(c, s, a))
  {
    match a
    case Task(task) => TaskKeepsInv(c, s, task);
    case Own(own) => if own.Take? || own.PostAnswer? { MailKeepsInv(c, s, own); } else { ThreadKeepsInv(c, s, own); }
  }

  lemma {:induction false} InvRun(c: Config, s: State, acts: seq<Action>)
    requires Inv(c, s) && Runs(c, s, acts)
    ensures Inv(c, Run(c, s, acts))
    decreases |acts|
  {
    if acts != [] {
      InvKept(c, s, acts[0]);
      InvRun(c, Apply(c, s, acts[0]), acts[1..]);
    }
  }

  // What a command's calls say about its answer, without the phases

  predicate Throws(op: Op) {
    match op
    case ServerTick(r) => r.Failed?
    case DhtTick(r) => r.Failed?
    case Announce(_, r) => r.Failed?
    case StartedLookup(_, r) => r.Failed?
    case MetricsRead(_, _, r) => r.Failed?
    case LookedUp(_, lookup) => lookup.LookupRaises?
    case _ => false
  }

  function CodeOf(op: Op): int
    requires Throws(op)
  {
    match op
    case ServerTick(r) => r.code
    case DhtTick(r) => r.code
    case Announce(_, r) => r.code
    case StartedLookup(_, r) => r.code
    case MetricsRead(_, _, r) => r.code
    case LookedUp(_, lookup) => lookup.code
  }

  predicate Finds(op: Op) {
    op.LookedUp? && op.lookup.Hit?
  }

  /** The k-th call of a resolve: look, start the lookup, then rounds of tick, tick, look and wait. */
  predicate Scheduled(target: nat, k: nat, op: Op) {
    if k == 0 then op.LookedUp? && op.target == target
    else if k == 1 then op.StartedLookup? && op.target == target
    else
      match (k - 2) % 5
      case 0 => op.ServerTick?
      case 1 => op.DhtTick?
      case 2 => op.LookedUp? && op.target == target
      case 3 => op.ServerFd?
      case _ => op.DhtTimeout?
  }

  /** The calls of a resolve so far: on schedule, and stopping at the first hit or raise. */
  predicate Resolves(target: nat, calls: seq<Op>) {
    && (forall k :: 0 <= k < |calls| ==> Scheduled(target, k, calls[k]))
    && (forall k :: 0 <= k < |calls| - 1 ==> !Throws(calls[k]) && !Finds(calls[k]))
  }

  /** The answer a command owes for its calls; NotFound is owed only at the deadline check. */
  predicate Answers(query: Query, calls: seq<Op>, answer: Answer) {
    calls != [] &&
    var last := calls[|calls| - 1];
    match query
    case Resolve(target, _) =>
      && Resolves(target, calls)
      && if Finds(last) then answer == Address(last.lookup.address)
         else if Throws(last) then answer == Raised(CodeOf(last))
         else answer.NotFound? && |calls| >= 2 && (|calls| - 2) % 5 == 0
    case Metrics =>
      && |calls| == 1 && last.MetricsRead?
      && answer == if Throws(last) then Raised(CodeOf(last)) else Snapshot(last.sent, last.received)
  }

  /** How far a command in hand has come, and how its calls tell. */
  predicate PhaseRight(query: Query, calls: seq<Op>, phase: Phase) {
    if phase.Over? then Answers(query, calls, phase.answer) && (Finds(calls[|calls| - 1]) || Throws(calls[|calls| - 1]) || query.Metrics?)
    else if query.Metrics? then phase.ReadMetrics? && calls == []
    else
      && Resolves(query.target, calls)
      && (calls != [] ==> !Throws(calls[|calls| - 1]) && !Finds(calls[|calls| - 1]))
      && match phase
         case Look => calls == []
         case Start => |calls| == 1
         case Loop => |calls| >= 2 && (|calls| - 2) % 5 == 0
         case PumpDht => |calls| >= 2 && (|calls| - 2) % 5 == 1
         case LookAgain => |calls| >= 2 && (|calls| - 2) % 5 == 2
         case Fd => |calls| >= 2 && (|calls| - 2) % 5 == 3
         case Timeout => |calls| >= 2 && (|calls| - 2) % 5 == 4
         case _ => false
  }

  lemma PhaseStep(query: Query, calls: seq<Op>, phase: Phase, op: Op)
    requires PhaseRight(query, calls, phase) && MayCall(query, phase, op)
    ensures PhaseRight(query, calls + [op], NextPhase(phase, op))
  {
    var now := calls + [op];
    assert forall k :: 0 <= k < |calls| ==> now[k] == calls[k];
    assert now[|calls|] == op;
  }

  lemma PhaseAnswers(query: Query, calls: seq<Op>, phase: Phase, answer: Answer)
    requires PhaseRight(query, calls, phase) && MayAnswer(phase, answer)
    ensures Answers(query, calls, answer)
  {
  }

  /** The command in hand, if any, fits its calls, which are the last ones made. */
  predicate HandRight(h: Thread) {
    h.owner.Handling? ==> PhaseRight(h.owner.query, h.hand, h.owner.phase) && IsTail(h.hand, h.ops)
  }

  predicate IsTail(hand: seq<Op>, ops: seq<Op>) {
    |hand| <= |ops| && ops[|ops| - |hand|..] == hand
  }

  predicate CallsRight(served: seq<Served>) {
    forall i :: 0 <= i < |served| ==> Answers(served[i].query, served[i].calls, served[i].answer)
  }

  /** Every command carried out, and the one in hand, fit their calls. */
  predicate AnswersRight(h: Thread) {
    HandRight(h) && CallsRight(h.served)
  }

  lemma TailGrows(hand: seq<Op>, ops: seq<Op>, op: Op)
    requires IsTail(hand, ops)
    ensures IsTail(hand + [op], ops + [op])
  {
    assert (ops + [op])[|ops| - |hand|..] == hand + [op];
  }

  lemma PumpKeeps(c: Config, h: Thread, stop: bool, op: Op)
    requires HandRight(h) && h.owner.Handling? && MayCall(h.owner.query, h.owner.phase, op)
    ensures HandRight(ThreadStep(c, h, stop, Pump(op))) && ThreadStep(c, h, stop, Pump(op)).served == h.served
  {
    var t := ThreadStep(c, h, stop, Pump(op));
    assert t.hand == h.hand + [op] && t.ops == h.ops + [op];
    assert t.owner == Handling(h.owner.token, h.owner.query, NextPhase(h.owner.phase, op));
    PhaseStep(h.owner.query, h.hand, h.owner.phase, op);
    TailGrows(h.hand, h.ops, op);
    assert PhaseRight(t.owner.query, t.hand, t.owner.phase);
  }

  lemma AnsweringKeeps(c: Config, h: Thread, stop: bool, answer: Answer)
    requires AnswersRight(h) && h.owner.Handling? && MayAnswer(h.owner.phase, answer)
    ensures AnswersRight(ThreadStep(c, h, stop, Answering(answer)))
  {
    PhaseAnswers(h.owner.query, h.hand, h.owner.phase, answer);
  }

  lemma ElsewhereKeeps(c: Config, s: State, a: OwnerAction)
    requires AnswersRight(s.thread) && OwnerEnabled(s, a) && !a.Pump? && !a.Answering?
    ensures AnswersRight(OwnerStep(c, s, a).thread)
  {
    var t := OwnerStep(c, s, a).thread;
    assert t.served == s.thread.served;
    if a.Take? {
      assert t.ops[|t.ops|..] == [];
    } else {
      assert !t.owner.Handling?;
    }
  }

  lemma AnswersKept(c: Config, s: State, a: Action)
    requires AnswersRight(s.thread) && Enabled(s, a)
    ensures AnswersRight(Apply(c, s, a).thread)
  {
    match a
    case Task(_) => assert Apply(c, s, a).thread == s.thread;
    case Own(own) =>
      match own {
        case Pump(op) => PumpKeeps(c, s.thread, s.stop, op);
        case Answering(answer) => AnsweringKeeps(c, s.thread, s.stop, answer);
        case _ => ElsewhereKeeps(c, s, own);
      }
  }

  lemma {:induction false} AnswersRun(c: Config, s: State, acts: seq<Action>)
    requires AnswersRight(s.thread) && Runs(c, s, acts)
    ensures AnswersRight(Run(c, s, acts).thread)
    decreases |acts|
  {
    if acts != [] {
      AnswersKept(c, s, acts[0]);
      AnswersRun(c, Apply(c, s, acts[0]), acts[1..]);
    }
  }
}
