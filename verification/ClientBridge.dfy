/**
 The actor bridge behind AsyncClient (nwep/runtime.py:309-434) as a transition system.

 Tasks of one event loop enqueue commands, one owner thread serves them, results come
 back through the loop's callback queue, and a future may be cancelled between any two
 steps.  A run is a sequence of actions; every theorem about it is about every run.
 */
module ClientBridge {
  import opened Mailbox

  datatype Request = Request(verb: int, path: string, body: seq<bv8>, headers: seq<(string, string)>)

  datatype Response = Response(status: string, body: seq<bv8>)

  datatype Error = NetworkClosed | Transport(code: int)

  /** What one blocking client.send does: it returns or it raises. */
  datatype Outcome = Returned(response: Response) | Raised(error: Error)

  /** One call the C client observed. */
  datatype Call = Call(request: Request, outcome: Outcome)

  /** Where the owner thread is. */
  datatype Owner =
    | Waiting                                           // in commands.get
    | Idle                                              // get timed out, about to tick
    | Serving(token: nat, request: Request)             // holds a command, about to call client.send
    | Posting(callback: Callback<Outcome>)              // about to hand the outcome to the loop
    | Draining                                          // in _drain_pending
    | Rejecting(callback: Callback<Outcome>)            // _drain_pending, about to hand over a rejection
    | Closing                                           // drained, about to call client.close
    | Finished

  type Mail = Box<Request, Outcome>

  /** faulted: a tick raised, so the owner left its loop by exception.  calls is a history. */
  datatype Thread = Thread(owner: Owner, clientOpen: bool, faulted: bool, calls: seq<Call>)

  datatype State = State(box: Mail, closed: bool, thread: Thread)

  datatype TaskAction = CallSend(request: Request) | CallClose | Cancel(token: nat) | RunCallback

  datatype OwnerAction =
    | OwnerGet
    | OwnerTimeout
    | OwnerTick(ok: bool)
    | OwnerCall(outcome: Outcome)
    | OwnerPost
    | DrainGet
    | DrainEmpty
    | DrainPost
    | OwnerClose

  datatype Action = Task(task: TaskAction) | Own(own: OwnerAction)

  const CLOSING_ERROR: Outcome := Raised(NetworkClosed)

  function Init(): State {
    State(EmptyBox(), false, Thread(Waiting, true, false, []))
  }

  predicate TaskEnabled(s: State, a: TaskAction) {
    match a
    case CallSend(_) => true
    case CallClose => true
    case Cancel(token) => token < |s.box.futures|
    case RunCallback => CanRun(s.box)
  }

  function TaskStep(s: State, a: TaskAction): State
    requires TaskEnabled(s, a)
  {
    match a
    case CallSend(request) => if s.closed then s else s.(box := Submit(s.box, request))
    case CallClose => if s.closed then s else s.(closed := true, box := PutStop(s.box))
    case Cancel(token) => s.(box := CancelAt(s.box, token))
    case RunCallback => s.(box := RunHead(s.box))
  }

  predicate OwnerEnabled(s: State, a: OwnerAction) {
    match a
    case OwnerGet => s.thread.owner.Waiting? && s.box.queue != []
    case OwnerTimeout => s.thread.owner.Waiting? && s.box.queue == []
    case OwnerTick(_) => s.thread.owner.Idle?
    case OwnerCall(_) => s.thread.owner.Serving?
    case OwnerPost => s.thread.owner.Posting?
    case DrainGet => s.thread.owner.Draining? && s.box.queue != []
    case DrainEmpty => s.thread.owner.Draining? && s.box.queue == []
    case DrainPost => s.thread.owner.Rejecting?
    case OwnerClose => s.thread.owner.Closing?
  }

  function OwnerStep(s: State, a: OwnerAction): State
    requires OwnerEnabled(s, a)
  {
    var h := s.thread;
    match a
    case OwnerGet =>
      var cmd := s.box.queue[0];
      s.(box := TakeHead(s.box),
         thread := h.(owner := if cmd.Stop? then Draining else Serving(cmd.token, cmd.query)))
    case OwnerTimeout => s.(thread := h.(owner := Idle))
    case OwnerTick(ok) =>
      s.(thread := if ok then h.(owner := Waiting) else h.(owner := Draining, faulted := true))
    case OwnerCall(outcome) =>
      s.(thread := h.(calls := h.calls + [Call(h.owner.request, outcome)],
                      owner := Posting(Callback(h.owner.token, outcome))))
    case OwnerPost => s.(box := Post(s.box, h.owner.callback), thread := h.(owner := Waiting))
    case DrainGet =>
      var cmd := s.box.queue[0];
      s.(box := TakeHead(s.box),
         thread := h.(owner := if cmd.Stop? then Draining else Rejecting(Callback(cmd.token, CLOSING_ERROR))))
    case DrainEmpty => s.(thread := h.(owner := Closing))
    case DrainPost => s.(box := Post(s.box, h.owner.callback), thread := h.(owner := Draining))
    case OwnerClose => s.(thread := h.(clientOpen := false, owner := Finished))
  }

  predicate Enabled(s: State, a: Action) {
    match a
    case Task(task) => TaskEnabled(s, task)
    case Own(own) => OwnerEnabled(s, own)
  }

  function Apply(s: State, a: Action): State
    requires Enabled(s, a)
  {
    match a
    case Task(task) => TaskStep(s, task)
    case Own(own) => OwnerStep(s, own)
  }

  // Runs

  predicate Runs(s: State, acts: seq<Action>)
    decreases |acts|
  {
    acts == [] || (Enabled(s, acts[0]) && Runs(Apply(s, acts[0]), acts[1..]))
  }

  function Run(s: State, acts: seq<Action>): State
    requires Runs(s, acts)
    decreases |acts|
  {
    if acts == [] then s else Run(Apply(s, acts[0]), acts[1..])
  }

  lemma {:induction false} RunConcat(s: State, xs: seq<Action>, ys: seq<Action>)
    requires Runs(s, xs) && Runs(Run(s, xs), ys)
    ensures Runs(s, xs + ys) && Run(s, xs + ys) == Run(Run(s, xs), ys)
    decreases |xs|
  {
    if xs == [] {
      assert xs + ys == ys;
    } else {
      assert (xs + ys)[0] == xs[0] && (xs + ys)[1..] == xs[1..] + ys;
      RunConcat(Apply(s, xs[0]), xs[1..], ys);
    }
  }

  // The invariant

  /** The token the owner holds between taking it and answering it. */
  function Hand(o: Owner): seq<nat> {
    match o
    case Serving(token, _) => [token]
    case Posting(cb) => [cb.token]
    case Rejecting(cb) => [cb.token]
    case _ => []
  }

  predicate InLoop(o: Owner) {
    o.Waiting? || o.Idle? || o.Serving? || o.Posting?
  }

  /** The outcome owed to a token: its own call's outcome, or the shutdown rejection. */
  function Owed(calls: seq<Call>, token: nat): Outcome {
    if token < |calls| then calls[token].outcome else CLOSING_ERROR
  }

  /** Calls follow the order of submission, and every answer handed out is the one owed. */
  predicate AnswersRight(asked: seq<Request>, answers: seq<Outcome>, calls: seq<Call>) {
    && |calls| <= |asked|
    && (forall i :: 0 <= i < |calls| ==> calls[i].request == asked[i])
    && (forall i :: 0 <= i < |answers| ==> answers[i] == Owed(calls, i))
  }

  predicate ThreadRight(h: Thread, asked: seq<Request>, answered: nat) {
    && h.clientOpen == !h.owner.Finished?
    && match h.owner
       case Waiting => |h.calls| == answered
       case Idle => |h.calls| == answered
       case Serving(token, request) => |h.calls| == answered == token < |asked| && request == asked[token]
       case Posting(cb) => |h.calls| == answered + 1 && cb.token == answered && cb.answer == h.calls[answered].outcome
       case Rejecting(cb) => h.faulted && |h.calls| <= answered && cb.answer == CLOSING_ERROR
       case _ => |h.calls| <= answered
  }

  /** How the loop was, or will be, left. */
  predicate ExitRight(s: State) {
    && (HasStop(s.box) ==> s.closed)
    && if InLoop(s.thread.owner) then !s.thread.faulted && (s.closed ==> HasStop(s.box))
       else s.thread.faulted || (s.closed && s.box.queue == [] && |s.thread.calls| == |s.box.futures|)
  }

  ghost predicate Inv(s: State) {
    && BoxInv(s.box, Hand(s.thread.owner))
    && AnswersRight(s.box.asked, s.box.answers, s.thread.calls)
    && ThreadRight(s.thread, s.box.asked, |s.box.answers|)
    && ExitRight(s)
  }

  lemma TaskKeepsInv(s: State, a: TaskAction)
    requires Inv(s) && TaskEnabled(s, a)
    ensures Inv(TaskStep(s, a))
  {
    var hand := Hand(s.thread.owner);
    match a
    case CallSend(request) => if !s.closed { SubmitKeepsBox(s.box, hand, request); }
    case CallClose => if !s.closed { PutStopKeepsBox(s.box, hand); }
    case Cancel(token) => CancelKeepsBox(s.box, hand, token);
    case RunCallback => RunHeadKeepsBox(s.box, hand);
  }

  lemma CallKeepsInv(s: State, outcome: Outcome)
    requires Inv(s) && s.thread.owner.Serving?
    ensures Inv(OwnerStep(s, OwnerCall(outcome)))
  {
    var t := OwnerStep(s, OwnerCall(outcome));
    assert AnswersRight(t.box.asked, t.box.answers, t.thread.calls);
  }

  lemma PostKeepsInv(s: State, a: OwnerAction)
    requires Inv(s) && OwnerEnabled(s, a) && (a.OwnerPost? || a.DrainPost?)
    ensures Inv(OwnerStep(s, a))
  {
    var t := OwnerStep(s, a);
    PostKeepsBox(s.box, s.thread.owner.callback);
    assert AnswersRight(t.box.asked, t.box.answers, t.thread.calls);
  }

  lemma OwnPaceKeepsInv(s: State, a: OwnerAction)
    requires Inv(s) && OwnerEnabled(s, a)
    requires a.OwnerTimeout? || a.OwnerTick? || a.DrainEmpty? || a.OwnerClose?
    ensures Inv(OwnerStep(s, a))
  {
  }

  lemma OwnerKeepsInv(s: State, a: OwnerAction)
    requires Inv(s) && OwnerEnabled(s, a)
    ensures Inv(OwnerStep(s, a))
  {
    match a
    case OwnerGet => TakeKeepsBox(s.box);
    case DrainGet => TakeKeepsBox(s.box);
    case OwnerCall(outcome) => CallKeepsInv(s, outcome);
    case OwnerPost => PostKeepsInv(s, a);
    case DrainPost => PostKeepsInv(s, a);
    case _ => OwnPaceKeepsInv(s, a);
  }

  lemma InvKept(s: State, a: Action)
    requires Inv(s) && Enabled(s, a)
    ensures Inv(Apply(s, a))
  {
    match a
    case Task(task) => TaskKeepsInv(s, task);
    case Own(own) => OwnerKeepsInv(s, own);
  }

  lemma {:induction false} InvRun(s: State, acts: seq<Action>)
    requires Inv(s) && Runs(s, acts)
    ensures Inv(Run(s, acts))
    decreases |acts|
  {
    if acts != [] {
      InvKept(s, acts[0]);
      InvRun(Apply(s, acts[0]), acts[1..]);
    }
  }
}
