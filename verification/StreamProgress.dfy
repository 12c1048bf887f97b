/**
 The streaming pipeline gets there: as long as nothing adverse happens, some useful step is
 always possible until recv has returned None over the whole body, and no schedule of useful
 steps is longer than a bound known in advance.  So back-pressure, chunking and the two queues
 cannot deadlock or spin.
 */
module StreamProgress {
  import opened Pump
  import opened StreamPipeline
  import opened StreamTheorems

  /** The end mark, once taken, was taken by the consumer and not by the thread of a cancelled recv. */
  predicate EndKept(s: State) {
    |s.task.kept| <= |s.reader.enqueued|
    && forall i :: 0 <= i < |s.task.kept| && s.reader.enqueued[i].End? ==> s.task.kept[i]
  }

  /** Nothing that keeps the end from coming so far: no tampering, failure, aclose or swallowed end. */
  predicate Smooth(c: Config, s: State) {
    && c.capacity > 0
    && !s.link.tampered && !s.task.stop && EndKept(s)
    && (s.origin.sender.ended ==> s.origin.trailer.Some?)
    && (s.reader.owner.Ending? ==> s.reader.owner.item.End?)
    && (forall i :: 0 <= i < |s.reader.enqueued| ==> !s.reader.enqueued[i].Failure?)
  }

  /** Steps that move data or the owner forward. */
  predicate Useful(a: Action) {
    match a
    case Server(call) => (call.Sent? && call.took > 0) || call.Ended?
    case Net(net) => !net.Tamper?
    case Own(own) =>
      match own {
        case OwnerKey(ok) => ok
        case OwnerRecv(n, ended) => n > 0 || ended
        case OwnerRecvFails(_) => false
        case OwnerVerify(ok) => ok
        case _ => true
      }
    case Task(task) => task.Recv? || task.Take?
  }

  function OwnerWeight(o: Owner): nat {
    match o
    case Starting => 12
    case Checking => 11
    case Receiving => 10
    case Got(_, ended) => if ended then 9 else 14
    case Verifying => 6
    case Ending(_) => 5
    case ClosingStream => 2
    case ClosingClient => 1
    case Finished => 0
  }

  function OriginWeight(c: Config, o: Origin): nat
    requires o.sender.sent <= |c.body|
  {
    9 * (|c.body| - o.sender.sent) + (if o.sender.ended then 0 else 1)
  }

  function LinkWeight(l: Transport): nat {
    8 * |l.wire| + 7 * |l.rx| + (if l.finSeen then 0 else 1)
  }

  /** How much is left to do. */
  function Left(c: Config, s: State): nat
    requires Inv(c, s)
  {
    OriginWeight(c, s.origin) + LinkWeight(s.link) + OwnerWeight(s.reader.owner)
    + ConsumerWeight(s.reader.enqueued, s.task)
  }

  lemma UsefulServer(c: Config, s: State, call: Call)
    requires Inv(c, s) && Smooth(c, s) && ServerEnabled(c, s, call) && Useful(Server(call))
    ensures Inv(c, ServerStep(c, s, call)) && Smooth(c, ServerStep(c, s, call))
    ensures Left(c, ServerStep(c, s, call)) < Left(c, s)
  {
    ServerKeepsInv(c, s, call);
  }

  lemma UsefulNet(c: Config, s: State, a: NetAction)
    requires Inv(c, s) && Smooth(c, s) && NetEnabled(c, s, a) && Useful(Net(a))
    ensures Inv(c, NetStep(c, s, a)) && Smooth(c, NetStep(c, s, a))
    ensures Left(c, NetStep(c, s, a)) < Left(c, s)
  {
    TransportKeepsInv(c, s, a);
  }

  lemma UsefulRead(c: Config, s: State, n: nat, ended: bool)
    requires Inv(c, s) && Smooth(c, s) && OwnerEnabled(s, OwnerRecv(n, ended)) && Useful(Own(OwnerRecv(n, ended)))
    ensures Inv(c, ReadStep(s, n, ended)) && Smooth(c, ReadStep(s, n, ended))
    ensures Left(c, ReadStep(s, n, ended)) < Left(c, s)
  {
    ReadKeepsInv(c, s, n, ended);
  }

  /** The owner's own part: its weight and two per item put. */
  lemma ReaderMoves(r: Reader, a: OwnerAction)
    requires !a.OwnerRecv? && Useful(Own(a))
    requires forall i :: 0 <= i < |r.enqueued| ==> !r.enqueued[i].Failure?
    requires r.owner.Ending? ==> r.owner.item.End?
    requires match a
             case OwnerKey(_) => r.owner.Starting?
             case OwnerCheck => r.owner.Checking?
             case OwnerPut => r.owner.Got?
             case OwnerVerify(_) => r.owner.Verifying?
             case OwnerEnd => r.owner.Ending?
             case OwnerCloseStream => r.owner.ClosingStream?
             case OwnerCloseClient => r.owner.ClosingClient?
             case _ => false
    ensures var t := ReaderStep(r, false, a);
            && OwnerWeight(t.owner) + 2 * |t.enqueued| < OwnerWeight(r.owner) + 2 * |r.enqueued|
            && |t.enqueued| >= |r.enqueued|
            && (forall i :: 0 <= i < |t.enqueued| ==> !t.enqueued[i].Failure?)
            && (t.owner.Ending? ==> t.owner.item.End?)
  {
  }

  lemma UsefulOwner(c: Config, s: State, a: OwnerAction)
    requires Inv(c, s) && Smooth(c, s) && OwnerEnabled(s, a) && Useful(Own(a)) && !a.OwnerRecv?
    ensures Inv(c, OwnerStep(s, a)) && Smooth(c, OwnerStep(s, a))
    ensures Left(c, OwnerStep(s, a)) < Left(c, s)
  {
    InvKept(c, s, Own(a));
    ReaderMoves(s.reader, a);
    var t := OwnerStep(s, a);
    assert t.origin == s.origin && t.link == s.link && t.task == s.task && t.reader == ReaderStep(s.reader, false, a);
  }

  /** The consumer's own part: two per item not yet taken, and one while it does not wait. */
  function ConsumerWeight(items: seq<Item>, k: Consumer): nat
    requires |k.kept| <= |items|
  {
    2 * (|items| - |k.kept|) + (if k.waiting then 0 else 1)
  }

  lemma ConsumerMoves(s: State, a: TaskAction)
    requires TaskEnabled(s, a) && (a.Recv? || a.Take?) && |s.task.kept| <= |s.reader.enqueued|
    ensures var k := TaskStep(s, a).task;
            |k.kept| <= |s.reader.enqueued| && ConsumerWeight(s.reader.enqueued, k) < ConsumerWeight(s.reader.enqueued, s.task)
    ensures EndKept(s) ==> EndKept(TaskStep(s, a))
    ensures TaskStep(s, a) == s.(task := TaskStep(s, a).task) && TaskStep(s, a).task.stop == s.task.stop
  {
  }

  lemma UsefulTask(c: Config, s: State, a: TaskAction)
    requires Inv(c, s) && Smooth(c, s) && TaskEnabled(s, a) && Useful(Task(a))
    ensures Inv(c, TaskStep(s, a)) && Smooth(c, TaskStep(s, a))
    ensures Left(c, TaskStep(s, a)) < Left(c, s)
  {
    TaskKeepsInv(c, s, a);
    ConsumerMoves(s, a);
  }

  lemma UsefulStep(c: Config, s: State, a: Action)
    requires Inv(c, s) && Smooth(c, s) && Enabled(c, s, a) && Useful(a)
    ensures Inv(c, Apply(c, s, a)) && Smooth(c, Apply(c, s, a)) && Left(c, Apply(c, s, a)) < Left(c, s)
  {
    match a
    case Server(call) => UsefulServer(c, s, call);
    case Net(net) => UsefulNet(c, s, net);
    case Own(own) => if own.OwnerRecv? { UsefulRead(c, s, own.n, own.ended); } else { UsefulOwner(c, s, own); }
    case Task(task) => UsefulTask(c, s, task);
  }

  predicate AllUseful(acts: seq<Action>) {
    forall i :: 0 <= i < |acts| ==> Useful(acts[i])
  }

  /** No schedule of useful steps, however interleaved, is longer than what is left to do. */
  lemma {:induction false} UsefulRunsEnd(c: Config, s: State, acts: seq<Action>)
    requires Inv(c, s) && Smooth(c, s) && Runs(c, s, acts) && AllUseful(acts)
    ensures Inv(c, Run(c, s, acts)) && Smooth(c, Run(c, s, acts))
    ensures |acts| + Left(c, Run(c, s, acts)) <= Left(c, s)
    decreases |acts|
  {
    if acts != [] {
      UsefulStep(c, s, acts[0]);
      assert forall i :: 0 <= i < |acts[1..]| ==> acts[1..][i] == acts[i + 1];
      UsefulRunsEnd(c, Apply(c, s, acts[0]), acts[1..]);
    }
  }

  /** The server can take a byte of the body, or end it. */
  lemma ServerCanMove(c: Config, s: State) returns (call: Call)
    requires Inv(c, s) && c.capacity > 0 && !s.origin.sender.ended && s.link.wire == [] && s.link.rx == []
    ensures ServerEnabled(c, s, call) && Useful(Server(call))
  {
    var sent := s.origin.sender.sent;
    call := if sent < |c.body| then Sent(c.key, c.body[sent..], 1) else Ended(c.key);
  }

  /** An owner blocked in recv on an empty queue is always fed by somebody. */
  lemma ReceivingCanMove(c: Config, s: State) returns (a: Action)
    requires Inv(c, s) && Smooth(c, s) && s.reader.owner.Receiving?
    ensures Enabled(c, s, a) && Useful(a)
  {
    if s.link.rx != [] {
      a := Own(OwnerRecv(1, false));
    } else if s.link.finSeen {
      a := Own(OwnerRecv(0, true));
    } else if s.link.wire != [] {
      a := Net(Deliver(1));
    } else if s.origin.trailer.Some? {
      a := Net(DeliverFin);
    } else {
      var call := ServerCanMove(c, s);
      a := Server(call);
    }
  }

  /** The trailer of an honest transfer verifies. */
  lemma VerifyWillSucceed(c: Config, s: State)
    requires Inv(c, s) && Smooth(c, s) && s.reader.owner.Verifying?
    ensures OwnerEnabled(s, OwnerVerify(true))
  {
    assert s.reader.recvd + s.link.rx + s.link.wire == s.reader.recvd;
    assert c.body[..|c.body|] == c.body;
  }

  /** If everything has been put and taken, the end was taken too. */
  lemma AllTakenMeansEnd(c: Config, s: State)
    requires Inv(c, s) && Smooth(c, s) && Closed(s.reader.owner) && |s.task.kept| == |s.reader.enqueued|
    ensures s.task.sawEnd
  {
    var items := s.reader.enqueued;
    assert Terminated(items) && items[|items| - 1].End? && s.task.kept[|items| - 1];
  }

  /** Until recv has returned None, some useful step is possible. */
  lemma NeverStuck(c: Config, s: State) returns (a: Action)
    requires Inv(c, s) && Smooth(c, s) && !s.task.sawEnd
    ensures Enabled(c, s, a) && Useful(a)
  {
    if !s.task.waiting {
      a := Task(Recv);
    } else if |s.task.kept| < |s.reader.enqueued| {
      a := Task(Take);
    } else {
      match s.reader.owner
      case Starting => a := Own(OwnerKey(true));
      case Checking => a := Own(OwnerCheck);
      case Receiving => a := ReceivingCanMove(c, s);
      case Got(_, _) => a := Own(OwnerPut);
      case Verifying => VerifyWillSucceed(c, s); a := Own(OwnerVerify(true));
      case Ending(_) => a := Own(OwnerEnd);
      case _ => AllTakenMeansEnd(c, s); assert false;
    }
  }

  /** Where a run has lost a chunk. */
  predicate HasLost(s: State)
    requires |s.task.kept| <= |s.reader.enqueued|
  {
    LostChunk(s.reader.enqueued, s.task.kept)
  }

  /** What is lost stays lost, and a useful step loses nothing more. */
  lemma LossStep(c: Config, s: State, a: Action)
    requires Enabled(c, s, a) && |s.task.kept| <= |s.reader.enqueued| && Useful(a)
    ensures |Apply(c, s, a).task.kept| <= |Apply(c, s, a).reader.enqueued|
    ensures HasLost(Apply(c, s, a)) <==> HasLost(s)
  {
    var t := Apply(c, s, a);
    assert s.reader.enqueued <= t.reader.enqueued && s.task.kept <= t.task.kept;
    if HasLost(s) {
      var i :| 0 <= i < |s.task.kept| && !s.task.kept[i] && s.reader.enqueued[i].Chunk?;
      assert !t.task.kept[i] && t.reader.enqueued[i].Chunk?;
    }
    if HasLost(t) {
      var i :| 0 <= i < |t.task.kept| && !t.task.kept[i] && t.reader.enqueued[i].Chunk?;
      assert i < |s.task.kept| && !s.task.kept[i] && s.reader.enqueued[i].Chunk?;
    }
  }

  /**
   Every schedule that keeps taking useful steps ends with recv returning None, and then the
   consumer holds the whole body if and only if no chunk had been swallowed before.
   */
  lemma {:induction false} Completes(c: Config, acts: seq<Action>) returns (more: seq<Action>)
    requires Runs(c, Init(), acts) && Smooth(c, Run(c, Init(), acts))
    ensures Runs(c, Init(), more) && acts <= more
    ensures Run(c, Init(), more).task.sawEnd
    ensures Run(c, Init(), more).task.received == c.body <==> !HasLost(Run(c, Init(), acts))
    decreases (InvRun(c, Init(), acts); Left(c, Run(c, Init(), acts)))
  {
    InvRun(c, Init(), acts);
    var s := Run(c, Init(), acts);
    if s.task.sawEnd {
      more := acts;
      VerifiedEndIsWholeBody(c, acts);
    } else {
      var a := NeverStuck(c, s);
      UsefulStep(c, s, a);
      LossStep(c, s, a);
      var longer := Extend(c, acts, a);
      more := Completes(c, longer);
    }
  }

  // Shutdown

  function StopRank(o: Owner): nat {
    match o
    case Receiving => 7
    case Got(_, _) => 6
    case Verifying => 5
    case Starting => 4
    case Ending(_) => 3
    case Checking => 3
    case ClosingStream => 2
    case ClosingClient => 1
    case Finished => 0
  }

  /** Receives the owner may still begin once stop is set: the one it is about to make. */
  function RecvsLeft(o: Owner): nat {
    if o.Receiving? then 1 else 0
  }

  function IsRecv(a: Action): nat {
    if a.Own? && (a.own.OwnerRecv? || a.own.OwnerRecvFails?) then 1 else 0
  }

  function OwnerSteps(acts: seq<Action>): nat {
    if acts == [] then 0 else (if acts[0].Own? then 1 else 0) + OwnerSteps(acts[1..])
  }

  function Recvs(acts: seq<Action>): nat {
    if acts == [] then 0 else IsRecv(acts[0]) + Recvs(acts[1..])
  }

  lemma StopStep(c: Config, s: State, a: Action)
    requires Enabled(c, s, a) && s.task.stop
    ensures var t := Apply(c, s, a);
            && t.task.stop
            && (if a.Own? then StopRank(t.reader.owner) < StopRank(s.reader.owner) else t.reader.owner == s.reader.owner)
            && RecvsLeft(t.reader.owner) + IsRecv(a) <= RecvsLeft(s.reader.owner)
  {
  }

  /**
   After aclose the owner makes at most the receive it was about to make, and boundedly many steps
   in all, however long the body goes on; stop stays set.
   */
  lemma {:induction false} OwnerTerminates(c: Config, s: State, acts: seq<Action>)
    requires Runs(c, s, acts) && s.task.stop
    ensures var t := Run(c, s, acts);
            && t.task.stop
            && OwnerSteps(acts) + StopRank(t.reader.owner) <= StopRank(s.reader.owner)
            && Recvs(acts) + RecvsLeft(t.reader.owner) <= RecvsLeft(s.reader.owner)
    decreases |acts|
  {
    if acts != [] {
      StopStep(c, s, acts[0]);
      OwnerTerminates(c, Apply(c, s, acts[0]), acts[1..]);
    }
  }

  /** The owner leaves at a stop check exactly when stop is set, and otherwise receives. */
  lemma CheckLeavesIff(c: Config, acts: seq<Action>)
    requires Runs(c, Init(), acts) && OwnerEnabled(Run(c, Init(), acts), OwnerCheck)
    ensures var s := Run(c, Init(), acts); var t := OwnerStep(s, OwnerCheck);
            && (Closed(t.reader.owner) <==> s.task.stop)
            && (OwnerEnabled(t, OwnerRecvFails(0)) <==> !s.task.stop)
  {
  }

  /** Until it is finished the owner always has a step of its own: a receive may fail, and so may verify. */
  lemma OwnerNeverStuck(s: State) returns (a: OwnerAction)
    requires !s.reader.owner.Finished?
    ensures OwnerEnabled(s, a)
  {
    match s.reader.owner
    case Starting => a := OwnerKey(true);
    case Checking => a := OwnerCheck;
    case Receiving => a := OwnerRecvFails(0);
    case Got(_, _) => a := OwnerPut;
    case Verifying => a := OwnerVerify(false);
    case Ending(_) => a := OwnerEnd;
    case ClosingStream => a := OwnerCloseStream;
    case ClosingClient => a := OwnerCloseClient;
  }

  // What an abandoned thread can do

  /** Bytes of the body that nobody has taken from the queue yet. */
  predicate Outstanding(c: Config, s: State)
    requires |s.task.kept| <= |s.reader.enqueued|
  {
    |BytesUpTo(s.reader.enqueued, |s.task.kept|)| < |c.body|
  }

  /** With everything queued already taken, a useful step takes nothing. */
  lemma NothingTaken(c: Config, s: State, a: Action)
    requires Inv(c, s) && Enabled(c, s, a) && Useful(a) && |s.task.kept| == |s.reader.enqueued|
    ensures var t := Apply(c, s, a);
            && t.task.kept == s.task.kept && t.task.orphans == s.task.orphans
            && |t.task.kept| <= |t.reader.enqueued| && Outstanding(c, t) == Outstanding(c, s)
  {
    var t := Apply(c, s, a);
    assert s.reader.enqueued <= t.reader.enqueued;
    BytesUpToGrows(s.reader.enqueued, t.reader.enqueued[|s.reader.enqueued|..], |s.task.kept|);
    assert t.reader.enqueued == s.reader.enqueued + t.reader.enqueued[|s.reader.enqueued|..];
  }

  /** The item after the last taken one is a chunk while bytes are outstanding. */
  lemma NextIsChunk(c: Config, s: State)
    requires Inv(c, s) && Smooth(c, s) && Outstanding(c, s) && |s.task.kept| < |s.reader.enqueued|
    ensures s.reader.enqueued[|s.task.kept|].Chunk?
  {
    EndBehindBody(c, s.reader, s.task.stop);
  }

  /** Some continuation brings the next chunk to the head of the queue. */
  lemma {:induction false} ChunkArrives(c: Config, acts: seq<Action>) returns (more: seq<Action>)
    requires Runs(c, Init(), acts) && Smooth(c, Run(c, Init(), acts))
    requires var s := Run(c, Init(), acts);
             |s.task.kept| <= |s.reader.enqueued| && Outstanding(c, s)
    ensures Runs(c, Init(), more) && acts <= more
    ensures var s, t := Run(c, Init(), acts), Run(c, Init(), more);
            && Smooth(c, t) && t.task.orphans == s.task.orphans
            && |t.task.kept| < |t.reader.enqueued| && t.reader.enqueued[|t.task.kept|].Chunk?
    decreases (InvRun(c, Init(), acts); Left(c, Run(c, Init(), acts)))
  {
    InvRun(c, Init(), acts);
    var s := Run(c, Init(), acts);
    if |s.task.kept| < |s.reader.enqueued| {
      NextIsChunk(c, s);
      more := acts;
    } else {
      NotYetOver(c, s);
      var a := NeverStuck(c, s);
      UsefulStep(c, s, a);
      NothingTaken(c, s, a);
      var longer := Extend(c, acts, a);
      more := ChunkArrives(c, longer);
    }
  }

  lemma NotYetOver(c: Config, s: State)
    requires Inv(c, s) && Outstanding(c, s)
    ensures !s.task.sawEnd
  {
    if s.task.sawEnd {
      var i :| 0 <= i < |s.task.kept| && s.task.kept[i] && s.reader.enqueued[i].End?;
      EndBehindBody(c, s.reader, s.task.stop);
      BytesUpToMonotone(s.reader.enqueued, i, |s.task.kept|);
    }
  }

  /** A thread left behind by a cancelled recv takes a chunk, which is then lost. */
  lemma SwallowStep(s: State)
    requires s.task.orphans > 0 && |s.task.kept| < |s.reader.enqueued| && s.reader.enqueued[|s.task.kept|].Chunk?
    ensures TaskEnabled(s, OrphanTake)
    ensures var t := TaskStep(s, OrphanTake); |t.task.kept| <= |t.reader.enqueued| && HasLost(t)
    ensures EndKept(s) ==> EndKept(TaskStep(s, OrphanTake))
  {
    var t := TaskStep(s, OrphanTake);
    assert !t.task.kept[|s.task.kept|] && t.reader.enqueued[|s.task.kept|].Chunk?;
  }

  /**
   The converse of the consumer's guarantee: from any state with such a thread left behind and
   bytes outstanding, some continuation still returns None, over an incomplete body.
   */
  lemma AbandonedCanLose(c: Config, acts: seq<Action>) returns (more: seq<Action>)
    requires Runs(c, Init(), acts) && Smooth(c, Run(c, Init(), acts))
    requires var s := Run(c, Init(), acts);
             s.task.orphans > 0 && |s.task.kept| <= |s.reader.enqueued| && Outstanding(c, s)
    ensures Runs(c, Init(), more) && acts <= more
    ensures Run(c, Init(), more).task.sawEnd && Run(c, Init(), more).task.received != c.body
  {
    var ready := ChunkArrives(c, acts);
    var s := Run(c, Init(), ready);
    SwallowStep(s);
    var swallowed := Extend(c, ready, Task(OrphanTake));
    more := Completes(c, swallowed);
  }
}
