/** What every run of the streaming pipeline guarantees to the coroutine that awaits recv. */
module StreamTheorems {
  import opened Pump
  import opened StreamPipeline
  import PumpRuns

  /**
   Whatever the schedule, and even if the network tampers: when recv has returned None, the
   consumer holds exactly the body, if and only if no cancelled recv swallowed a chunk.
   */
  lemma VerifiedEndIsWholeBody(c: Config, acts: seq<Action>)
    requires Runs(c, Init(), acts) && Run(c, Init(), acts).task.sawEnd
    ensures |Run(c, Init(), acts).task.kept| <= |Run(c, Init(), acts).reader.enqueued|
    ensures var s := Run(c, Init(), acts);
            s.task.received == c.body <==> !LostChunk(s.reader.enqueued, s.task.kept)
  {
    InvRun(c, Init(), acts);
    var s := Run(c, Init(), acts);
    var items, kept := s.reader.enqueued, s.task.kept;
    var i :| 0 <= i < |kept| && kept[i] && items[i].End?;
    assert i == |items| - 1 == |kept| - 1;
    KeptAllIffNoneLost(items, kept);
    assert BytesUpTo(items, |items|) + [] == BytesUpTo(items, |items|);
  }

  lemma NoneLostIsPrefix(c: Config, s: State)
    requires ItemsRight(c, s.reader, s.task.stop) && ConsumerRight(s.reader.enqueued, s.task)
    requires !LostChunk(s.reader.enqueued, s.task.kept)
    ensures s.task.received <= s.reader.recvd
  {
    KeptAllIffNoneLost(s.reader.enqueued, s.task.kept);
    BytesUpToMonotone(s.reader.enqueued, |s.task.kept|, |s.reader.enqueued|);
  }

  /** On an untampered network, what the consumer holds is a prefix of the body at every moment. */
  lemma AlwaysAPrefix(c: Config, acts: seq<Action>)
    requires Runs(c, Init(), acts)
    requires var s := Run(c, Init(), acts);
             !s.link.tampered && |s.task.kept| <= |s.reader.enqueued| && !LostChunk(s.reader.enqueued, s.task.kept)
    ensures Run(c, Init(), acts).task.received <= c.body
  {
    InvRun(c, Init(), acts);
    var s := Run(c, Init(), acts);
    NoneLostIsPrefix(c, s);
    assert s.reader.recvd <= s.reader.recvd + s.link.rx + s.link.wire == c.body[..s.origin.sender.sent];
  }

  /** Cancelling a recv whose executor thread already waits in queue.get leaves that thread behind. */
  predicate Abandons(a: Action) {
    a.Task? && a.task.CancelRecv? && a.task.started
  }

  predicate NeverAbandons(acts: seq<Action>) {
    forall i :: 0 <= i < |acts| ==> !Abandons(acts[i])
  }

  predicate AllKept(s: State) {
    s.task.orphans == 0 && |s.task.kept| <= |s.reader.enqueued|
    && forall i :: 0 <= i < |s.task.kept| ==> s.task.kept[i]
  }

  lemma AllKeptStep(c: Config, s: State, a: Action)
    requires Enabled(c, s, a) && AllKept(s)
    requires !Abandons(a)
    ensures AllKept(Apply(c, s, a))
  {
  }

  lemma {:induction false} NoOrphans(c: Config, s: State, acts: seq<Action>)
    requires Runs(c, s, acts) && NeverAbandons(acts) && AllKept(s)
    ensures AllKept(Run(c, s, acts))
    decreases |acts|
  {
    if acts != [] {
      AllKeptStep(c, s, acts[0]);
      assert forall i :: 0 <= i < |acts[1..]| ==> acts[1..][i] == acts[i + 1];
      NoOrphans(c, Apply(c, s, acts[0]), acts[1..]);
    }
  }

  /**
   A consumer that cancels a recv at most before its executor thread has started: None means the
   whole body, anything before is a prefix.
   */
  lemma UncancelledConsumer(c: Config, acts: seq<Action>)
    requires Runs(c, Init(), acts) && NeverAbandons(acts)
    ensures var s := Run(c, Init(), acts);
            (s.task.sawEnd ==> s.task.received == c.body) && (!s.link.tampered ==> s.task.received <= c.body)
  {
    NoOrphans(c, Init(), acts);
    var s := Run(c, Init(), acts);
    assert !LostChunk(s.reader.enqueued, s.task.kept);
    if s.task.sawEnd { VerifiedEndIsWholeBody(c, acts); }
    if !s.link.tampered { AlwaysAPrefix(c, acts); }
  }

  lemma {:induction false} RunSnoc(c: Config, s: State, acts: seq<Action>, a: Action)
    requires Runs(c, s, acts) && Enabled(c, Run(c, s, acts), a)
    ensures Runs(c, s, acts + [a]) && Run(c, s, acts + [a]) == Apply(c, Run(c, s, acts), a)
    decreases |acts|
  {
    if acts == [] {
      assert acts + [a] == [a] && [a][1..] == [];
    } else {
      assert (acts + [a])[0] == acts[0] && (acts + [a])[1..] == acts[1..] + [a];
      RunSnoc(c, Apply(c, s, acts[0]), acts[1..], a);
    }
  }

  lemma Extend(c: Config, acts: seq<Action>, a: Action) returns (longer: seq<Action>)
    requires Runs(c, Init(), acts) && Enabled(c, Run(c, Init(), acts), a)
    ensures longer == acts + [a]
    ensures Runs(c, Init(), longer) && Run(c, Init(), longer) == Apply(c, Run(c, Init(), acts), a)
  {
    RunSnoc(c, Init(), acts, a);
    longer := acts + [a];
  }

  /** A one-byte body, sent, ended and arrived at the client. */
  lemma OneByteArrived(c: Config) returns (acts: seq<Action>)
    requires |c.body| == 1 && c.capacity >= 1
    ensures Runs(c, Init(), acts)
    ensures Run(c, Init(), acts) == State(Origin(Sender(1, true), c.body, Some(c.body)), Link([], c.body, true, false),
                                          Init().reader, Init().task)
  {
    assert c.body[0..] == c.body == c.body[..1] && c.body[1..] == [] && [] + c.body == c.body;
    acts := Extend(c, [], Server(Sent(c.key, c.body, 1)));
    acts := Extend(c, acts, Server(Ended(c.key)));
    acts := Extend(c, acts, Net(Deliver(1)));
    acts := Extend(c, acts, Net(DeliverFin));
  }

  /** The same, after the owner has queued that byte. */
  lemma OneByteQueued(c: Config) returns (acts: seq<Action>)
    requires |c.body| == 1 && c.capacity >= 1
    ensures Runs(c, Init(), acts)
    ensures Run(c, Init(), acts) == State(Origin(Sender(1, true), c.body, Some(c.body)), Link([], [], true, false),
                                          Reader(Verifying, c.body, [Chunk(c.body)], true, true), Init().task)
  {
    acts := OneByteArrived(c);
    assert c.body[..1] == c.body && c.body[1..] == [] && [] + c.body == c.body;
    acts := Extend(c, acts, Own(OwnerKey(true)));
    acts := Extend(c, acts, Own(OwnerCheck));
    acts := Extend(c, acts, Own(OwnerRecv(1, true)));
    acts := Extend(c, acts, Own(OwnerPut));
  }

  /** Cancelling a recv can lose data silently: the next recv then returns None over an incomplete body. */
  lemma CancelledRecvLosesChunk(c: Config) returns (acts: seq<Action>)
    requires |c.body| == 1 && c.capacity >= 1
    ensures Runs(c, Init(), acts)
    ensures var s := Run(c, Init(), acts); s.task.sawEnd && s.task.received != c.body && !s.link.tampered
  {
    acts := OneByteQueued(c);
    acts := Extend(c, acts, Task(Recv));
    acts := Extend(c, acts, Task(CancelRecv(true)));
    acts := Extend(c, acts, Task(OrphanTake));
    acts := Extend(c, acts, Own(OwnerVerify(true)));
    acts := Extend(c, acts, Own(OwnerEnd));
    acts := Extend(c, acts, Task(Recv));
    acts := Extend(c, acts, Task(Take));
  }

  /**
   The items ever put are non-empty chunks, then at most one terminal.  END stands only behind
   the whole body.  An owner that is leaving without a terminal was asked to stop.
   */
  lemma ItemLanguage(c: Config, acts: seq<Action>)
    requires Runs(c, Init(), acts)
    ensures var items := Run(c, Init(), acts).reader.enqueued;
            && (forall i :: 0 <= i < |items| && items[i].Chunk? ==> items[i].bytes != [])
            && (forall i :: 0 <= i < |items| && !items[i].Chunk? ==> i == |items| - 1)
            && (forall i :: 0 <= i < |items| && items[i].End? ==> BytesUpTo(items, i) == c.body)
    ensures var s := Run(c, Init(), acts);
            Closed(s.reader.owner) && (forall i :: 0 <= i < |s.reader.enqueued| ==> s.reader.enqueued[i].Chunk?)
            ==> s.task.stop
  {
    InvRun(c, Init(), acts);
    var s := Run(c, Init(), acts);
    EndBehindBody(c, s.reader, s.task.stop);
  }

  lemma EndBehindBody(c: Config, r: Reader, stop: bool)
    requires ItemsRight(c, r, stop)
    ensures forall i :: 0 <= i < |r.enqueued| && r.enqueued[i].End? ==> BytesUpTo(r.enqueued, i) == c.body
  {
    var items := r.enqueued;
    if items != [] && items[|items| - 1].End? {
      var n := |items| - 1;
      assert Terminated(items) && Closed(r.owner);
      assert BytesUpTo(items, n + 1) == BytesUpTo(items, n) + BytesIn(items[n]);
      assert BytesUpTo(items, n) + [] + [] == BytesUpTo(items, n);
    }
  }

  // Why it ends

  /** The terminal a step of the owner calls for. */
  function CauseOf(a: Action): Option<Item> {
    if !a.Own? then None
    else match a.own
      case OwnerKey(ok) => if ok then None else Some(Failure(Network(0)))
      case OwnerRecvFails(code) => Some(Failure(Network(code)))
      case OwnerVerify(ok) => Some(if ok then End else Failure(BadTrailer))
      case _ => None
  }

  function Cause(acts: seq<Action>): Option<Item> {
    if acts == [] then None else if CauseOf(acts[0]).Some? then CauseOf(acts[0]) else Cause(acts[1..])
  }

  /** The terminal item, put or about to be put. */
  function Terminal(r: Reader): Option<Item> {
    if r.owner.Ending? then Some(r.owner.item)
    else if Terminated(r.enqueued) then Some(r.enqueued[|r.enqueued| - 1]) else None
  }

  /** Some stop check of the run finds stop set. */
  predicate StopSeen(c: Config, s: State, acts: seq<Action>)
    requires Runs(c, s, acts)
    decreases |acts|
  {
    acts != [] && ((acts[0] == Own(OwnerCheck) && s.task.stop) || StopSeen(c, Apply(c, s, acts[0]), acts[1..]))
  }

  predicate HasLeft(o: Owner) {
    o.Ending? || Closed(o)
  }

  lemma TerminalStep(c: Config, s: State, a: Action)
    requires Inv(c, s) && Enabled(c, s, a)
    ensures Terminal(Apply(c, s, a).reader) == if Terminal(s.reader).Some? then Terminal(s.reader) else CauseOf(a)
    ensures HasLeft(Apply(c, s, a).reader.owner) <==>
              HasLeft(s.reader.owner) || (a == Own(OwnerCheck) && s.task.stop) || CauseOf(a).Some?
  {
  }

  /**
   The terminal item tells exactly what happened: END for a verify that passed, a bad trailer for
   one that raised, the network's error for a raising recv or peer key.  And the owner leaves its
   loop exactly for such a cause or for a stop check that found stop set.
   */
  lemma {:induction false} TerminalMeans(c: Config, s: State, acts: seq<Action>)
    requires Inv(c, s) && Runs(c, s, acts)
    ensures Terminal(Run(c, s, acts).reader) == if Terminal(s.reader).Some? then Terminal(s.reader) else Cause(acts)
    ensures HasLeft(Run(c, s, acts).reader.owner) <==> HasLeft(s.reader.owner) || StopSeen(c, s, acts) || Cause(acts).Some?
    decreases |acts|
  {
    if acts != [] {
      TerminalStep(c, s, acts[0]);
      InvKept(c, s, acts[0]);
      TerminalMeans(c, Apply(c, s, acts[0]), acts[1..]);
    }
  }

  /** stop is set exactly by aclose. */
  lemma {:induction false} StopIff(c: Config, s: State, acts: seq<Action>)
    requires Runs(c, s, acts)
    ensures Run(c, s, acts).task.stop <==> s.task.stop || Task(AClose) in acts
    decreases |acts|
  {
    if acts != [] {
      StopIff(c, Apply(c, s, acts[0]), acts[1..]);
      assert acts == [acts[0]] + acts[1..];
    }
  }

  lemma ClosedStep(c: Config, s: State, a: Action)
    requires Enabled(c, s, a) && Closed(s.reader.owner) && |s.task.kept| == |s.reader.enqueued|
    ensures var t := Apply(c, s, a);
            Closed(t.reader.owner) && t.reader.enqueued == s.reader.enqueued && t.task.kept == s.task.kept
            && t.task.received == s.task.received && t.task.sawEnd == s.task.sawEnd
  {
  }

  /**
   When the owner is leaving and every item has been taken, nothing more is ever put, so a
   further recv waits for ever.
   */
  lemma {:induction false} NothingAfterTerminal(c: Config, s: State, acts: seq<Action>)
    requires Runs(c, s, acts) && Closed(s.reader.owner) && |s.task.kept| == |s.reader.enqueued|
    ensures var t := Run(c, s, acts);
            && !TaskEnabled(t, Take)
            && t.reader.enqueued == s.reader.enqueued && t.task.kept == s.task.kept
            && t.task.received == s.task.received && t.task.sawEnd == s.task.sawEnd
    decreases |acts|
  {
    if acts != [] {
      ClosedStep(c, s, acts[0]);
      NothingAfterTerminal(c, Apply(c, s, acts[0]), acts[1..]);
    }
  }

  /** The stream handle is closed once, while its connection is open; the connection after it, once. */
  lemma StreamClosedBeforeClient(c: Config, acts: seq<Action>)
    requires Runs(c, Init(), acts)
    ensures var s := Run(c, Init(), acts);
            && (OwnerEnabled(s, OwnerCloseStream) ==> s.reader.streamOpen && s.reader.clientOpen)
            && (OwnerEnabled(s, OwnerCloseClient) ==> !s.reader.streamOpen && s.reader.clientOpen)
            && (s.reader.owner.Receiving? || s.reader.owner.Verifying? ==> s.reader.streamOpen && s.reader.clientOpen)
            && (!s.reader.clientOpen ==> !s.reader.streamOpen)
  {
    InvRun(c, Init(), acts);
  }

  // The pump's calls are what feeds the pipeline

  function CallsFor(calls: seq<Call>, key: Key): seq<Call> {
    if calls == [] then []
    else (if calls[0].key == key then [calls[0]] else []) + CallsFor(calls[1..], key)
  }

  /** The server calls inside a run of the pipeline. */
  function Fed(acts: seq<Action>): seq<Call> {
    if acts == [] then [] else (if acts[0].Server? then [acts[0].call] else []) + Fed(acts[1..])
  }

  lemma SenderStep(c: Config, s: State, a: Action)
    requires Enabled(c, s, a)
    ensures if a.Server? then a.call.key == c.key && Next(c.body, s.origin.sender, a.call) == Some(Apply(c, s, a).origin.sender)
            else Apply(c, s, a).origin.sender == s.origin.sender
  {
  }

  lemma TrackCons(body: seq<bv8>, call: Call, rest: seq<Call>, key: Key, from: Sender)
    requires call.key == key && Next(body, from, call).Some?
    ensures Track(body, [call] + rest, key, from) == Track(body, rest, key, Next(body, from, call).value)
  {
    assert ([call] + rest)[1..] == rest;
  }

  /** What the pipeline was fed is a history one stream of the pump may have. */
  lemma {:induction false} FedIsTracked(c: Config, s: State, acts: seq<Action>)
    requires Runs(c, s, acts)
    ensures Track(c.body, Fed(acts), c.key, s.origin.sender) == Some(Run(c, s, acts).origin.sender)
    decreases |acts|
  {
    if acts != [] {
      SenderStep(c, s, acts[0]);
      FedIsTracked(c, Apply(c, s, acts[0]), acts[1..]);
      if acts[0].Server? {
        TrackCons(c.body, acts[0].call, Fed(acts[1..]), c.key, s.origin.sender);
      } else {
        assert [] + Fed(acts[1..]) == Fed(acts[1..]);
      }
    }
  }

  /** The calls on one stream tell its whole story. */
  lemma {:induction false} OwnCallsTrack(body: seq<bv8>, calls: seq<Call>, key: Key, from: Sender)
    ensures Track(body, CallsFor(calls, key), key, from) == Track(body, calls, key, from)
  {
    if calls != [] {
      var rest := CallsFor(calls[1..], key);
      if calls[0].key == key {
        assert ([calls[0]] + rest)[1..] == rest;
        match Next(body, from, calls[0])
        case None =>
        case Some(t) => OwnCallsTrack(body, calls[1..], key, t);
      } else {
        assert [] + rest == rest;
        OwnCallsTrack(body, calls[1..], key, from);
      }
    }
  }

  /**
   An interleaving the environment can produce: everybody but the server moves as the pipeline
   lets them, and of each send the transport takes no more than it has room for just then.
   Whether the server's calls are in order is not asked.
   */
  predicate Fitting(c: Config, s: State, acts: seq<Action>)
    decreases |acts|
  {
    acts == [] ||
    (var a := acts[0];
     && (if a.Server? then a.call.key == c.key && (a.call.Sent? ==> |s.link.wire| + |s.link.rx| + a.call.took <= c.capacity)
         else Enabled(c, s, a))
     && (Enabled(c, s, a) ==> Fitting(c, Apply(c, s, a), acts[1..])))
  }

  /** However it is interleaved, a permitted history of one stream drives the pipeline. */
  lemma {:induction false} TrackedCanFeed(c: Config, s: State, acts: seq<Action>)
    requires Fitting(c, s, acts) && Track(c.body, Fed(acts), c.key, s.origin.sender).Some?
    ensures Runs(c, s, acts)
    decreases |acts|
  {
    if acts != [] {
      var a, rest := acts[0], Fed(acts[1..]);
      if a.Server? {
        assert ([a.call] + rest)[1..] == rest;
        assert Next(c.body, s.origin.sender, a.call).Some?;
      } else {
        assert [] + rest == rest;
      }
      SenderStep(c, s, a);
      TrackedCanFeed(c, Apply(c, s, a), acts[1..]);
    }
  }

  /**
   The pump and the pipeline together, for every transport capacity.  Take any run of the
   multi-stream pump and one of its streams; interleave that stream's calls, as far as they have
   been made, in any way with network, owner and consumer.  That is a run of the pipeline, so
   recv returns None only over the whole body, and what came before is a prefix of it.
   */
  lemma PumpFeedsPipeline(c: Config, steps: seq<PumpRuns.Step>, acts: seq<Action>)
    requires PumpRuns.Runs(c.body, PumpRuns.Init(), steps) && Fitting(c, Init(), acts)
    requires Fed(acts) <= CallsFor(PumpRuns.Run(c.body, PumpRuns.Init(), steps).calls, c.key)
    ensures Runs(c, Init(), acts)
    ensures var s := Run(c, Init(), acts);
            && |s.task.kept| <= |s.reader.enqueued|
            && (s.task.sawEnd ==> (s.task.received == c.body <==> !LostChunk(s.reader.enqueued, s.task.kept)))
            && (NeverAbandons(acts) && s.task.sawEnd ==> s.task.received == c.body)
            && (NeverAbandons(acts) && !s.link.tampered ==> s.task.received <= c.body)
  {
    var calls := PumpRuns.Run(c.body, PumpRuns.Init(), steps).calls;
    PumpRuns.PumpSafe(c.body, steps, c.key);
    OwnCallsTrack(c.body, calls, c.key, PumpRuns.START);
    var own := CallsFor(calls, c.key);
    assert own == Fed(acts) + own[|Fed(acts)|..];
    TrackConcat(c.body, Fed(acts), own[|Fed(acts)|..], c.key, PumpRuns.START);
    TrackedCanFeed(c, Init(), acts);
    InvRun(c, Init(), acts);
    if Run(c, Init(), acts).task.sawEnd { VerifiedEndIsWholeBody(c, acts); }
    if NeverAbandons(acts) { UncancelledConsumer(c, acts); }
  }
}
