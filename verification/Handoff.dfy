/**
 How the three managed runtimes start (nwep/runtime.py:217-239, 387-397, 535-554 and the awaits
 at 263, 419, 578).  An owner thread builds its handles and offers them through a concurrent
 future; the awaiting task may be cancelled at any moment, and the cancellation of the awaited
 asyncio future reaches the concurrent one only in a later step of the event loop.

 Closed means closed by the owner's own code; finalizers of what it drops are not steps here.
 */
module Handoff {

  datatype Kind = ClientOwner | ServerOwner(hasDht: bool) | StreamOwner

  datatype Handle = Client | Server | Dht | Stream

  /** The concurrent future `ready`. */
  datatype Source = Unset | SourceCancelled | Result | Exception

  /** The coroutine that awaits it. */
  datatype Caller = Awaiting | Cancelled | Holding | Failed

  /** Why the owner closes what it closes. */
  datatype Reason = BuildFailed(step: nat) | CancelWon | LoopEnded | OfferRaised

  datatype Owner =
    | Building(step: nat)
    | Offering                                        // about to evaluate the result and call ready.set_result
    | Serving
    | CleaningUp(todo: seq<Handle>, why: Reason)
    | Reporting(step: nat)                            // about to call ready.set_exception
    | Done(why: Reason)

  datatype State = State(
    source: Source,
    caller: Caller,
    cancelInFlight: bool,      // the asyncio future is cancelled, ready.cancel() not yet called
    owner: Owner,
    begun: seq<Handle>,        // handles opened, in order
    closed: seq<Handle>,       // handles the owner has closed, in order
    loopSteps: nat)

  datatype Action =
    | CancelCaller
    | PropagateCancel
    | Deliver
    | Build(ok: bool)
    | Offer(ok: bool)
    | CloseNext
    | Report
    | LoopStep
    | Leave(fault: bool)

  /** The handle each building step opens, if any: connect; build, attach, bootstrap; connect, open_stream, response. */
  function Plan(k: Kind): seq<seq<Handle>> {
    match k
    case ClientOwner => [[Client]]
    case ServerOwner(hasDht) => if hasDht then [[Server], [Dht], []] else [[Server]]
    case StreamOwner => [[Client], [Stream], []]
  }

  function BuiltBefore(k: Kind, step: nat): seq<Handle>
    requires step <= |Plan(k)|
  {
    if step == 0 then [] else BuiltBefore(k, step - 1) + Plan(k)[step - 1]
  }

  function Primary(k: Kind): Handle {
    if k.ServerOwner? then Server else Client
  }

  /** What the source closes, in its order. */
  function Cleanup(k: Kind, why: Reason): seq<Handle> {
    match why
    case BuildFailed(step) => if step == 0 then [] else [Primary(k)]
    case CancelWon => if k.StreamOwner? then [Stream, Client] else [Primary(k)]
    case OfferRaised => []  // only InvalidStateError is caught
    case LoopEnded =>
      match k
      case ClientOwner => [Client]
      case ServerOwner(hasDht) => if hasDht then [Dht, Server] else [Server]
      case StreamOwner => [Stream, Client]
  }

  function Init(): State {
    State(Unset, Awaiting, false, Building(0), [], [], 0)
  }

  predicate Enabled(k: Kind, s: State, a: Action) {
    match a
    case CancelCaller => s.caller.Awaiting?
    case PropagateCancel => s.cancelInFlight
    case Deliver => s.caller.Awaiting? && (s.source.Result? || s.source.Exception?)
    case Build(_) => s.owner.Building? && s.owner.step < |Plan(k)|
    case Offer(ok) => s.owner.Offering? && (ok || k.ServerOwner?)  // server.node_id may raise
    case CloseNext => s.owner.CleaningUp?
    case Report => s.owner.Reporting?
    case LoopStep => s.owner.Serving?
    case Leave(fault) => s.owner.Serving? && (fault || s.caller.Holding?)  // only the holder can ask it to stop
  }

  /** Where cleaning up leads once nothing is left to close. */
  function CleanOr(todo: seq<Handle>, why: Reason): Owner {
    if todo != [] then CleaningUp(todo, why)
    else if why.BuildFailed? then Reporting(why.step)
    else Done(why)
  }

  function Apply(k: Kind, s: State, a: Action): State
    requires Enabled(k, s, a)
  {
    match a
    case CancelCaller => s.(caller := Cancelled, cancelInFlight := true)
    case PropagateCancel =>
      s.(cancelInFlight := false, source := if s.source.Unset? then SourceCancelled else s.source)
    case Deliver => s.(caller := if s.source.Result? then Holding else Failed)
    case Build(ok) =>
      var step := s.owner.step;
      if !ok then s.(owner := CleanOr(Cleanup(k, BuildFailed(step)), BuildFailed(step)))
      else s.(begun := s.begun + Plan(k)[step], owner := if step + 1 == |Plan(k)| then Offering else Building(step + 1))
    case Offer(ok) =>
      if !ok then s.(owner := Done(OfferRaised))
      else if s.source.Unset? then s.(source := Result, owner := Serving)
      else s.(owner := CleanOr(Cleanup(k, CancelWon), CancelWon))
    case CloseNext =>
      if s.owner.todo == [] then s.(owner := CleanOr([], s.owner.why))
      else s.(closed := s.closed + [s.owner.todo[0]], owner := CleanOr(s.owner.todo[1..], s.owner.why))
    case Report => s.(source := if s.source.Unset? then Exception else s.source, owner := Done(BuildFailed(s.owner.step)))
    case LoopStep => s.(loopSteps := s.loopSteps + 1)
    case Leave(_) => s.(owner := CleanOr(Cleanup(k, LoopEnded), LoopEnded))
  }

  predicate Runs(k: Kind, s: State, acts: seq<Action>)
    decreases |acts|
  {
    acts == [] || (Enabled(k, s, acts[0]) && Runs(k, Apply(k, s, acts[0]), acts[1..]))
  }

  function Run(k: Kind, s: State, acts: seq<Action>): State
    requires Runs(k, s, acts)
    decreases |acts|
  {
    if acts == [] then s else Run(k, Apply(k, s, acts[0]), acts[1..])
  }

  ghost predicate Reachable(k: Kind, s: State) {
    exists acts :: Runs(k, Init(), acts) && Run(k, Init(), acts) == s
  }

  // The invariant

  /** What was open when the reason arose. */
  function OpenedFor(k: Kind, why: Reason): seq<Handle>
    requires why.BuildFailed? ==> why.step < |Plan(k)|
  {
    if why.BuildFailed? then BuiltBefore(k, why.step) else BuiltBefore(k, |Plan(k)|)
  }

  predicate SourceFits(why: Reason, source: Source) {
    match why
    case BuildFailed(_) => source.Unset? || source.SourceCancelled?
    case CancelWon => source.SourceCancelled?
    case OfferRaised => source.Unset? || source.SourceCancelled?
    case LoopEnded => source.Result?
  }

  predicate OwnerRight(k: Kind, s: State) {
    match s.owner
    case Building(step) =>
      step < |Plan(k)| && s.begun == BuiltBefore(k, step) && s.closed == [] && SourceFits(BuildFailed(step), s.source)
    case Offering =>
      s.begun == BuiltBefore(k, |Plan(k)|) && s.closed == [] && SourceFits(BuildFailed(0), s.source)
    case Serving => s.begun == BuiltBefore(k, |Plan(k)|) && s.closed == [] && s.source.Result?
    case CleaningUp(todo, why) =>
      (why.BuildFailed? ==> why.step < |Plan(k)|) && !why.OfferRaised? && s.begun == OpenedFor(k, why)
      && s.closed + todo == Cleanup(k, why) && SourceFits(why, s.source)
    case Reporting(step) =>
      step < |Plan(k)| && s.begun == BuiltBefore(k, step) && s.closed == Cleanup(k, BuildFailed(step))
      && SourceFits(BuildFailed(step), s.source)
    case Done(why) =>
      (why.BuildFailed? ==> why.step < |Plan(k)|) && (why.OfferRaised? ==> k.ServerOwner?)
      && s.begun == OpenedFor(k, why) && s.closed == Cleanup(k, why)
      && (if why.BuildFailed? then s.source.Exception? || s.source.SourceCancelled? else SourceFits(why, s.source))
  }

  predicate CallerRight(s: State) {
    && (s.caller.Holding? ==> s.source.Result?)
    && (s.caller.Failed? ==> s.source.Exception?)
    && (s.cancelInFlight ==> s.caller.Cancelled?)
    && (s.source.SourceCancelled? ==> s.caller.Cancelled?)
    && (s.loopSteps > 0 ==> s.source.Result?)
    && (s.caller.Cancelled? && !s.cancelInFlight ==> !s.source.Unset?)
  }

  predicate Inv(k: Kind, s: State) {
    OwnerRight(k, s) && CallerRight(s)
  }

  lemma CallerKeepsInv(k: Kind, s: State, a: Action)
    requires Inv(k, s) && Enabled(k, s, a) && (a.CancelCaller? || a.PropagateCancel? || a.Deliver? || a.LoopStep?)
    ensures Inv(k, Apply(k, s, a))
  {
  }

  lemma BuildKeepsInv(k: Kind, s: State, ok: bool)
    requires Inv(k, s) && Enabled(k, s, Build(ok))
    ensures Inv(k, Apply(k, s, Build(ok)))
  {
    var step := s.owner.step;
    if ok {
      assert BuiltBefore(k, step + 1) == BuiltBefore(k, step) + Plan(k)[step];
    }
  }

  lemma OfferKeepsInv(k: Kind, s: State, ok: bool)
    requires Inv(k, s) && Enabled(k, s, Offer(ok))
    ensures Inv(k, Apply(k, s, Offer(ok)))
  {
    assert Cleanup(k, CancelWon) != [];
  }

  lemma ExitKeepsInv(k: Kind, s: State, a: Action)
    requires Inv(k, s) && Enabled(k, s, a) && (a.Report? || a.Leave?)
    ensures Inv(k, Apply(k, s, a))
  {
    assert Cleanup(k, LoopEnded) != [];
  }

  /** Moving to the next handle, or on, keeps what is known of the cleaning up. */
  lemma CleanOrRight(k: Kind, s: State, todo: seq<Handle>, why: Reason)
    requires (why.BuildFailed? ==> why.step < |Plan(k)|) && !why.OfferRaised?
    requires s.begun == OpenedFor(k, why) && s.closed + todo == Cleanup(k, why) && SourceFits(why, s.source)
    ensures OwnerRight(k, s.(owner := CleanOr(todo, why)))
  {
    if todo == [] { assert s.closed + todo == s.closed; }
  }

  lemma CloseKeepsInv(k: Kind, s: State)
    requires Inv(k, s) && Enabled(k, s, CloseNext)
    ensures Inv(k, Apply(k, s, CloseNext))
  {
    var todo, why := s.owner.todo, s.owner.why;
    if todo == [] {
      CleanOrRight(k, s, [], why);
    } else {
      var now := s.(closed := s.closed + [todo[0]]);
      assert now.closed + todo[1..] == s.closed + todo;
      CleanOrRight(k, now, todo[1..], why);
    }
  }

  lemma InvKept(k: Kind, s: State, a: Action)
    requires Inv(k, s) && Enabled(k, s, a)
    ensures Inv(k, Apply(k, s, a))
  {
    match a
    case Build(ok) => BuildKeepsInv(k, s, ok);
    case Offer(ok) => OfferKeepsInv(k, s, ok);
    case CloseNext => CloseKeepsInv(k, s);
    case Report => ExitKeepsInv(k, s, a);
    case Leave(_) => ExitKeepsInv(k, s, a);
    case _ => CallerKeepsInv(k, s, a);
  }

  lemma {:induction false} InvRun(k: Kind, s: State, acts: seq<Action>)
    requires Inv(k, s) && Runs(k, s, acts)
    ensures Inv(k, Run(k, s, acts))
    decreases |acts|
  {
    if acts != [] {
      InvKept(k, s, acts[0]);
      InvRun(k, Apply(k, s, acts[0]), acts[1..]);
    }
  }

  lemma ReachableInv(k: Kind, s: State)
    requires Reachable(k, s)
    ensures Inv(k, s)
  {
    var acts :| Runs(k, Init(), acts) && Run(k, Init(), acts) == s;
    InvRun(k, Init(), acts);
  }

  // What follows

  function Count(handles: seq<Handle>, h: Handle): nat {
    if handles == [] then 0 else (if handles[0] == h then 1 else 0) + Count(handles[1..], h)
  }

  /**
   Of ready.set_result and the awaiter's cancel at most one wins, for all three runtimes.  If
   cancel won, no step of the service loop ever runs.  A finished owner has closed the primary
   handle exactly once if it was opened at all, unless evaluating the server's result raised; a
   stream handle is closed before its connection.
   */
  lemma OneSideWins(k: Kind, s: State)
    requires Reachable(k, s)
    ensures s.owner.Serving? || s.loopSteps > 0 ==> s.source.Result?
    ensures s.source.SourceCancelled? ==> s.loopSteps == 0 && s.caller.Cancelled?
    ensures s.owner.Done? ==> Count(s.closed, Primary(k)) == (if s.owner.why.OfferRaised? then 0 else Count(s.begun, Primary(k))) <= 1
    ensures s.owner.Done? && s.owner.why.OfferRaised? ==> k.ServerOwner? && s.closed == []
    ensures s.owner.Done? && s.owner.why.LoopEnded? ==>
              match k
              case ClientOwner => s.closed == [Client]
              case ServerOwner(hasDht) => s.closed == if hasDht then [Dht, Server] else [Server]
              case StreamOwner => s.closed == [Stream, Client]
    ensures s.owner.Done? && !s.owner.why.BuildFailed? && k.StreamOwner? ==> s.closed == [Stream, Client]
    ensures s.owner.Done? ==> (s.owner.why.CancelWon? ==> s.source.SourceCancelled?)
                              && (s.owner.why.LoopEnded? <==> s.source.Result?)
  {
    ReachableInv(k, s);
    if s.owner.Done? && !s.owner.why.OfferRaised? { CleanupCounts(k, s.owner.why); }
  }

  lemma CountTwo(x: Handle, y: Handle, h: Handle)
    ensures Count([], h) == 0 && Count([x], h) == (if x == h then 1 else 0)
    ensures Count([x, y], h) == (if x == h then 1 else 0) + (if y == h then 1 else 0)
  {
    assert [x][1..] == [] && [x, y][1..] == [y] && [y][1..] == [];
  }

  lemma CleanupCounts(k: Kind, why: Reason)
    requires (why.BuildFailed? ==> why.step < |Plan(k)|) && !why.OfferRaised?
    ensures Count(Cleanup(k, why), Primary(k)) == Count(OpenedFor(k, why), Primary(k)) <= 1
  {
    BuiltHandles(k);
    CountTwo(Primary(k), if k.StreamOwner? then Stream else Dht, Primary(k));
    CountTwo(if k.StreamOwner? then Stream else Dht, Primary(k), Primary(k));
  }

  /** Every handle opened has been closed, a stream at the latest with its connection. */
  predicate Covers(begun: seq<Handle>, closed: seq<Handle>) {
    forall h :: h in begun ==> h in closed || (h == Stream && Client in closed)
  }

  /** The dht was attached, but the owner never reached its loop. */
  predicate DhtWithoutLoop(k: Kind, why: Reason) {
    k == ServerOwner(true) && (why.CancelWon? || why == BuildFailed(2))
  }

  /** An exit on which the owner's code does not close what it opened. */
  predicate LeavesOpen(k: Kind, why: Reason) {
    why.OfferRaised? || DhtWithoutLoop(k, why)
  }

  lemma DhtNotCovered(k: Kind, why: Reason)
    requires DhtWithoutLoop(k, why)
    ensures OpenedFor(k, why) == [Server, Dht] && Cleanup(k, why) == [Server]
    ensures !Covers([Server, Dht], [Server])
  {
    BuiltHandles(k);
    var begun := [Server, Dht];
    assert begun[1] in begun && Dht !in [Server];
  }

  lemma OthersCovered(k: Kind, why: Reason)
    requires (why.BuildFailed? ==> why.step < |Plan(k)|) && !LeavesOpen(k, why)
    ensures Covers(OpenedFor(k, why), Cleanup(k, why))
  {
    BuiltHandles(k);
    var begun, closed := OpenedFor(k, why), Cleanup(k, why);
    if begun == closed || begun == [] {
    } else if k.StreamOwner? {
      assert forall h :: h in begun ==> h == Client || h == Stream;
      assert closed[|closed| - 1] == Client;
    } else {
      assert begun == [Server, Dht] && closed == [Dht, Server];
      assert closed[0] == Dht && closed[1] == Server;
    }
  }

  /**
   A finished owner has closed everything it opened, except on two exits.  When the dht had been
   attached and then bootstrap raised or the awaiter's cancel won, the server is closed and the
   dht that borrows it is not.  When evaluating server.node_id for the result raised, nothing is
   closed.  The condition is exact.
   */
  lemma NothingLeftOpenIff(k: Kind, s: State)
    requires Reachable(k, s) && s.owner.Done?
    ensures Covers(s.begun, s.closed) <==> !LeavesOpen(k, s.owner.why)
    ensures DhtWithoutLoop(k, s.owner.why) ==> s.closed == [Server] && s.begun == [Server, Dht]
    ensures s.owner.why.OfferRaised? ==> s.closed == [] && Server in s.begun
  {
    ReachableInv(k, s);
    var why := s.owner.why;
    if why.OfferRaised? {
      BuiltHandles(k);
      assert s.begun[0] == Server && s.begun[0] in s.begun;
      assert s.closed == [] && Server !in s.closed && Client !in s.closed;
    } else if DhtWithoutLoop(k, why) {
      DhtNotCovered(k, why);
    } else {
      OthersCovered(k, why);
    }
  }

  lemma BuiltHandles(k: Kind)
    ensures BuiltBefore(k, 0) == [] && BuiltBefore(k, 1) == [Primary(k)]
    ensures |Plan(k)| == 3 ==> BuiltBefore(k, 2) == BuiltBefore(k, 3) == [Primary(k), if k.StreamOwner? then Stream else Dht]
    ensures |Plan(k)| == 1 || |Plan(k)| == 3
  {
    assert BuiltBefore(k, 1) == BuiltBefore(k, 0) + Plan(k)[0];
    if |Plan(k)| == 3 {
      assert BuiltBefore(k, 2) == BuiltBefore(k, 1) + Plan(k)[1];
      assert BuiltBefore(k, 3) == BuiltBefore(k, 2) + Plan(k)[2];
    }
  }

  lemma RunCons(k: Kind, s: State, a: Action, rest: seq<Action>)
    requires Enabled(k, s, a) && Runs(k, Apply(k, s, a), rest)
    ensures Runs(k, s, [a] + rest) && Run(k, s, [a] + rest) == Run(k, Apply(k, s, a), rest)
  {
    assert ([a] + rest)[1..] == rest;
  }

  /** That family is not empty: bootstrap raising after attach is enough. */
  lemma BootstrapFailureLeavesDht() returns (acts: seq<Action>)
    ensures Runs(ServerOwner(true), Init(), acts)
    ensures var s := Run(ServerOwner(true), Init(), acts);
            s.owner == Done(BuildFailed(2)) && s.begun == [Server, Dht] && s.closed == [Server]
  {
    var k := ServerOwner(true);
    var s1 := Apply(k, Init(), Build(true));
    var s2 := Apply(k, s1, Build(true));
    var s3 := Apply(k, s2, Build(false));
    var s4 := Apply(k, s3, CloseNext);
    RunCons(k, s4, Report, []);
    RunCons(k, s3, CloseNext, [Report]);
    RunCons(k, s2, Build(false), [CloseNext] + [Report]);
    RunCons(k, s1, Build(true), [Build(false)] + ([CloseNext] + [Report]));
    acts := [Build(true)] + ([Build(false)] + ([CloseNext] + [Report]));
    RunCons(k, Init(), Build(true), acts);
    acts := [Build(true)] + acts;
  }

  /** The other early exit: the awaiter's cancel wins after the dht was attached. */
  lemma CancelLeavesDht() returns (acts: seq<Action>)
    ensures Runs(ServerOwner(true), Init(), acts)
    ensures var s := Run(ServerOwner(true), Init(), acts);
            s.owner == Done(CancelWon) && s.begun == [Server, Dht] && s.closed == [Server]
  {
    var k := ServerOwner(true);
    var s1 := Apply(k, Init(), Build(true));
    var s2 := Apply(k, s1, Build(true));
    var s3 := Apply(k, s2, Build(true));
    var s4 := Apply(k, s3, CancelCaller);
    var s5 := Apply(k, s4, PropagateCancel);
    var s6 := Apply(k, s5, Offer(true));
    RunCons(k, s6, CloseNext, []);
    RunCons(k, s5, Offer(true), [CloseNext]);
    RunCons(k, s4, PropagateCancel, [Offer(true)] + [CloseNext]);
    acts := [PropagateCancel] + ([Offer(true)] + [CloseNext]);
    RunCons(k, s3, CancelCaller, acts);
    acts := [CancelCaller] + acts;
    RunCons(k, s2, Build(true), acts);
    acts := [Build(true)] + acts;
    RunCons(k, s1, Build(true), acts);
    acts := [Build(true)] + acts;
    RunCons(k, Init(), Build(true), acts);
    acts := [Build(true)] + acts;
  }

  /**
   When evaluating the result raised while nobody had cancelled, the awaiting coroutine is never
   told: it gets neither a server nor an exception, and only its own cancel frees it.
   */
  lemma {:induction false} NeverTold(k: Kind, s: State, acts: seq<Action>)
    requires s.owner == Done(OfferRaised) && (s.source.Unset? || s.source.SourceCancelled?)
    requires !s.caller.Holding? && !s.caller.Failed? && Runs(k, s, acts)
    ensures var t := Run(k, s, acts);
            && t.owner == s.owner && t.closed == s.closed
            && !t.caller.Holding? && !t.caller.Failed? && (t.caller.Awaiting? ==> s.caller.Awaiting?)
    decreases |acts|
  {
    if acts != [] {
      NeverTold(k, Apply(k, s, acts[0]), acts[1..]);
    }
  }

  /** Such a run. */
  lemma NodeIdFailureLeavesServer() returns (acts: seq<Action>)
    ensures Runs(ServerOwner(false), Init(), acts)
    ensures var s := Run(ServerOwner(false), Init(), acts);
            s.owner == Done(OfferRaised) && s.begun == [Server] && s.closed == [] && s.source.Unset? && s.caller.Awaiting?
  {
    var k := ServerOwner(false);
    var s1 := Apply(k, Init(), Build(true));
    RunCons(k, s1, Offer(false), []);
    RunCons(k, Init(), Build(true), [Offer(false)]);
    acts := [Build(true)] + [Offer(false)];
  }

  /** The loop runs and the coroutine that started it is gone. */
  predicate Orphaned(s: State) {
    s.owner.Serving? && s.caller.Cancelled?
  }

  /** Nobody can stop an orphaned owner: it keeps serving until a call into the library raises. */
  lemma {:induction false} OrphanNeverStopped(k: Kind, s: State, acts: seq<Action>)
    requires Orphaned(s) && Runs(k, s, acts) && Leave(true) !in acts
    ensures Orphaned(Run(k, s, acts)) && Run(k, s, acts).closed == s.closed
    decreases |acts|
  {
    if acts != [] {
      assert acts[0] in acts;
      OrphanNeverStopped(k, Apply(k, s, acts[0]), acts[1..]);
    }
  }

  function LoopSteps(acts: seq<Action>): nat {
    if acts == [] then 0 else (if acts[0].LoopStep? then 1 else 0) + LoopSteps(acts[1..])
  }

  /** loopSteps counts the steps of the service loop. */
  lemma {:induction false} LoopStepsAre(k: Kind, s: State, acts: seq<Action>)
    requires Runs(k, s, acts)
    ensures Run(k, s, acts).loopSteps == s.loopSteps + LoopSteps(acts)
    decreases |acts|
  {
    if acts != [] { LoopStepsAre(k, Apply(k, s, acts[0]), acts[1..]); }
  }

  /** set_result comes before the cancel reaches ready. */
  predicate OfferedFirst(acts: seq<Action>) {
    acts != [] && acts[0] != PropagateCancel && (acts[0] == Offer(true) || OfferedFirst(acts[1..]))
  }

  /** After a cancel, an unset future is settled by whichever comes first; a set one stays. */
  lemma {:induction false} RaceDecides(k: Kind, s: State, acts: seq<Action>)
    requires Inv(k, s) && s.caller.Cancelled? && Runs(k, s, acts)
    ensures var e := Run(k, s, acts);
            && e.caller.Cancelled?
            && (e.source.Result? <==> s.source.Result? || (s.source.Unset? && OfferedFirst(acts)))
    decreases |acts|
  {
    if acts != [] {
      InvKept(k, s, acts[0]);
      RaceDecides(k, Apply(k, s, acts[0]), acts[1..]);
    }
  }

  predicate LoopIsOver(o: Owner) {
    (o.CleaningUp? || o.Done?) && o.why.LoopEnded?
  }

  /** With the awaiter gone, the loop is left by a raise only. */
  lemma OrphanStep(k: Kind, s: State, a: Action)
    requires Inv(k, s) && s.caller.Cancelled? && Enabled(k, s, a) && (s.source.Result? ==> s.owner.Serving?)
    ensures var t := Apply(k, s, a);
            && t.caller.Cancelled?
            && if a == Leave(true) then LoopIsOver(t.owner) else t.source.Result? ==> t.owner.Serving?
  {
  }

  lemma {:induction false} ServesUntilRaise(k: Kind, s: State, acts: seq<Action>)
    requires Inv(k, s) && s.caller.Cancelled? && Runs(k, s, acts)
    requires Run(k, s, acts).source.Result? && (s.source.Result? ==> s.owner.Serving?)
    ensures Run(k, s, acts).owner.Serving? <==> Leave(true) !in acts
    decreases |acts|
  {
    if acts != [] {
      var a, t := acts[0], Apply(k, s, acts[0]);
      InvKept(k, s, a);
      OrphanStep(k, s, a);
      if a == Leave(true) {
        LeftForGood(k, t, acts[1..]);
      } else {
        ServesUntilRaise(k, t, acts[1..]);
      }
      assert acts == [a] + acts[1..];
    }
  }

  lemma {:induction false} LeftForGood(k: Kind, s: State, acts: seq<Action>)
    requires LoopIsOver(s.owner) && Runs(k, s, acts)
    ensures LoopIsOver(Run(k, s, acts).owner)
    decreases |acts|
  {
    if acts != [] {
      LeftForGood(k, Apply(k, s, acts[0]), acts[1..]);
    }
  }

  /**
   What a cancel of the awaiting coroutine comes to, exactly.  Afterwards there is an orphaned
   owner if and only if the result had already been set and the loop was running, or set_result
   still came before the cancel reached ready, and no library call has since raised out of the
   loop.  It does not help that the result had been set but not yet delivered.
   */
  lemma CancelOrphansIff(k: Kind, s: State, acts: seq<Action>)
    requires Reachable(k, s) && s.caller.Awaiting?
    requires Runs(k, Apply(k, s, CancelCaller), acts)
    ensures Orphaned(Run(k, Apply(k, s, CancelCaller), acts)) <==>
              && Leave(true) !in acts
              && (s.owner.Serving? || (s.source.Unset? && OfferedFirst(acts)))
  {
    ReachableInv(k, s);
    var t := Apply(k, s, CancelCaller);
    InvKept(k, s, CancelCaller);
    RaceDecides(k, t, acts);
    InvRun(k, t, acts);
    var e := Run(k, t, acts);
    if !e.source.Result? {
    } else if s.source.Result? && !s.owner.Serving? {
      LeftForGood(k, t, acts);
    } else {
      ServesUntilRaise(k, t, acts);
    }
  }

  /** The cancel that comes after set_result and before the delivery: nothing was in flight at the offer. */
  lemma UndeliveredOrphan() returns (acts: seq<Action>)
    ensures acts == [Build(true), Offer(true), CancelCaller, PropagateCancel]
    ensures Runs(ClientOwner, Init(), acts) && Orphaned(Run(ClientOwner, Init(), acts))
  {
    var k := ClientOwner;
    var s1 := Apply(k, Init(), Build(true));
    var s2 := Apply(k, s1, Offer(true));
    var s3 := Apply(k, s2, CancelCaller);
    RunCons(k, s3, PropagateCancel, []);
    RunCons(k, s2, CancelCaller, [PropagateCancel]);
    RunCons(k, s1, Offer(true), [CancelCaller] + [PropagateCancel]);
    acts := [Offer(true)] + ([CancelCaller] + [PropagateCancel]);
    RunCons(k, Init(), Build(true), acts);
    acts := [Build(true)] + acts;
  }

  /**
   When the owner's set_result goes through, it starts out orphaned if and only if a cancel of
   the awaiting coroutine was on its way to ready at that moment.
   */
  lemma OfferOrphansIff(k: Kind, s: State)
    requires Reachable(k, s) && Enabled(k, s, Offer(true)) && s.source.Unset?
    ensures Orphaned(Apply(k, s, Offer(true))) <==> s.cancelInFlight
  {
    ReachableInv(k, s);
  }

  /**
   A serving owner has a holder, or is orphaned, or its result waits to be delivered; the delivery
   makes the coroutine the holder, a cancel before it makes an orphan.
   */
  lemma HolderOrOrphan(k: Kind, s: State)
    requires Reachable(k, s) && s.owner.Serving?
    ensures s.caller.Holding? || s.caller.Awaiting? || Orphaned(s)
    ensures s.caller.Awaiting? ==>
              && Enabled(k, s, Deliver) && Apply(k, s, Deliver).caller.Holding?
              && Enabled(k, s, CancelCaller) && Orphaned(Apply(k, s, CancelCaller))
    ensures Orphaned(s) ==> !Enabled(k, s, Leave(false)) && !Enabled(k, s, Deliver)
  {
    ReachableInv(k, s);
  }

  /** Such a run: the coroutine is cancelled in the step before the cancel is propagated. */
  lemma OrphanReachable() returns (acts: seq<Action>)
    ensures Runs(ClientOwner, Init(), acts)
    ensures Orphaned(Run(ClientOwner, Init(), acts)) && !Run(ClientOwner, Init(), acts).cancelInFlight
  {
    var k := ClientOwner;
    var s1 := Apply(k, Init(), Build(true));
    var s2 := Apply(k, s1, CancelCaller);
    var s3 := Apply(k, s2, Offer(true));
    RunCons(k, s3, PropagateCancel, []);
    RunCons(k, s2, Offer(true), [PropagateCancel]);
    RunCons(k, s1, CancelCaller, [Offer(true)] + [PropagateCancel]);
    acts := [CancelCaller] + ([Offer(true)] + [PropagateCancel]);
    RunCons(k, Init(), Build(true), acts);
    acts := [Build(true)] + acts;
  }
}
