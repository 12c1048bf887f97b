/**
 The caching reverse proxy (examples/nwproxy.py:51-84, nwep/cache.py:66-130, driven by
 examples/_common.py:45-50): every request is deferred and parked, a drain answers the parked
 ones from the shared cache or the origin.

 The cache may evict, expire or distrust what it holds at any time, so a lookup may miss whatever
 was stored; the origin, the front end and the cache may each raise.
 */
module Proxy {

  datatype Request = Request(conn: nat, stream: nat)

  datatype Response = Response(status: string, body: seq<bv8>)

  /** A response delivered on a parked request. */
  datatype Relay = Relay(to: Request, what: Response)

  datatype Lookup = Hit(r: Response) | Miss | LookupRaises

  /** What the outside does to one job. */
  datatype World = World(
    cached: Lookup,      // what the cache would like to serve; it counts only if it was stored
    origin: Response,    // what the origin answers
    sendFails: bool,
    relayFails: bool,
    putFails: bool)

  datatype State = State(
    arrived: seq<Request>,
    parked: seq<Request>,
    jobs: seq<Request>,       // the rest of the snapshot a drain is serving
    relayed: seq<Relay>,
    lost: seq<Request>,       // snapshot entries a fault left unanswered
    running: bool,            // the thread that ticks and drains; an exception ends it
    stored: set<Response>,    // what was ever stored in the cache
    origin: set<Response>)    // what the origin ever sent

  /** Tick is server.tick, in which the arrivals come; Stop is the loop finding its stop flag set. */
  datatype Action = Arrive(q: Request) | Tick(ok: bool) | Snapshot | Serve(w: World) | Stop

  function Init(): State {
    State([], [], [], [], [], true, {}, {})
  }

  predicate Enabled(s: State, a: Action) {
    s.running && match a
                 case Arrive(_) => true
                 case Tick(_) => s.jobs == []
                 case Snapshot => s.jobs == []
                 case Stop => s.jobs == []
                 case Serve(_) => s.jobs != []
  }

  function LookedUp(s: State, w: World): Lookup {
    if w.cached.Hit? && w.cached.r !in s.stored then Miss else w.cached
  }

  /** One job met an exception; so does everything behind it. */
  function Fault(s: State, answered: bool): State
    requires s.jobs != []
  {
    s.(jobs := [], lost := if answered then s.jobs[1..] else s.jobs, running := false)
  }

  function ServeOne(s: State, w: World): State
    requires s.jobs != []
  {
    match LookedUp(s, w)
    case LookupRaises => Fault(s, false)
    case Hit(r) =>
      if w.relayFails then Fault(s, false)
      else s.(jobs := s.jobs[1..], relayed := s.relayed + [Relay(s.jobs[0], r)])
    case Miss =>
      if w.sendFails then Fault(s, false)
      else
        var s' := s.(origin := s.origin + {w.origin});
        if w.relayFails then Fault(s', false)
        else
          var s'' := s'.(relayed := s.relayed + [Relay(s.jobs[0], w.origin)]);
          if w.putFails then Fault(s'', true)
          else s''.(jobs := s.jobs[1..], stored := s.stored + {w.origin})
  }

  function Apply(s: State, a: Action): State
    requires Enabled(s, a)
  {
    match a
    case Arrive(q) => s.(arrived := s.arrived + [q], parked := s.parked + [q])
    case Tick(ok) => s.(running := ok)
    case Stop => s.(running := false)
    case Snapshot => s.(jobs := s.parked, parked := [])
    case Serve(w) => ServeOne(s, w)
  }

  /** A run from s, and where it ends. */
  predicate Run(s: State, acts: seq<Action>)
    decreases |acts|
  {
    acts == [] || (Enabled(s, acts[0]) && Run(Apply(s, acts[0]), acts[1..]))
  }

  function End(s: State, acts: seq<Action>): State
    requires Run(s, acts)
    decreases |acts|
  {
    if acts == [] then s else End(Apply(s, acts[0]), acts[1..])
  }

  // What every run keeps

  function Answered(relayed: seq<Relay>): (qs: seq<Request>)
    ensures |qs| == |relayed|
  {
    seq(|relayed|, i requires 0 <= i < |relayed| => relayed[i].to)
  }

  predicate Genuine(s: State) {
    && s.stored <= s.origin
    && forall i :: 0 <= i < |s.relayed| ==> s.relayed[i].what in s.origin
  }

  predicate InOrder(s: State) {
    && Answered(s.relayed) + s.lost + s.jobs + s.parked == s.arrived
    && (s.running ==> s.lost == [])
  }

  lemma AnsweredSnoc(relayed: seq<Relay>, r: Relay)
    ensures Answered(relayed + [r]) == Answered(relayed) + [r.to]
  {
  }

  lemma ServeKeepsOrder(s: State, w: World)
    requires InOrder(s) && s.running && s.jobs != []
    ensures InOrder(ServeOne(s, w))
  {
    var q, rest := s.jobs[0], s.jobs[1..];
    assert s.jobs == [q] + rest;
    forall r: Response { AnsweredSnoc(s.relayed, Relay(q, r)); }
    var done := Answered(s.relayed);
    assert done + [] + s.jobs + s.parked == done + s.jobs + s.parked;
    assert done + s.jobs + [] + s.parked == done + s.jobs + s.parked;
    assert (done + [q]) + [] + rest + s.parked == done + s.jobs + s.parked;
    assert (done + [q]) + rest + [] + s.parked == done + s.jobs + s.parked;
  }

  lemma StepKeepsOrder(s: State, a: Action)
    requires InOrder(s) && Enabled(s, a)
    ensures InOrder(Apply(s, a))
  {
    match a
    case Arrive(q) =>
      var before := Answered(s.relayed) + s.lost + s.jobs;
      assert before + (s.parked + [q]) == (before + s.parked) + [q];
    case Snapshot =>
      var before := Answered(s.relayed) + s.lost;
      assert before + [] + s.parked == before + s.parked + [];
    case Serve(w) => ServeKeepsOrder(s, w);
    case _ =>
  }

  lemma {:induction false} RunKeeps(s: State, acts: seq<Action>)
    requires InOrder(s) && Genuine(s) && Run(s, acts)
    ensures InOrder(End(s, acts)) && Genuine(End(s, acts))
    decreases |acts|
  {
    if acts != [] {
      StepKeepsOrder(s, acts[0]);
      RunKeeps(Apply(s, acts[0]), acts[1..]);
    }
  }

  /**
   Over every interleaving of arrivals and drains, with any cache and any faults: the answered
   requests are the first ones to arrive, each answered once and in arrival order, all the others
   are accounted for, and every response relayed is one the origin sent.
   */
  lemma RelayedInArrivalOrder(acts: seq<Action>)
    requires Run(Init(), acts)
    ensures var s := End(Init(), acts);
            && |s.relayed| <= |s.arrived|
            && (forall i :: 0 <= i < |s.relayed| ==> s.relayed[i].to == s.arrived[i] && s.relayed[i].what in s.origin)
            && s.lost + s.jobs + s.parked == s.arrived[|s.relayed|..]
            && (s.running ==> s.lost == [])
  {
    RunKeeps(Init(), acts);
    var s := End(Init(), acts);
    var done := Answered(s.relayed);
    assert done + s.lost + s.jobs + s.parked == done + (s.lost + s.jobs + s.parked);
    forall i | 0 <= i < |s.relayed| ensures s.relayed[i].to == s.arrived[i] {
      assert done[i] == s.relayed[i].to;
    }
  }

  // Faults

  /** Some call on the branch taken for this job raises. */
  predicate Faults(s: State, w: World) {
    match LookedUp(s, w)
    case LookupRaises => true
    case Hit(_) => w.relayFails
    case Miss => w.sendFails || w.relayFails || w.putFails
  }

  /** A step in which the driving thread meets an exception. */
  predicate Raises(s: State, a: Action) {
    (a.Serve? && Faults(s, a.w)) || a == Tick(false)
  }

  /** Some step of the run meets an exception. */
  predicate SomeFault(s: State, acts: seq<Action>)
    requires Run(s, acts)
    decreases |acts|
  {
    acts != [] && (Raises(s, acts[0]) || SomeFault(Apply(s, acts[0]), acts[1..]))
  }

  /** The proxy goes on serving if and only if no job and no tick has met an exception and nobody stopped it. */
  lemma {:induction false} RunsUntilFault(s: State, acts: seq<Action>)
    requires s.running && Run(s, acts)
    ensures End(s, acts).running <==> !SomeFault(s, acts) && Stop !in acts
    decreases |acts|
  {
    if acts != [] {
      var t := Apply(s, acts[0]);
      assert t.running <==> !Raises(s, acts[0]) && acts[0] != Stop;
      if t.running {
        RunsUntilFault(t, acts[1..]);
      } else {
        FaultIsTheEnd(t, acts[1..]);
      }
    }
  }

  lemma FaultIsTheEnd(s: State, acts: seq<Action>)
    requires !s.running && Run(s, acts)
    ensures acts == []
  {
  }

  /** Only put_signed raises after its request has been relayed. */
  predicate FaultAnswered(s: State, w: World) {
    LookedUp(s, w).Miss? && !w.sendFails && !w.relayFails && w.putFails
  }

  /** Whether the step that raised had answered its request before. */
  predicate RaisedLate(s: State, a: Action) {
    a.Serve? && FaultAnswered(s, a.w)
  }

  /**
   What an exception or a stop costs.  The requests that arrived and get no answer are exactly
   those behind the relayed ones: the job that raised, unless it was only its store that did, the
   jobs behind it and everything parked.  No run goes on from there.
   */
  lemma FaultLosesTheRest(acts: seq<Action>, a: Action, more: seq<Action>)
    requires Run(Init(), acts) && Enabled(End(Init(), acts), a) && (Raises(End(Init(), acts), a) || a == Stop)
    requires Run(Apply(End(Init(), acts), a), more)
    ensures var s := End(Init(), acts); var t := Apply(s, a);
            && more == [] && !t.running
            && |t.relayed| == |s.relayed| + (if RaisedLate(s, a) then 1 else 0) <= |t.arrived|
            && t.lost + t.parked == t.arrived[|t.relayed|..]
            && t.lost == (if RaisedLate(s, a) then s.jobs[1..] else s.jobs) && t.parked == s.parked
  {
    RunKeeps(Init(), acts);
    var s := End(Init(), acts);
    if a.Serve? { FaultStops(s, a.w); }
    StepKeepsOrder(s, a);
    RestIsUnanswered(Apply(s, a));
    FaultIsTheEnd(Apply(s, a), more);
  }

  lemma FaultStops(s: State, w: World)
    requires s.jobs != [] && Faults(s, w)
    ensures var t := ServeOne(s, w);
            && !t.running && t.jobs == [] && t.parked == s.parked && t.arrived == s.arrived
            && |t.relayed| == |s.relayed| + (if FaultAnswered(s, w) then 1 else 0)
            && t.lost == (if FaultAnswered(s, w) then s.jobs[1..] else s.jobs)
  {
  }

  lemma RestIsUnanswered(t: State)
    requires InOrder(t) && t.jobs == []
    ensures |t.relayed| <= |t.arrived| && t.lost + t.parked == t.arrived[|t.relayed|..]
  {
    var done := Answered(t.relayed);
    assert done + t.lost + t.jobs + t.parked == done + (t.lost + t.parked);
  }

  lemma EndCons(s: State, a: Action, rest: seq<Action>)
    requires Enabled(s, a) && Run(Apply(s, a), rest)
    ensures Run(s, [a] + rest) && End(s, [a] + rest) == End(Apply(s, a), rest)
  {
    assert ([a] + rest)[1..] == rest;
  }

  /** Two requests parked, and the cache refuses the first response: one is answered, one is lost. */
  lemma OneAnsweredOneLost(a: Request, b: Request, r: Response) returns (acts: seq<Action>)
    ensures Run(Init(), acts)
    ensures var s := End(Init(), acts);
            !s.running && s.arrived == [a, b] && s.relayed == [Relay(a, r)] && s.lost == [b]
  {
    var w := World(Miss, r, false, false, true);
    var s1 := Apply(Init(), Arrive(a));
    var s2 := Apply(s1, Arrive(b));
    var s3 := Apply(s2, Snapshot);
    assert s3.jobs == [a, b] && s3.jobs[1..] == [b];
    EndCons(s3, Serve(w), []);
    EndCons(s2, Snapshot, [Serve(w)]);
    EndCons(s1, Arrive(b), [Snapshot] + [Serve(w)]);
    acts := [Arrive(b)] + ([Snapshot] + [Serve(w)]);
    EndCons(Init(), Arrive(a), acts);
    acts := [Arrive(a)] + acts;
  }

  // Transparency

  /** The origin never changes its answer. */
  predicate Constant(acts: seq<Action>, r: Response) {
    forall i :: 0 <= i < |acts| && acts[i].Serve? ==> acts[i].w.origin == r
  }

  /** The same arrivals and drains without a cache, and with nothing going wrong. */
  function NoCache(a: Action): Action {
    if a.Serve? then Serve(World(Miss, a.w.origin, false, false, false)) else a
  }

  function WithoutCache(acts: seq<Action>): (r: seq<Action>)
    ensures |r| == |acts|
  {
    seq(|acts|, i requires 0 <= i < |acts| => NoCache(acts[i]))
  }

  lemma {:induction false} ConstantRun(s: State, acts: seq<Action>, r: Response)
    requires Run(s, acts) && Constant(acts, r) && s.origin <= {r}
    ensures End(s, acts).origin <= {r}
    decreases |acts|
  {
    if acts != [] {
      ConstantRun(Apply(s, acts[0]), acts[1..], r);
    }
  }

  /** Against a constant origin every request relayed, through faults and evictions, gets its answer. */
  lemma ConstantAnswers(acts: seq<Action>, r: Response)
    requires Run(Init(), acts) && Constant(acts, r)
    ensures var s := End(Init(), acts);
            && |s.relayed| <= |s.arrived|
            && forall i :: 0 <= i < |s.relayed| ==> s.relayed[i] == Relay(s.arrived[i], r)
  {
    ConstantRun(Init(), acts, r);
    RelayedInArrivalOrder(acts);
    var s := End(Init(), acts);
    forall i | 0 <= i < |s.relayed| ensures s.relayed[i] == Relay(s.arrived[i], r) {
      assert s.relayed[i].what in s.origin;
    }
  }

  /** Two proxies that only differ in what their caches hold. */
  predicate SameButCache(s: State, t: State) {
    s.(stored := {}, origin := {}) == t.(stored := {}, origin := {})
  }

  lemma {:induction false} StaysTheSame(s: State, t: State, acts: seq<Action>, r: Response)
    requires SameButCache(s, t) && s.stored <= {r}
    requires Run(s, acts) && Constant(acts, r) && !SomeFault(s, acts)
    ensures Run(t, WithoutCache(acts))
    ensures SameButCache(End(s, acts), End(t, WithoutCache(acts)))
    decreases |acts|
  {
    if acts != [] {
      var a := acts[0];
      assert WithoutCache(acts)[1..] == WithoutCache(acts[1..]);
      assert SameButCache(Apply(s, a), Apply(t, NoCache(a)));
      StaysTheSame(Apply(s, a), Apply(t, NoCache(a)), acts[1..], r);
    }
  }

  /**
   Against a constant origin, whatever the cache keeps or evicts, a run in which no call raised
   relays exactly what the proxy would relay without a cache and with nothing going wrong.
   */
  lemma Transparent(acts: seq<Action>, r: Response)
    requires Run(Init(), acts) && Constant(acts, r) && !SomeFault(Init(), acts)
    ensures Run(Init(), WithoutCache(acts))
    ensures End(Init(), acts).relayed == End(Init(), WithoutCache(acts)).relayed
    ensures End(Init(), acts).running <==> Stop !in acts
  {
    StaysTheSame(Init(), Init(), acts, r);
    RunsUntilFault(Init(), acts);
  }

  // What the cache is for

  /** A miss in which nothing raised leaves its response in the cache. */
  lemma MissStores(s: State, w: World)
    requires s.jobs != [] && LookedUp(s, w).Miss? && !Faults(s, w)
    ensures var t := ServeOne(s, w);
            w.origin in t.stored && t.relayed == s.relayed + [Relay(s.jobs[0], w.origin)] && w.origin in t.origin
  {
  }

  /** What was ever stored, fetched or relayed stays so over any run. */
  lemma {:induction false} HistoryStays(s: State, acts: seq<Action>)
    requires Run(s, acts)
    ensures s.stored <= End(s, acts).stored && s.origin <= End(s, acts).origin
    ensures s.relayed <= End(s, acts).relayed && s.arrived <= End(s, acts).arrived
    decreases |acts|
  {
    if acts != [] { HistoryStays(Apply(s, acts[0]), acts[1..]); }
  }

  /** A lookup that offers something stored is answered with it, without the origin: it may be gone. */
  lemma HitSparesOrigin(s: State, w: World)
    requires s.jobs != [] && w.cached.Hit? && w.cached.r in s.stored && !w.relayFails
    ensures var t := ServeOne(s, w);
            && t.relayed == s.relayed + [Relay(s.jobs[0], w.cached.r)]
            && t.jobs == s.jobs[1..] && t.running == s.running && t.lost == s.lost
            && t.origin == s.origin && t.stored == s.stored
  {
  }

  /**
   Over whole runs: once a job was answered by the origin and nothing raised, any later job whose
   lookup offers that response gets it, whatever has become of the origin.
   */
  lemma FetchedOnceServedAgain(acts: seq<Action>, w: World, between: seq<Action>, later: World)
    requires Run(Init(), acts)
    requires var s := End(Init(), acts); Enabled(s, Serve(w)) && LookedUp(s, w).Miss? && !Faults(s, w)
    requires Run(ServeOne(End(Init(), acts), w), between)
    requires var t := End(ServeOne(End(Init(), acts), w), between);
             Enabled(t, Serve(later)) && later.cached == Hit(w.origin) && !later.relayFails
    ensures var t := End(ServeOne(End(Init(), acts), w), between); var e := ServeOne(t, later);
            e.relayed == t.relayed + [Relay(t.jobs[0], w.origin)] && e.origin == t.origin && e.running
  {
    MissStores(End(Init(), acts), w);
    HistoryStays(ServeOne(End(Init(), acts), w), between);
    HitSparesOrigin(End(ServeOne(End(Init(), acts), w), between), later);
  }

  /** A miss asks the origin, and is lost with everything behind it if the origin does not answer. */
  lemma MissNeedsOrigin(s: State, w: World)
    requires s.jobs != [] && LookedUp(s, w).Miss? && w.sendFails
    ensures var t := ServeOne(s, w);
            !t.running && t.relayed == s.relayed && t.lost == s.jobs && t.stored == s.stored
  {
  }

  function Serves(acts: seq<Action>): nat {
    if acts == [] then 0 else (if acts[0].Serve? then 1 else 0) + Serves(acts[1..])
  }

  /** Every store is refused, and nothing else goes wrong or stops the proxy. */
  predicate OnlyPutsFail(acts: seq<Action>) {
    forall i :: 0 <= i < |acts| ==>
      && (acts[i].Serve? ==> acts[i].w.putFails && !acts[i].w.sendFails && !acts[i].w.relayFails && !acts[i].w.cached.LookupRaises?)
      && (acts[i].Tick? ==> acts[i].ok) && !acts[i].Stop?
  }

  /**
   An origin whose responses the cache refuses (put_signed raises unless they are public and
   signed) is relayed at most once, and exactly once as soon as a drain serves anything: the
   exception comes after the relay and ends the proxy.
   */
  lemma UncacheableOriginIsServedOnce(acts: seq<Action>)
    requires Run(Init(), acts) && forall i :: 0 <= i < |acts| && acts[i].Serve? ==> acts[i].w.putFails
    ensures var s := End(Init(), acts);
            |s.relayed| <= 1 && (s.relayed != [] ==> !s.running)
    ensures OnlyPutsFail(acts) ==> |End(Init(), acts).relayed| == Serves(acts) && (End(Init(), acts).running <==> Serves(acts) == 0)
  {
    NothingStored(Init(), acts);
  }

  lemma {:induction false} NothingStored(s: State, acts: seq<Action>)
    requires Run(s, acts) && forall i :: 0 <= i < |acts| && acts[i].Serve? ==> acts[i].w.putFails
    requires s.stored == {} && |s.relayed| <= 1 && (s.relayed != [] ==> !s.running)
    ensures |End(s, acts).relayed| <= 1 && (End(s, acts).relayed != [] ==> !End(s, acts).running)
    ensures OnlyPutsFail(acts) && s.running ==>
              |End(s, acts).relayed| == |s.relayed| + Serves(acts) && (End(s, acts).running <==> Serves(acts) == 0)
    decreases |acts|
  {
    if acts != [] {
      assert OnlyPutsFail(acts) ==> OnlyPutsFail(acts[1..]);
      NothingStored(Apply(s, acts[0]), acts[1..]);
      if !Apply(s, acts[0]).running {
        FaultIsTheEnd(Apply(s, acts[0]), acts[1..]);
      }
    }
  }

  // A whole drain

  /** Serves job after job until none is left or one meets a fault. */
  function Drain(s: State, world: nat -> World, k: nat): State
    decreases |s.jobs|
  {
    if s.jobs == [] then s else Drain(ServeOne(s, world(k)), world, k + 1)
  }

  lemma FaultlessJob(s: State, w: World)
    requires s.jobs != [] && !Faults(s, w)
    ensures var t := ServeOne(s, w);
            && t.jobs == s.jobs[1..] && t.parked == s.parked && t.running == s.running && t.lost == s.lost
            && Answered(t.relayed) == Answered(s.relayed) + [s.jobs[0]]
  {
    forall r: Response { AnsweredSnoc(s.relayed, Relay(s.jobs[0], r)); }
  }

  /**
   A drain always finishes its snapshot, and if the proxy still runs after it, it has answered
   everything parked when it began, in order, and lost nothing.
   */
  lemma {:induction false} DrainAnswersTheSnapshot(s: State, world: nat -> World, k: nat)
    requires s.running
    ensures var e := Drain(s, world, k);
            && e.jobs == [] && e.parked == s.parked
            && (e.running ==> e.lost == s.lost && Answered(e.relayed) == Answered(s.relayed) + s.jobs)
    decreases |s.jobs|
  {
    if s.jobs == [] {
      assert Answered(s.relayed) + [] == Answered(s.relayed);
    } else {
      DrainUnfolds(s, world, k);
      if !Faults(s, world(k)) {
        FaultlessJob(s, world(k));
        DrainAnswersTheSnapshot(ServeOne(s, world(k)), world, k + 1);
        AppendHead(Answered(s.relayed), s.jobs);
      }
    }
  }

  lemma AppendHead(done: seq<Request>, jobs: seq<Request>)
    requires jobs != []
    ensures (done + [jobs[0]]) + jobs[1..] == done + jobs
  {
  }

  lemma DrainUnfolds(s: State, world: nat -> World, k: nat)
    requires s.jobs != []
    ensures Drain(s, world, k) == Drain(ServeOne(s, world(k)), world, k + 1)
    ensures ServeOne(s, world(k)).jobs == [] ==> Drain(s, world, k) == ServeOne(s, world(k))
  {
  }

  // The driving loop

  /** What one turn of the driving loop meets. */
  datatype Round = Round(arrivals: seq<Request>, ok: bool, world: nat -> World)

  function Arrived(s: State, qs: seq<Request>): (t: State)
    ensures t.running == s.running && t.jobs == s.jobs
  {
    if qs == [] then s
    else
      var n := |qs| - 1;
      var t := Arrived(s, qs[..n]);
      t.(arrived := t.arrived + [qs[n]], parked := t.parked + [qs[n]])
  }

  lemma {:induction false} ArrivedMeans(s: State, qs: seq<Request>)
    ensures Arrived(s, qs) == s.(arrived := s.arrived + qs, parked := s.parked + qs)
  {
    if qs == [] {
      assert s.arrived + [] == s.arrived && s.parked + [] == s.parked;
    } else {
      var n := |qs| - 1;
      ArrivedMeans(s, qs[..n]);
      assert qs == qs[..n] + [qs[n]];
      assert s.arrived + qs == s.arrived + qs[..n] + [qs[n]];
      assert s.parked + qs == s.parked + qs[..n] + [qs[n]];
    }
  }

  function AllArrivals(rounds: seq<Round>): seq<Request> {
    if rounds == [] then [] else AllArrivals(rounds[..|rounds| - 1]) + rounds[|rounds| - 1].arrivals
  }

  // The code

  class ProxyServer {
    var parked: seq<Request>
    var relayed: seq<Relay>
    var stored: set<Response>
    var running: bool
    ghost var arrived: seq<Request>
    ghost var lost: seq<Request>
    ghost var origin: set<Response>

    /** The state while jobs are still to be served. */
    ghost function At(jobs: seq<Request>): State
      reads this
    {
      State(arrived, parked, jobs, relayed, lost, running, stored, origin)
    }

    /** Only what the origin sent is ever stored, and only an exception loses requests. */
    ghost predicate Valid()
      reads this
    {
      stored <= origin && (running ==> lost == [])
    }

    constructor ()
      ensures Valid() && At([]) == Init()
    {
      parked, relayed, stored, running := [], [], {}, true;
      arrived, lost, origin := [], [], {};
    }

    /** The handler: parks the request and defers it. */
    method ProxyHandler(conn: nat, stream: nat)
      requires running && Valid()
      modifies this
      ensures Valid()
      ensures At([]) == Apply(old(At([])), Arrive(Request(conn, stream)))
    {
      parked := parked + [Request(conn, stream)];
      arrived := arrived + [Request(conn, stream)];
    }

    /** get_signed: a hit is something stored, so a response the origin sent; what is not stored is a miss. */
    method GetSigned(w: World) returns (r: Lookup)
      requires Valid()
      ensures r.Hit? ==> r.r in stored && r.r in origin
      ensures r == w.cached || (r == Miss && w.cached.Hit? && w.cached.r !in stored)
    {
      r := if w.cached.Hit? && w.cached.r !in stored then Miss else w.cached;
    }

    method RelayTo(q: Request, r: Response, fails: bool)
      modifies `relayed
      ensures relayed == if fails then old(relayed) else old(relayed) + [Relay(q, r)]
    {
      if !fails {
        relayed := relayed + [Relay(q, r)];
      }
    }

    method PutSigned(r: Response, fails: bool)
      modifies `stored
      ensures stored == if fails then old(stored) else old(stored) + {r}
    {
      if !fails {
        stored := stored + {r};
      }
    }

    /** Answers one job; ok is false when a call raised. */
    method ServeJob(q: Request, ghost rest: seq<Request>, w: World) returns (ok: bool)
      requires running && Valid()
      modifies this
      ensures Valid()
      ensures At(if ok then rest else []) == ServeOne(old(At([q] + rest)), w) && ok == running
      ensures ok && !(w.cached.Hit? && w.cached.r in old(stored)) ==> w.origin in stored
      ensures w.cached.Hit? && w.cached.r in old(stored) ==> ok == !w.relayFails && origin == old(origin)
    {
      assert ([q] + rest)[1..] == rest;
      ok := true;
      var hit := GetSigned(w);
      assert hit == LookedUp(At([q] + rest), w);
      match hit {
        case LookupRaises => ok := Raised([q] + rest);
        case Hit(r) =>
          RelayTo(q, r, w.relayFails);
          if w.relayFails { ok := Raised([q] + rest); }
        case Miss =>
          if w.sendFails { ok := Raised([q] + rest); return; }
          var fetched := w.origin;
          origin := origin + {fetched};
          RelayTo(q, fetched, w.relayFails);
          if w.relayFails { ok := Raised([q] + rest); return; }
          PutSigned(fetched, w.putFails);
          if w.putFails { ok := Raised(rest); }
      }
    }

    /** An exception leaves serve_parked and ends the driving thread. */
    method Raised(ghost unanswered: seq<Request>) returns (ok: bool)
      modifies `running, `lost
      ensures !ok && !running && lost == unanswered
    {
      running := false;
      lost := unanswered;
      return false;
    }

    /** serve_parked: takes the whole queue, then answers it job by job. */
    method ServeParked(world: nat -> World)
      requires running && Valid()
      modifies this
      ensures Valid()
      ensures At([]) == Drain(Apply(old(At([])), Snapshot), world, 0)
    {
      var jobs := parked;
      parked := [];
      ghost var promised := Drain(At(jobs), world, 0);
      assert jobs[0..] == jobs;
      var k := 0;
      while k < |jobs|
        invariant k <= |jobs| && running && Valid()
        invariant promised == Drain(At(jobs[k..]), world, k)
      {
        ghost var before := At(jobs[k..]);
        assert jobs[k..] == [jobs[k]] + jobs[k + 1..];
        var ok := ServeJob(jobs[k], jobs[k + 1..], world(k));
        ghost var now := At(if ok then jobs[k + 1..] else []);
        DrainUnfolds(before, world, k);
        assert now == ServeOne(before, world(k));
        if !ok { return; }
        k := k + 1;
      }
    }

    /** server.tick: the handler runs for each request that arrives in it; the tick itself may raise. */
    method TickServer(arrivals: seq<Request>, ok: bool)
      requires running && Valid()
      modifies this
      ensures Valid()
      ensures At([]) == Apply(Arrived(old(At([])), arrivals), Tick(ok))
    {
      assert arrivals[..0] == [];
      for k := 0 to |arrivals|
        invariant running && Valid() && At([]) == Arrived(old(At([])), arrivals[..k])
      {
        ProxyHandler(arrivals[k].conn, arrivals[k].stream);
        assert arrivals[..k + 1][..k] == arrivals[..k];
      }
      assert arrivals[..|arrivals|] == arrivals;
      if !ok {
        var _ := Raised([]);
      }
    }

    /** One turn: tick, then drain.  If the thread survives it, what arrived has been answered. */
    method DriveOnce(r: Round)
      requires running && Valid() && parked == []
      modifies this
      ensures Valid()
      ensures running ==> parked == [] && Answered(relayed) == Answered(old(relayed)) + r.arrivals
    {
      ArrivedMeans(At([]), r.arrivals);
      TickServer(r.arrivals, r.ok);
      if !running { return; }
      DrainAnswersTheSnapshot(Apply(At([]), Snapshot), r.world, 0);
      ServeParked(r.world);
    }

    /**
     The driving loop, one round per tick.  As long as it runs, the requests of every round so far
     have been answered, once each and in the order in which they came.
     */
    method Loop(rounds: seq<Round>)
      requires running && Valid() && parked == []
      modifies this
      ensures Valid()
      ensures running ==> parked == [] && Answered(relayed) == Answered(old(relayed)) + AllArrivals(rounds)
    {
      assert rounds[..0] == [];
      assert Answered(relayed) + [] == Answered(relayed);
      for k := 0 to |rounds|
        invariant running && Valid() && parked == []
        invariant Answered(relayed) == Answered(old(relayed)) + AllArrivals(rounds[..k])
      {
        DriveOnce(rounds[k]);
        if !running { return; }
        assert rounds[..k + 1][..k] == rounds[..k];
        assert Answered(old(relayed)) + AllArrivals(rounds[..k]) + rounds[k].arrivals
            == Answered(old(relayed)) + (AllArrivals(rounds[..k]) + rounds[k].arrivals);
      }
      assert rounds[..|rounds|] == rounds;
    }
  }
}
