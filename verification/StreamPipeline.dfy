/**
 One streamed body end to end: the server's pump, a bounded byte transport, the owner thread of
 AsyncStream and the coroutine that awaits recv (examples/managed_stream.py:52-73 and 99-111,
 nwep/runtime.py:450-579), under every interleaving, with a network that may also tamper.

 The C library is trusted for one thing only: verify succeeds only if the peer signed, in
 stream_end, exactly the bytes recv has handed out.
 */
module StreamPipeline {
  import opened Pump

  datatype Config = Config(body: seq<bv8>, key: Key, capacity: nat)

  datatype Error = Network(code: int) | BadTrailer

  datatype Item = Chunk(bytes: seq<bv8>) | End | Failure(error: Error)

  datatype Owner =
    | Starting                            // about to read peer_pubkey
    | Checking                            // at the loop's stop check
    | Receiving                           // in stream.recv
    | Got(chunk: seq<bv8>, ended: bool)   // recv returned
    | Verifying                           // in stream.verify
    | Ending(item: Item)                  // about to put the terminal item
    | ClosingStream
    | ClosingClient
    | Finished

  /** The server's side of the stream: what was taken, and what stream_end signed. */
  datatype Origin = Origin(sender: Sender, accepted: seq<bv8>, trailer: Option<seq<bv8>>)

  /** Bytes on the way, and bytes at the client that recv has not read yet. */
  datatype Transport = Link(wire: seq<bv8>, rx: seq<bv8>, finSeen: bool, tampered: bool)

  /** The owner thread: recvd is everything stream.recv returned, enqueued every item ever put. */
  datatype Reader = Reader(owner: Owner, recvd: seq<bv8>, enqueued: seq<Item>, streamOpen: bool, clientOpen: bool)

  /**
   The awaiting task.  The item queue is what follows the first |kept| items; kept says of each
   taken item whether the consumer got it or the executor thread of a cancelled recv swallowed it.
   */
  datatype Consumer = Consumer(
    kept: seq<bool>,
    waiting: bool,           // awaits recv
    orphans: nat,            // executor threads of cancelled recvs, still in queue.get
    received: seq<bv8>,      // the bytearray of the consumer
    sawEnd: bool,            // some recv returned None
    stop: bool)              // aclose was called

  datatype State = State(origin: Origin, link: Transport, reader: Reader, task: Consumer)

  datatype NetAction = Deliver(n: nat) | DeliverFin | Tamper(onWire: seq<bv8>, atClient: seq<bv8>, fin: bool)

  datatype OwnerAction =
    | OwnerKey(ok: bool)
    | OwnerCheck
    | OwnerRecv(n: nat, ended: bool)
    | OwnerRecvFails(code: int)
    | OwnerPut
    | OwnerVerify(ok: bool)
    | OwnerEnd
    | OwnerCloseStream
    | OwnerCloseClient

  datatype TaskAction = Recv | Take | CancelRecv(started: bool) | OrphanTake | AClose

  datatype Action = Server(call: Call) | Net(net: NetAction) | Own(own: OwnerAction) | Task(task: TaskAction)

  const STREAM_CHUNK: nat := 65536

  function Init(): State {
    State(Origin(Sender(0, false), [], None), Link([], [], false, false),
          Reader(Starting, [], [], true, true), Consumer([], false, 0, [], false, false))
  }

  predicate ServerEnabled(c: Config, s: State, call: Call) {
    call.key == c.key && Next(c.body, s.origin.sender, call).Some?
    && (call.Sent? ==> |s.link.wire| + |s.link.rx| + call.took <= c.capacity)
  }

  function ServerStep(c: Config, s: State, call: Call): State
    requires ServerEnabled(c, s, call)
  {
    var o := s.origin.(sender := Next(c.body, s.origin.sender, call).value);
    if call.Sent? then
      var taken := call.data[..call.took];
      s.(origin := o.(accepted := o.accepted + taken), link := s.link.(wire := s.link.wire + taken))
    else if call.Ended? then s.(origin := o.(trailer := Some(o.accepted)))
    else s.(origin := o)
  }

  predicate NetEnabled(c: Config, s: State, a: NetAction) {
    match a
    case Deliver(n) => 0 < n <= |s.link.wire|
    case DeliverFin => s.link.wire == [] && s.origin.trailer.Some? && !s.link.finSeen
    case Tamper(onWire, atClient, _) => |onWire| + |atClient| <= c.capacity
  }

  function NetStep(c: Config, s: State, a: NetAction): State
    requires NetEnabled(c, s, a)
  {
    s.(link := match a
               case Deliver(n) => s.link.(rx := s.link.rx + s.link.wire[..n], wire := s.link.wire[n..])
               case DeliverFin => s.link.(finSeen := true)
               case Tamper(onWire, atClient, fin) => Link(onWire, atClient, fin, true))
  }

  predicate OwnerEnabled(s: State, a: OwnerAction) {
    var owner := s.reader.owner;
    match a
    case OwnerKey(_) => owner.Starting?
    case OwnerCheck => owner.Checking?
    case OwnerRecv(n, ended) =>
      owner.Receiving? && n <= |s.link.rx| && n <= STREAM_CHUNK && (ended ==> s.link.finSeen && n == |s.link.rx|)
    case OwnerRecvFails(_) => owner.Receiving?
    case OwnerPut => owner.Got?
    case OwnerVerify(ok) => owner.Verifying? && (ok ==> s.origin.trailer == Some(s.reader.recvd))
    case OwnerEnd => owner.Ending?
    case OwnerCloseStream => owner.ClosingStream?
    case OwnerCloseClient => owner.ClosingClient?
  }

  /** Reads n bytes of what has arrived. */
  function ReadStep(s: State, n: nat, ended: bool): State
    requires n <= |s.link.rx|
  {
    State(s.origin, s.link.(rx := s.link.rx[n..]),
          s.reader.(owner := Got(s.link.rx[..n], ended), recvd := s.reader.recvd + s.link.rx[..n]), s.task)
  }

  /** Every other step of the owner changes only its own part. */
  function ReaderStep(r: Reader, stop: bool, a: OwnerAction): Reader
    requires !a.OwnerRecv?
    requires a.OwnerEnd? ==> r.owner.Ending?
    requires a.OwnerPut? ==> r.owner.Got?
  {
    match a
    case OwnerKey(ok) => r.(owner := if ok then Checking else Ending(Failure(Network(0))))
    case OwnerCheck => r.(owner := if stop then ClosingStream else Receiving)
    case OwnerRecvFails(code) => r.(owner := Ending(Failure(Network(code))))
    case OwnerPut =>
      r.(enqueued := if r.owner.chunk == [] then r.enqueued else r.enqueued + [Chunk(r.owner.chunk)],
         owner := if r.owner.ended then Verifying else Checking)
    case OwnerVerify(ok) => r.(owner := Ending(if ok then End else Failure(BadTrailer)))
    case OwnerEnd => r.(enqueued := r.enqueued + [r.owner.item], owner := ClosingStream)
    case OwnerCloseStream => r.(streamOpen := false, owner := ClosingClient)
    case OwnerCloseClient => r.(clientOpen := false, owner := Finished)
  }

  function OwnerStep(s: State, a: OwnerAction): State
    requires OwnerEnabled(s, a)
  {
    if a.OwnerRecv? then ReadStep(s, a.n, a.ended)
    else s.(reader := ReaderStep(s.reader, s.task.stop, a))
  }

  predicate TaskEnabled(s: State, a: TaskAction) {
    match a
    case Recv => !s.task.waiting
    case Take => s.task.waiting && |s.task.kept| < |s.reader.enqueued|
    case CancelRecv(_) => s.task.waiting
    case OrphanTake => s.task.orphans > 0 && |s.task.kept| < |s.reader.enqueued|
    case AClose => true
  }

  function TaskStep(s: State, a: TaskAction): State
    requires TaskEnabled(s, a)
  {
    var k := s.task;
    s.(task := match a
               case Recv => k.(waiting := true)
               case Take => TakeItem(k, s.reader.enqueued[|k.kept|])
               case CancelRecv(started) => k.(waiting := false, orphans := if started then k.orphans + 1 else k.orphans)
               case OrphanTake => k.(kept := k.kept + [false], orphans := k.orphans - 1)
               case AClose => k.(stop := true))
  }

  /** What recv does with the item it got. */
  function TakeItem(k: Consumer, item: Item): Consumer {
    k.(kept := k.kept + [true], waiting := false,
       received := if item.Chunk? then k.received + item.bytes else k.received,
       sawEnd := k.sawEnd || item.End?)
  }

  predicate Enabled(c: Config, s: State, a: Action) {
    match a
    case Server(call) => ServerEnabled(c, s, call)
    case Net(net) => NetEnabled(c, s, net)
    case Own(own) => OwnerEnabled(s, own)
    case Task(task) => TaskEnabled(s, task)
  }

  function Apply(c: Config, s: State, a: Action): State
    requires Enabled(c, s, a)
  {
    match a
    case Server(call) => ServerStep(c, s, call)
    case Net(net) => NetStep(c, s, net)
    case Own(own) => OwnerStep(s, own)
    case Task(task) => TaskStep(s, task)
  }

  predicate Runs(c: Config, s: State, acts: seq<Action>)
    decreases |acts|
  {
    acts == [] || (Enabled(c, s, acts[0]) && Runs(c, Apply(c, s, acts[0]), acts[1..]))
  }

  function Run(c: Config, s: State, acts: seq<Action>): State
    requires Runs(c, s, acts)
    decreases |acts|
  {
    if acts == [] then s else Run(c, Apply(c, s, acts[0]), acts[1..])
  }

  // The bytes in a list of items

  function BytesIn(item: Item): seq<bv8> {
    if item.Chunk? then item.bytes else []
  }

  /** The bytes of the first n items. */
  function BytesUpTo(items: seq<Item>, n: nat): seq<bv8>
    requires n <= |items|
  {
    if n == 0 then [] else BytesUpTo(items, n - 1) + BytesIn(items[n - 1])
  }

  /** The bytes of the taken items that reached the consumer. */
  function BytesKept(items: seq<Item>, kept: seq<bool>): seq<bv8>
    requires |kept| <= |items|
  {
    if kept == [] then []
    else
      var n := |kept| - 1;
      BytesKept(items, kept[..n]) + (if kept[n] then BytesIn(items[n]) else [])
  }

  /** A cancelled recv's thread swallowed a chunk. */
  predicate LostChunk(items: seq<Item>, kept: seq<bool>)
    requires |kept| <= |items|
  {
    exists i :: 0 <= i < |kept| && !kept[i] && items[i].Chunk?
  }

  lemma {:induction false} BytesUpToGrows(items: seq<Item>, more: seq<Item>, n: nat)
    requires n <= |items|
    ensures BytesUpTo(items + more, n) == BytesUpTo(items, n)
  {
    if n > 0 { BytesUpToGrows(items, more, n - 1); }
  }

  lemma {:induction false} BytesKeptGrows(items: seq<Item>, more: seq<Item>, kept: seq<bool>)
    requires |kept| <= |items|
    ensures BytesKept(items + more, kept) == BytesKept(items, kept)
    decreases |kept|
  {
    if kept != [] { BytesKeptGrows(items, more, kept[..|kept| - 1]); }
  }

  lemma {:induction false} BytesUpToMonotone(items: seq<Item>, m: nat, n: nat)
    requires m <= n <= |items|
    ensures BytesUpTo(items, m) <= BytesUpTo(items, n)
  {
    if m < n { BytesUpToMonotone(items, m, n - 1); }
  }

  /** Nothing is missing from what the consumer got exactly when no chunk was swallowed. */
  lemma {:induction false} KeptAllIffNoneLost(items: seq<Item>, kept: seq<bool>)
    requires |kept| <= |items|
    requires forall i :: 0 <= i < |items| && items[i].Chunk? ==> items[i].bytes != []
    ensures |BytesKept(items, kept)| <= |BytesUpTo(items, |kept|)|
    ensures LostChunk(items, kept) ==> |BytesKept(items, kept)| < |BytesUpTo(items, |kept|)|
    ensures !LostChunk(items, kept) ==> BytesKept(items, kept) == BytesUpTo(items, |kept|)
    decreases |kept|
  {
    if kept != [] {
      var n := |kept| - 1;
      var before := kept[..n];
      KeptAllIffNoneLost(items, before);
      if LostChunk(items, before) {
        var i :| 0 <= i < |before| && !before[i] && items[i].Chunk?;
        assert !kept[i];
      }
      if LostChunk(items, kept) && !LostChunk(items, before) {
        assert forall k :: 0 <= k < n ==> before[k] == kept[k];
        var i :| 0 <= i < |kept| && !kept[i] && items[i].Chunk?;
        assert i == n;
      }
    }
  }

  // The invariant

  predicate WellFormed(items: seq<Item>) {
    && (forall i :: 0 <= i < |items| && items[i].Chunk? ==> items[i].bytes != [])
    && (forall i :: 0 <= i < |items| - 1 ==> items[i].Chunk?)
  }

  predicate Terminated(items: seq<Item>) {
    items != [] && !items[|items| - 1].Chunk?
  }

  predicate Closed(o: Owner) {
    o.ClosingStream? || o.ClosingClient? || o.Finished?
  }

  function InHand(o: Owner): seq<bv8> {
    if o.Got? then o.chunk else []
  }

  predicate ServerRight(c: Config, o: Origin) {
    && o.sender.sent <= |c.body| && o.accepted == c.body[..o.sender.sent]
    && (o.sender.ended ==> o.sender.sent == |c.body|)
    && (o.trailer.Some? ==> o.sender.ended && o.trailer.value == c.body)
  }

  /** As long as nobody tampers, the transport is a pipe; it never holds more than its capacity. */
  predicate TransportRight(c: Config, o: Origin, l: Transport, r: Reader) {
    && |l.wire| + |l.rx| <= c.capacity
    && (!l.tampered ==>
          && r.recvd + l.rx + l.wire == o.accepted
          && (l.finSeen ==> o.trailer.Some? && l.wire == [])
          && (r.owner.Verifying? || (r.owner.Got? && r.owner.ended) ==> l.finSeen && l.rx == []))
  }

  predicate ItemsRight(c: Config, r: Reader, stop: bool) {
    && WellFormed(r.enqueued)
    && BytesUpTo(r.enqueued, |r.enqueued|) + InHand(r.owner) == r.recvd
    && (!Closed(r.owner) ==> !Terminated(r.enqueued))
    && (Closed(r.owner) ==> Terminated(r.enqueued) || stop)
    && (Terminated(r.enqueued) && r.enqueued[|r.enqueued| - 1].End? ==> r.recvd == c.body)
    && (r.owner.Ending? ==> !r.owner.item.Chunk? && (r.owner.item.End? ==> r.recvd == c.body))
  }

  predicate KeptEnd(items: seq<Item>, kept: seq<bool>)
    requires |kept| <= |items|
  {
    exists i :: 0 <= i < |kept| && kept[i] && items[i].End?
  }

  predicate ConsumerRight(items: seq<Item>, k: Consumer) {
    && |k.kept| <= |items|
    && k.received == BytesKept(items, k.kept)
    && (k.sawEnd <==> KeptEnd(items, k.kept))
  }

  predicate HandlesRight(r: Reader) {
    && (r.clientOpen == !r.owner.Finished?)
    && (r.streamOpen == !(r.owner.ClosingClient? || r.owner.Finished?))
  }

  predicate Inv(c: Config, s: State) {
    && ServerRight(c, s.origin)
    && TransportRight(c, s.origin, s.link, s.reader)
    && ItemsRight(c, s.reader, s.task.stop)
    && ConsumerRight(s.reader.enqueued, s.task)
    && HandlesRight(s.reader)
  }

  lemma ServerKeepsInv(c: Config, s: State, call: Call)
    requires Inv(c, s) && ServerEnabled(c, s, call)
    ensures Inv(c, ServerStep(c, s, call))
  {
    var o, t := s.origin, ServerStep(c, s, call);
    if call.Sent? {
      var taken := call.data[..call.took];
      assert taken == c.body[o.sender.sent..t.origin.sender.sent];
      assert c.body[..o.sender.sent] + taken == c.body[..t.origin.sender.sent];
      assert s.reader.recvd + s.link.rx + (s.link.wire + taken) == (s.reader.recvd + s.link.rx + s.link.wire) + taken;
    }
  }

  lemma TransportKeepsInv(c: Config, s: State, a: NetAction)
    requires Inv(c, s) && NetEnabled(c, s, a)
    ensures Inv(c, NetStep(c, s, a))
  {
    if a.Deliver? {
      var front, back := s.link.wire[..a.n], s.link.wire[a.n..];
      assert front + back == s.link.wire;
      assert s.reader.recvd + (s.link.rx + front) + back == s.reader.recvd + s.link.rx + (front + back);
    }
  }

  lemma ReadKeepsInv(c: Config, s: State, n: nat, ended: bool)
    requires Inv(c, s) && OwnerEnabled(s, OwnerRecv(n, ended))
    ensures Inv(c, ReadStep(s, n, ended))
  {
    var chunk, rest := s.link.rx[..n], s.link.rx[n..];
    assert (s.reader.recvd + chunk) + rest == s.reader.recvd + s.link.rx;
    var bytes := BytesUpTo(s.reader.enqueued, |s.reader.enqueued|);
    assert bytes == bytes + [] == s.reader.recvd;
  }

  /** Putting an item keeps the order of the bytes. */
  lemma PutKeepsItems(c: Config, r: Reader, stop: bool, a: OwnerAction)
    requires ItemsRight(c, r, stop) && (if a.OwnerPut? then r.owner.Got? else a.OwnerEnd? && r.owner.Ending?)
    ensures ItemsRight(c, ReaderStep(r, stop, a), stop)
  {
    var t := ReaderStep(r, stop, a);
    assert forall i :: 0 <= i < |r.enqueued| ==> r.enqueued[i].Chunk?;
    if t.enqueued != r.enqueued {
      var item := t.enqueued[|r.enqueued|];
      assert t.enqueued == r.enqueued + [item];
      BytesUpToGrows(r.enqueued, [item], |r.enqueued|);
    }
    var bytes := BytesUpTo(t.enqueued, |t.enqueued|);
    assert bytes + [] == bytes;
  }

  /** And it leaves alone what the consumer has already taken. */
  lemma PutKeepsConsumer(items: seq<Item>, item: Item, k: Consumer)
    requires ConsumerRight(items, k)
    ensures ConsumerRight(items + [item], k)
  {
    BytesKeptGrows(items, [item], k.kept);
    assert forall i :: 0 <= i < |k.kept| ==> (items + [item])[i] == items[i];
  }

  lemma PutKeepsInv(c: Config, s: State, a: OwnerAction)
    requires Inv(c, s) && OwnerEnabled(s, a) && (a.OwnerPut? || a.OwnerEnd?)
    ensures Inv(c, OwnerStep(s, a))
  {
    PutKeepsItems(c, s.reader, s.task.stop, a);
    PutKeepsConsumer(s.reader.enqueued, if a.OwnerPut? then Chunk(s.reader.owner.chunk) else s.reader.owner.item, s.task);
  }

  lemma OwnPaceKeepsInv(c: Config, s: State, a: OwnerAction)
    requires Inv(c, s) && OwnerEnabled(s, a) && !a.OwnerRecv? && !a.OwnerPut? && !a.OwnerEnd?
    ensures Inv(c, OwnerStep(s, a))
  {
    var bytes := BytesUpTo(s.reader.enqueued, |s.reader.enqueued|);
    assert bytes + [] == bytes;
  }

  lemma KeptEndGrows(items: seq<Item>, kept: seq<bool>, keep: bool)
    requires |kept| < |items|
    ensures KeptEnd(items, kept + [keep]) <==> KeptEnd(items, kept) || (keep && items[|kept|].End?)
  {
    var now := kept + [keep];
    assert now[|kept|] == keep;
    if KeptEnd(items, kept) {
      var i :| 0 <= i < |kept| && kept[i] && items[i].End?;
      assert now[i];
    }
    if KeptEnd(items, now) {
      var i :| 0 <= i < |now| && now[i] && items[i].End?;
      assert i == |kept| || kept[i];
    }
  }

  lemma BytesKeptTakes(items: seq<Item>, kept: seq<bool>, keep: bool)
    requires |kept| < |items|
    ensures BytesKept(items, kept + [keep]) ==
            if keep && items[|kept|].Chunk? then BytesKept(items, kept) + items[|kept|].bytes else BytesKept(items, kept)
  {
    var now := kept + [keep];
    assert now[..|now| - 1] == kept && now[|kept|] == keep;
    assert BytesKept(items, kept) + [] == BytesKept(items, kept);
  }

  lemma TaskKeepsInv(c: Config, s: State, a: TaskAction)
    requires Inv(c, s) && TaskEnabled(s, a)
    ensures Inv(c, TaskStep(s, a))
  {
    if a.Take? || a.OrphanTake? {
      KeptEndGrows(s.reader.enqueued, s.task.kept, a.Take?);
      BytesKeptTakes(s.reader.enqueued, s.task.kept, a.Take?);
    }
  }

  lemma InvKept(c: Config, s: State, a: Action)
    requires Inv(c, s) && Enabled(c, s, a)
    ensures Inv(c, Apply(c, s, a))
  {
    match a
    case Server(call) => ServerKeepsInv(c, s, call);
    case Net(net) => TransportKeepsInv(c, s, net);
    case Own(own) =>
      if own.OwnerRecv? { ReadKeepsInv(c, s, own.n, own.ended); }
      else if own.OwnerPut? || own.OwnerEnd? { PutKeepsInv(c, s, own); }
      else { OwnPaceKeepsInv(c, s, own); }
    case Task(task) => TaskKeepsInv(c, s, task);
  }

  lemma {:induction false} InvRun(c: Config, s: State, acts: seq<Action>)
    requires Inv(c, s) && Runs(c, s, acts)
    ensures Inv(c, Run(c, s, acts))
    decreases |acts|
  {
    if acts != [] {
      InvKept(c, s, acts[0]);
      InvRun(c, Apply(c, s, acts[0]), acts[1..]);
    }
  }
}
