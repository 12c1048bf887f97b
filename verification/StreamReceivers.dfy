/**
 The two loops that receive a streamed body: the coroutine of examples/managed_stream.py:98-111, which
 awaits AsyncStream.recv, and the driven loop of examples/nwcurl.py:83-96, which calls
 Stream.recv itself (nwep/client.py:729-766).
 */
module StreamReceivers {
  import opened Pump
  import opened StreamPipeline
  import opened StreamTheorems

  datatype Received = Chunked(bytes: seq<bv8>) | EndOfBody | Raised(error: Error) | Unobserved

  /** The awaiting task, in a pipeline where everybody else moves between its steps. */
  class Awaiter {
    const c: Config
    var state: State
    var script: seq<seq<Action>>
    ghost var trace: seq<Action>

    ghost predicate Valid()
      reads this
    {
      Runs(c, Init(), trace) && Run(c, Init(), trace) == state && AllKept(state)
    }

    constructor (c: Config, script: seq<seq<Action>>)
      ensures Valid() && this.c == c && state == Init()
    {
      this.c, this.script := c, script;
      state, trace := Init(), [];
    }

    method Step(a: Action)
      requires Valid() && Enabled(c, state, a) && !Abandons(a)
      modifies this`state, this`trace
      ensures Valid() && state == Apply(c, old(state), a)
    {
      RunSnoc(c, Init(), trace, a);
      AllKeptStep(c, state, a);
      trace := trace + [a];
      state := Apply(c, state, a);
    }

    /** The server, the network, the owner thread and an aclose from elsewhere. */
    method Others(acts: seq<Action>)
      requires Valid()
      modifies this`state, this`trace
      ensures Valid() && state.task == old(state.task).(stop := state.task.stop)
      ensures old(state.reader.enqueued) <= state.reader.enqueued
    {
      for k := 0 to |acts|
        invariant Valid() && state.task == old(state.task).(stop := state.task.stop)
        invariant old(state.reader.enqueued) <= state.reader.enqueued
      {
        if Enabled(c, state, acts[k]) && (acts[k].Task? ==> acts[k].task.AClose?) {
          Step(acts[k]);
        }
      }
    }

    /** recv: waits until the queue has an item, and makes a result of it. */
    method Recv() returns (r: Received)
      requires Valid() && !state.task.waiting
      modifies this
      ensures Valid()
      ensures match r
              case Unobserved => state.task.received == old(state.task.received) && script == []
              case Chunked(bytes) => bytes != [] && !state.task.waiting
                                     && state.task.received == old(state.task.received) + bytes
              case EndOfBody => state.task.sawEnd && state.task.received == old(state.task.received)
              case Raised(_) => state.task.received == old(state.task.received)
      ensures !r.Unobserved? ==>
                && |old(state.task.kept)| < |state.reader.enqueued|
                && match state.reader.enqueued[|old(state.task.kept)|]
                   case Chunk(bytes) => r == Chunked(bytes)
                   case End => r == EndOfBody
                   case Failure(error) => r == Raised(error)
      ensures |script| <= |old(script)| && (|script| == |old(script)| ==> state.reader.enqueued == old(state.reader.enqueued))
      ensures |state.task.kept| == |old(state.task.kept)| + if r.Unobserved? then 0 else 1
    {
      Step(Task(TaskAction.Recv));
      while |state.task.kept| == |state.reader.enqueued|
        invariant Valid() && state.task == old(state.task).(waiting := true, stop := state.task.stop)
        invariant |script| <= |old(script)| && (|script| == |old(script)| ==> state.reader.enqueued == old(state.reader.enqueued))
        decreases |script|
      {
        if script == [] { return Unobserved; }
        var acts := script[0];
        script := script[1..];
        Others(acts);
      }
      var item := state.reader.enqueued[|state.task.kept|];
      InvRun(c, Init(), trace);
      Step(Task(Take));
      if item.End? { return EndOfBody; }
      if item.Failure? { return Raised(item.error); }
      return Chunked(item.bytes);
    }

    /**
     The loop of main: what it assembles is always a prefix of the body unless the network
     tampers, and it is the whole body whenever the loop is left by None, tampering or not.
     */
    method ReceiveBody() returns (end: Received, received: seq<bv8>, chunks: nat)
      requires Valid() && state == Init()
      modifies this
      ensures Valid() && received == state.task.received
      ensures end.EndOfBody? ==> received == c.body
      ensures !state.link.tampered ==> received <= c.body
      ensures chunks == |state.task.kept| - if end.EndOfBody? || end.Raised? then 1 else 0
      ensures !end.Chunked? && (end.Unobserved? ==> script == [])
    {
      received, chunks := [], 0;
      end := Recv();
      while end.Chunked?
        invariant Valid() && (end.Chunked? ==> !state.task.waiting)
        invariant state.task.received == received + if end.Chunked? then end.bytes else []
        invariant (end.EndOfBody? ==> state.task.sawEnd) && (end.Unobserved? ==> script == [])
        invariant |state.task.kept| == chunks + if end.Unobserved? then 0 else 1
        decreases if end.Chunked? then 1 else 0, |script|, |state.reader.enqueued| - |state.task.kept|
      {
        received := received + end.bytes;
        chunks := chunks + 1;
        end := Recv();
      }
      assert !LostChunk(state.reader.enqueued, state.task.kept);
      if end.EndOfBody? { VerifiedEndIsWholeBody(c, trace); }
      if !state.link.tampered { AlwaysAPrefix(c, trace); }
    }
  }

  // The driven loop

  /** What happens before the loop's next call, and how C answers it. */
  datatype Turn = Turn(others: seq<Action>, ok: bool, size: nat, ended: bool)

  /** A reader that has been handed these bytes, for the transport's invariant. */
  function ReaderOf(recvd: seq<bv8>): Reader {
    Reader(Receiving, recvd, if recvd == [] then [] else [Chunk(recvd)], true, true)
  }

  /** C writes what it hands out to the front of a zeroed buffer. */
  method Fill(size: nat, bytes: seq<bv8>) returns (buf: array<bv8>)
    requires |bytes| <= size
    ensures fresh(buf) && buf.Length == size && buf[..|bytes|] == bytes
  {
    buf := new bv8[size](_ => 0);
    for i := 0 to |bytes|
      invariant buf[..i] == bytes[..i]
    {
      buf[i] := bytes[i];
    }
  }

  class DrivenStream {
    const c: Config
    var origin: Origin
    var link: Transport
    var closed: bool
    var script: seq<Turn>
    var recvd: seq<bv8>             // what C has handed out, which verify hashes

    ghost function At(): State
      reads this
    {
      State(origin, link, ReaderOf(recvd), Init().task)
    }

    ghost predicate Valid()
      reads this
    {
      Inv(c, At())
    }

    constructor (c: Config, script: seq<Turn>)
      ensures Valid() && this.c == c && recvd == [] && !closed && link == Init().link
    {
      this.c, this.script := c, script;
      origin, link, closed, recvd := Init().origin, Init().link, false, [];
    }

    /** The server and the network, while C drives the exchange. */
    method Others(acts: seq<Action>)
      requires Valid()
      modifies this`origin, this`link
      ensures Valid()
    {
      for k := 0 to |acts|
        invariant Valid()
      {
        match acts[k]
        case Server(call) =>
          var now := State(origin, link, Init().reader, Init().task);
          if ServerEnabled(c, now, call) {
            ServerKeepsInv(c, At(), call);
            var after := ServerStep(c, now, call);
            origin, link := after.origin, after.link;
          }
        case Net(net) =>
          var now := State(origin, link, Init().reader, Init().task);
          if NetEnabled(c, now, net) {
            TransportKeepsInv(c, At(), net);
            link := NetStep(c, now, net).link;
          }
        case _ =>
      }
    }

    /**
     Stream.recv: C fills a buffer of the given size with what has arrived, and the chunk is the
     filled part; ended once everything up to the FIN has been handed out.
     */
    method Recv(size: nat, turn: Turn) returns (ok: bool, chunk: seq<bv8>, ended: bool)
      requires Valid()
      modifies this`link, this`recvd
      ensures Valid() && ok == (turn.ok && !closed)
      ensures |chunk| <= size && recvd == old(recvd) + chunk
      ensures old(link.rx) == chunk + link.rx && link == old(link).(rx := link.rx)
      ensures ok ==> |chunk| == Min(Min(turn.size, size), |old(link.rx)|)
      ensures ended <==> ok && turn.ended && link.finSeen && link.rx == []
      ensures !ok ==> chunk == [] && !ended && link == old(link)
    {
      ok, chunk, ended := turn.ok && !closed, [], false;
      if !ok { return; }
      var n := Min(Min(turn.size, size), |link.rx|);
      var buf := Fill(size, link.rx[..n]);
      chunk := buf[..n];
      ended := turn.ended && link.finSeen && n == |link.rx|;
      RecvKeepsInv(c, At(), chunk, link.rx[n..]);
      recvd := recvd + chunk;
      link := link.(rx := link.rx[n..]);
    }

    /** Stream.verify: passes only what the peer signed. */
    method Verify(turn: Turn) returns (ok: bool)
      requires Valid()
      ensures ok ==> recvd == c.body
      ensures ok <==> turn.ok && !closed && origin.trailer == Some(recvd)
    {
      ok := turn.ok && !closed && origin.trailer == Some(recvd);
    }

    /** The loop up to verify; ended is false when a recv raised or the observed run stops before. */
    method ReceiveBody() returns (ended: bool, verified: bool, received: seq<bv8>, raised: bool)
      requires Valid() && recvd == []
      modifies this
      ensures Valid() && received == recvd
      ensures verified ==> ended && received == c.body
      ensures !link.tampered ==> received <= c.body
      ensures !ended ==> raised || script == []
      ensures raised ==> closed || exists i :: 0 <= i < |old(script)| && !old(script)[i].ok
      ensures ended && script != [] ==> (verified <==> script[0].ok && !closed && origin.trailer == Some(received))
    {
      received, ended, verified, raised := [], false, false, false;
      ghost var k := 0;
      while !ended
        invariant Valid() && received == recvd && !verified && !raised && closed == old(closed)
        invariant k <= |old(script)| && script == old(script)[k..]
        decreases if ended then 0 else 1, |script|
      {
        if script == [] { break; }
        var turn := script[0];
        script := script[1..];
        assert turn == old(script)[k];
        k := k + 1;
        Others(turn.others);
        var ok, chunk;
        ok, chunk, ended := Recv(STREAM_CHUNK, turn);
        if !ok {
          raised := true;
          break;
        }
        received := received + chunk;
      }
      if ended && script != [] {
        Others(script[0].others);
        verified := Verify(script[0]);
      }
      if !link.tampered {
        HandedOutIsPrefix(c, At());
      }
    }
  }

  lemma HandedOutIsPrefix(c: Config, s: State)
    requires Inv(c, s) && !s.link.tampered
    ensures s.reader.recvd <= c.body
  {
    assert s.reader.recvd <= s.reader.recvd + s.link.rx + s.link.wire == s.origin.accepted;
  }

  lemma ReaderOfRight(c: Config, recvd: seq<bv8>, stop: bool)
    ensures ItemsRight(c, ReaderOf(recvd), stop)
  {
    if recvd != [] {
      assert BytesUpTo([Chunk(recvd)], 1) == [] + recvd == recvd;
    }
    assert recvd + [] == recvd;
  }

  lemma PipeMoves(c: Config, o: Origin, l: Transport, recvd: seq<bv8>, front: seq<bv8>, back: seq<bv8>)
    requires TransportRight(c, o, l, ReaderOf(recvd)) && l.rx == front + back
    ensures TransportRight(c, o, l.(rx := back), ReaderOf(recvd + front))
  {
    assert recvd + (front + back) + l.wire == (recvd + front) + back + l.wire;
  }

  /** Handing out the front of what has arrived keeps the transport a pipe. */
  lemma RecvKeepsInv(c: Config, s: State, front: seq<bv8>, back: seq<bv8>)
    requires Inv(c, s) && s.reader == ReaderOf(s.reader.recvd) && s.task == Init().task
    requires s.link.rx == front + back
    ensures Inv(c, State(s.origin, s.link.(rx := back), ReaderOf(s.reader.recvd + front), s.task))
  {
    PipeMoves(c, s.origin, s.link, s.reader.recvd, front, back);
    ReaderOfRight(c, s.reader.recvd + front, s.task.stop);
  }
}
