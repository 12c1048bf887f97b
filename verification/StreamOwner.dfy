/**
 The code of AsyncStream (nwep/runtime.py:450-579) in its imperative form: what recv makes of an
 item, and the owner thread's loop with its except and finally.  Each method performs actions of
 StreamPipeline, so the theorems about runs hold of the objects here.
 */
module StreamOwner {
  import opened Pump
  import opened StreamPipeline
  import opened StreamTheorems

  /** What happens before the owner's next atomic step, and how the C library will answer it. */
  datatype Turn = Turn(others: seq<Action>, ok: bool, size: nat, ended: bool)

  /** How AsyncStream.recv ends. */
  datatype RecvResult = Bytes(bytes: seq<bv8>) | EndOfBody | RecvRaises(error: Error)

  class StreamBridge {
    const c: Config
    var origin: Origin
    var link: Transport
    var recvd: seq<bv8>
    var enqueued: seq<Item>
    var streamOpen: bool
    var clientOpen: bool
    var task: Consumer
    var script: seq<Turn>
    var turn: Turn
    ghost var model: State
    ghost var trace: seq<Action>

    /** The object's history is a run of the transition system, and its fields are that run's. */
    ghost predicate Valid()
      reads this
    {
      && Runs(c, Init(), trace) && Run(c, Init(), trace) == model
      && origin == model.origin && link == model.link && task == model.task
      && recvd == model.reader.recvd && enqueued == model.reader.enqueued
      && streamOpen == model.reader.streamOpen && clientOpen == model.reader.clientOpen
    }

    /** Where the owner thread is. */
    ghost function At(): Owner
      reads this
    {
      model.reader.owner
    }

    twostate predicate Did(a: Action)
      reads this
    {
      && Enabled(c, old(model), a)
      && model == Apply(c, old(model), a) && trace == old(trace) + [a]
      && script == old(script) && turn == old(turn)
    }

    /** Writes an action into the history. */
    ghost method Record(a: Action)
      requires Runs(c, Init(), trace) && Run(c, Init(), trace) == model && Enabled(c, model, a)
      modifies this`model, this`trace
      ensures Runs(c, Init(), trace) && Run(c, Init(), trace) == model
      ensures model == Apply(c, old(model), a) && trace == old(trace) + [a]
    {
      RunSnoc(c, Init(), trace, a);
      model, trace := Apply(c, model, a), trace + [a];
    }

    lemma ValidIsInv()
      requires Valid()
      ensures Inv(c, model)
    {
      InvRun(c, Init(), trace);
    }

    constructor (c: Config, script: seq<Turn>)
      ensures Valid() && model == Init() && this.script == script && this.c == c
    {
      this.c := c;
      origin, link, task := Init().origin, Init().link, Init().task;
      recvd, enqueued, streamOpen, clientOpen := [], [], true, true;
      this.script := script;
      turn := Turn([], true, 0, false);
      model, trace := Init(), [];
    }

    // The awaiting task

    method StartRecv()
      requires Valid() && !task.waiting
      modifies this
      ensures Valid() && Did(Task(Recv))
    {
      task := task.(waiting := true);
      Record(Task(Recv));
    }

    /** The executor's queue.get returns an item and recv makes a result of it. */
    method FinishRecv() returns (r: RecvResult)
      requires Valid() && task.waiting && |task.kept| < |enqueued|
      modifies this
      ensures Valid() && Did(Task(Take))
      ensures match old(enqueued)[|old(task.kept)|]
              case Chunk(bytes) => r == Bytes(bytes) && bytes != [] && task.received == old(task.received) + bytes
              case End => r == EndOfBody && task.sawEnd
              case Failure(error) => r == RecvRaises(error)
      ensures r.EndOfBody? && !LostChunk(enqueued, task.kept) ==> task.received == c.body
    {
      ValidIsInv();
      var item := enqueued[|task.kept|];
      task := task.(kept := task.kept + [true], waiting := false);
      if item.End? {
        task := task.(sawEnd := true);
        r := EndOfBody;
      } else if item.Failure? {
        r := RecvRaises(item.error);
      } else {
        task := task.(received := task.received + item.bytes);
        r := Bytes(item.bytes);
      }
      Record(Task(Take));
      if r.EndOfBody? { VerifiedEndIsWholeBody(c, trace); }
    }

    /** aclose up to its join. */
    method AClose()
      requires Valid()
      modifies this
      ensures Valid() && Did(Task(TaskAction.AClose)) && task.stop
    {
      task := task.(stop := true);
      Record(Task(TaskAction.AClose));
    }

    // The environment

    /** The server, the network and the awaiting task run between two steps of the owner. */
    method Interfere(others: seq<Action>)
      requires Valid()
      modifies this
      ensures Valid() && At() == old(At()) && script == old(script) && turn == old(turn)
    {
      for k := 0 to |others|
        invariant Valid() && At() == old(At()) && script == old(script) && turn == old(turn)
      {
        var a := others[k];
        match a
        case Server(call) => if ServerEnabled(c, State(origin, link, Init().reader, task), call) { ServerMoves(call); }
        case Net(net) => if NetEnabled(c, State(origin, link, Init().reader, task), net) { NetMoves(net); }
        case Task(t) =>
          if t.AClose? { AClose(); }
          else if t.Recv? && !task.waiting { StartRecv(); }
          else if t.Take? && task.waiting && |task.kept| < |enqueued| { var _ := FinishRecv(); }
          else if t.CancelRecv? && task.waiting { Cancelled(t.started); }
          else if t.OrphanTake? && task.orphans > 0 && |task.kept| < |enqueued| { OrphanTakes(); }
        case Own(_) =>
      }
    }

    method ServerMoves(call: Call)
      requires Valid() && ServerEnabled(c, model, call)
      modifies this
      ensures Valid() && Did(Server(call))
    {
      var t := ServerStep(c, State(origin, link, Init().reader, task), call);
      origin, link := t.origin, t.link;
      Record(Server(call));
    }

    method NetMoves(net: NetAction)
      requires Valid() && NetEnabled(c, model, net)
      modifies this
      ensures Valid() && Did(Net(net))
    {
      link := NetStep(c, State(origin, link, Init().reader, task), net).link;
      Record(Net(net));
    }

    /** The consumer is cancelled while it awaits; its executor thread may already be in queue.get. */
    method Cancelled(started: bool)
      requires Valid() && task.waiting
      modifies this
      ensures Valid() && Did(Task(CancelRecv(started)))
    {
      task := task.(waiting := false, orphans := if started then task.orphans + 1 else task.orphans);
      Record(Task(CancelRecv(started)));
    }

    method OrphanTakes()
      requires Valid() && task.orphans > 0 && |task.kept| < |enqueued|
      modifies this
      ensures Valid() && Did(Task(OrphanTake))
    {
      task := task.(kept := task.kept + [false], orphans := task.orphans - 1);
      Record(Task(OrphanTake));
    }

    method NextTurn() returns (more: bool)
      requires Valid()
      modifies this
      ensures Valid() && At() == old(At())
      ensures more <==> old(script) != []
      ensures if more then |script| < |old(script)| else script == old(script)
    {
      more := script != [];
      if more {
        turn := script[0];
        script := script[1..];
        Interfere(turn.others);
      }
    }

    // The owner thread

    method PeerKey() returns (ok: bool)
      requires Valid() && At().Starting?
      modifies this
      ensures Valid() && Did(Own(OwnerKey(ok))) && ok == old(turn.ok)
      ensures At() == if ok then Checking else Ending(Failure(Network(0)))
    {
      ok := turn.ok;
      Record(Own(OwnerKey(ok)));
    }

    method StopIsSet() returns (stop: bool)
      requires Valid() && At().Checking?
      modifies this
      ensures Valid() && Did(Own(OwnerCheck)) && stop == task.stop
      ensures At() == if stop then ClosingStream else Receiving
    {
      stop := task.stop;
      Record(Own(OwnerCheck));
    }

    /** stream.recv: some bytes that have arrived, and whether they were the last; or a raise. */
    method StreamRecv() returns (ok: bool, chunk: seq<bv8>, ended: bool)
      requires Valid() && At().Receiving?
      modifies this
      ensures Valid() && old(streamOpen && clientOpen) && ok == old(turn.ok)
      ensures ok ==> |chunk| == Min(Min(old(turn.size), STREAM_CHUNK), |old(link.rx)|)
      ensures ok ==> (ended <==> old(turn.ended) && link.finSeen && link.rx == [])
      ensures ok ==> At() == Got(chunk, ended) && Did(Own(OwnerRecv(|chunk|, ended)))
      ensures !ok ==> At() == Ending(Failure(Network(1))) && Did(Own(OwnerRecvFails(1)))
    {
      ValidIsInv();
      ok, chunk, ended := turn.ok, [], false;
      var n := Min(Min(turn.size, STREAM_CHUNK), |link.rx|);
      ghost var step := if ok then OwnerRecv(n, turn.ended && link.finSeen && n == |link.rx|) else OwnerRecvFails(1);
      if ok {
        chunk := link.rx[..n];
        ended := turn.ended && link.finSeen && n == |link.rx|;
        recvd := recvd + chunk;
        link := link.(rx := link.rx[n..]);
      }
      Record(Own(step));
    }

    /** if chunk: items.put(chunk) */
    method PutChunk(chunk: seq<bv8>, ended: bool)
      requires Valid() && At() == Got(chunk, ended)
      modifies this
      ensures Valid() && Did(Own(OwnerPut))
      ensures enqueued == if chunk == [] then old(enqueued) else old(enqueued) + [Chunk(chunk)]
    {
      if chunk != [] {
        enqueued := enqueued + [Chunk(chunk)];
      }
      Record(Own(OwnerPut));
    }

    /** stream.verify; the library passes only what the peer signed. */
    method StreamVerify() returns (ok: bool)
      requires Valid() && At().Verifying?
      modifies this
      ensures Valid() && Did(Own(OwnerVerify(ok))) && old(streamOpen && clientOpen)
      ensures ok ==> recvd == c.body
      ensures ok <==> old(turn.ok) && origin.trailer == Some(recvd)
      ensures At() == Ending(if ok then End else Failure(BadTrailer))
    {
      ValidIsInv();
      ok := turn.ok && origin.trailer == Some(recvd);
      Record(Own(OwnerVerify(ok)));
    }

    method PutTerminal(item: Item)
      requires Valid() && At() == Ending(item)
      modifies this
      ensures Valid() && Did(Own(OwnerEnd)) && enqueued == old(enqueued) + [item]
    {
      enqueued := enqueued + [item];
      Record(Own(OwnerEnd));
    }

    method CloseStream()
      requires Valid() && At().ClosingStream?
      modifies this
      ensures Valid() && Did(Own(OwnerCloseStream)) && old(streamOpen && clientOpen)
    {
      ValidIsInv();
      streamOpen := false;
      Record(Own(OwnerCloseStream));
    }

    method CloseClient()
      requires Valid() && At().ClosingClient?
      modifies this
      ensures Valid() && Did(Own(OwnerCloseClient)) && old(clientOpen && !streamOpen)
    {
      ValidIsInv();
      clientOpen := false;
      Record(Own(OwnerCloseClient));
    }

    /** One recv and what follows it; done when the loop is over (a terminal was queued or will be). */
    method RecvOnce() returns (observed: bool, done: bool)
      requires Valid() && At().Receiving?
      modifies this
      ensures Valid() && (!observed ==> script == [])
      ensures observed ==> |script| < |old(script)| && if done then At().ClosingStream? else At().Checking?
      ensures observed && done ==> trace != [] && LeftBy(trace[|trace| - 1])
    {
      done := false;
      observed := NextTurn();
      if !observed { return; }
      var ok, chunk, ended := StreamRecv();
      if !ok {
        done := true;
        observed := EndWith(Failure(Network(1)));
        return;
      }
      observed := NextTurn();
      if !observed { return; }
      PutChunk(chunk, ended);
      if ended {
        done := true;
        observed := VerifyAndEnd();
      }
    }

    /** The trailer must verify for the body to count as whole. */
    method VerifyAndEnd() returns (observed: bool)
      requires Valid() && At().Verifying?
      modifies this
      ensures Valid() && |script| <= |old(script)| && (!observed ==> script == [])
      ensures observed ==> At().ClosingStream? && trace != [] && LeftBy(trace[|trace| - 1])
    {
      observed := NextTurn();
      if !observed { return; }
      var verified := StreamVerify();
      observed := EndWith(if verified then End else Failure(BadTrailer));
    }

    method EndWith(item: Item) returns (observed: bool)
      requires Valid() && At() == Ending(item)
      modifies this
      ensures Valid() && |script| <= |old(script)| && (!observed ==> script == [])
      ensures observed ==> At().ClosingStream? && trace != [] && LeftBy(trace[|trace| - 1])
      ensures observed ==> enqueued != [] && enqueued[|enqueued| - 1] == item
    {
      observed := NextTurn();
      if observed {
        ValidIsInv();
        PutTerminal(item);
      }
    }

    /** How the loop is left: at a stop check that found stop set, or with a terminal queued. */
    ghost predicate LeftBy(a: Action)
      reads this
    {
      (a == Own(OwnerCheck) && task.stop) || (a == Own(OwnerEnd) && Terminated(enqueued))
    }

    /** while not stop.is_set(), with both returns and the except inside. */
    method RecvLoop() returns (observed: bool)
      requires Valid() && At().Checking?
      modifies this
      ensures Valid() && (!observed ==> script == [])
      ensures (observed ==> At().ClosingStream? && trace != [] && LeftBy(trace[|trace| - 1]))
    {
      observed := true;
      var done := false;
      while observed && !done
        invariant !observed ==> script == []
        invariant Valid() && (observed ==> if done then At().ClosingStream? && trace != [] && LeftBy(trace[|trace| - 1]) else At().Checking?)
        decreases if observed && !done then |script| + 1 else 0
      {
        observed := NextTurn();
        if observed {
          var stop := StopIsSet();
          if stop {
            done := true;
          } else {
            observed, done := RecvOnce();
          }
        }
      }
    }

    /** The owner thread from line 555 on; finished is false when the observed run stops part way. */
    method Owner() returns (finished: bool)
      requires Valid() && At().Starting?
      modifies this
      ensures Valid() && (!finished ==> script == [])
      ensures finished ==> At().Finished? && !streamOpen && !clientOpen
      ensures finished ==> task.stop || Terminated(enqueued)
    {
      finished := NextTurn();
      if finished {
        var ok := PeerKey();
        if ok { finished := RecvLoop(); } else { finished := EndWith(Failure(Network(0))); }
      }
      if finished { finished := Finally(); }
      ValidIsInv();
    }

    method Finally() returns (finished: bool)
      requires Valid() && At().ClosingStream?
      modifies this
      ensures Valid() && (if finished then At().Finished? && !streamOpen && !clientOpen else script == [])
    {
      finished := NextTurn();
      if finished {
        CloseStream();
        finished := NextTurn();
      }
      if finished {
        CloseClient();
        ValidIsInv();
      }
    }
  }
}
