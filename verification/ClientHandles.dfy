/**
 Who closes a connection (nwep/client.py:421-438, 445-505, 694-776): a Connecting hands its C
 handle to the Client it yields, a failed handshake is closed by the C library itself, streams
 borrow their client, and every object may be closed or finalized any number of times.
 */
module ClientHandles {

  /** The C library's side of one connection. */
  class Connection {
    var closes: nat                 // times the handle was closed, by Python or by a failed poll
    var streamCloses: seq<nat>      // stream_close calls, per stream id
    var strays: nat                 // stream_close calls that reached a closed connection

    constructor ()
      ensures closes == 0 && streamCloses == [] && strays == 0
    {
      closes, streamCloses, strays := 0, [], 0;
    }

    /** nwep_client_close */
    method Close()
      modifies this
      ensures closes == old(closes) + 1 && streamCloses == old(streamCloses) && strays == old(strays)
    {
      closes := closes + 1;
    }

    /** nwep_client_open_stream */
    method Open() returns (id: nat)
      modifies this
      ensures id == |old(streamCloses)| && streamCloses == old(streamCloses) + [0]
      ensures closes == old(closes) && strays == old(strays)
    {
      id := |streamCloses|;
      streamCloses := streamCloses + [0];
    }

    /** nwep_client_stream_close */
    method CloseStream(id: nat)
      requires id < |streamCloses|
      modifies this
      ensures streamCloses == old(streamCloses)[id := old(streamCloses[id]) + 1]
      ensures closes == old(closes) && strays == old(strays) + if closes > 0 then 1 else 0
    {
      streamCloses := streamCloses[id := streamCloses[id] + 1];
      if closes > 0 {
        strays := strays + 1;
      }
    }
  }

  class Client {
    const handle: Connection
    var closed: bool

    constructor (handle: Connection)
      ensures this.handle == handle && !closed
    {
      this.handle := handle;
      closed := false;
    }

    /** close, also what the finalizer does. */
    method Close()
      modifies this, handle
      ensures closed
      ensures handle.closes == old(handle.closes) + if old(closed) then 0 else 1
      ensures handle.streamCloses == old(handle.streamCloses) && handle.strays == old(handle.strays)
    {
      if !closed {
        handle.Close();
        closed := true;
      }
    }
  }

  class Stream {
    const client: Client
    const id: nat
    var closed: bool

    constructor (client: Client, id: nat)
      ensures this.client == client && this.id == id && !closed
    {
      this.client, this.id := client, id;
      closed := false;
    }

    method Close()
      requires id < |client.handle.streamCloses|
      modifies this, client.handle
      ensures closed
      ensures client.handle.closes == old(client.handle.closes)
      ensures if old(closed) || client.closed
              then client.handle.streamCloses == old(client.handle.streamCloses)
                   && client.handle.strays == old(client.handle.strays)
              else client.handle.streamCloses == old(client.handle.streamCloses)[id := old(client.handle.streamCloses[id]) + 1]
                   && client.handle.strays == old(client.handle.strays) + if client.handle.closes > 0 then 1 else 0
    {
      if !closed && !client.closed {
        client.handle.CloseStream(id);
      }
      closed := true;
    }
  }

  /** What connect_poll reports: connected, still at it, or an error after which C has closed the handle. */
  datatype Poll = Connected | StillConnecting | HandshakeFailed(code: int)

  datatype PollResult = Yields(client: Client) | NotYet | Raises(code: int) | AlreadyCompleted

  class Connecting {
    const handle: Connection
    var done: bool

    constructor (handle: Connection)
      ensures this.handle == handle && !done
    {
      this.handle := handle;
      done := false;
    }

    method Poll(rc: Poll) returns (r: PollResult)
      modifies this, handle
      ensures old(done) ==> r.AlreadyCompleted? && done && handle.closes == old(handle.closes)
      ensures !old(done) ==>
                match rc
                case Connected => r.Yields? && r.client.handle == handle && fresh(r.client) && !r.client.closed
                                  && done && handle.closes == old(handle.closes)
                case StillConnecting => r.NotYet? && !done && handle.closes == old(handle.closes)
                case HandshakeFailed(code) => r == Raises(code) && done && handle.closes == old(handle.closes) + 1
      ensures handle.streamCloses == old(handle.streamCloses) && handle.strays == old(handle.strays)
    {
      if done { return AlreadyCompleted; }
      match rc
      case Connected =>
        done := true;
        var client := new Client(handle);
        return Yields(client);
      case StillConnecting => return NotYet;
      case HandshakeFailed(code) =>
        handle.Close();  // done by the library
        done := true;
        return Raises(code);
    }

    /** close, also what the finalizer does. */
    method Close()
      modifies this, handle
      ensures done
      ensures handle.closes == old(handle.closes) + if old(done) then 0 else 1
      ensures handle.streamCloses == old(handle.streamCloses) && handle.strays == old(handle.strays)
    {
      if !done {
        handle.Close();
        done := true;
      }
    }
  }

  /** Anything the program or the garbage collector may do to the objects around one connection. */
  datatype Use = PollIt(rc: Poll) | CloseConnecting | CloseClient | OpenStream | CloseStream(which: nat)

  /** One connection with every object that ever came to refer to it. */
  class Session {
    const handle: Connection
    const connecting: Connecting
    var client: Client?
    var streams: seq<Stream>
    ghost var Repr: set<object>

    ghost predicate Valid()
      reads this, Repr
    {
      && this in Repr && handle in Repr && connecting in Repr
      && (client != null ==> client in Repr)
      && (forall s <- streams :: s in Repr)
      && connecting.handle == handle
      && (client != null ==> client.handle == handle)
      && |handle.streamCloses| == |streams|
      && (client == null ==> streams == [])
      && (forall i :: 0 <= i < |streams| ==>
            streams[i].client == client && streams[i].id == i
            && handle.streamCloses[i] <= (if streams[i].closed then 1 else 0))
      && (client != null ==> connecting.done)
      && handle.closes == (if Released() then 1 else 0)
      && handle.strays == 0
    }

    /** Whether the one object that owns the handle has let it go: the Client once there is one. */
    ghost predicate Released()
      reads this, connecting, client
    {
      if client == null then connecting.done else client.closed
    }

    constructor ()
      ensures Valid() && fresh(Repr) && client == null && !connecting.done
    {
      var h := new Connection();
      var c := new Connecting(h);
      handle, connecting := h, c;
      client, streams := null, [];
      Repr := {this, h, c};
    }

    method Apply(use: Use)
      requires Valid()
      modifies Repr
      ensures Valid() && fresh(Repr - old(Repr))
      ensures old(Released()) ==> Released()
      ensures Released() <==>
                || old(Released())
                || (use.CloseClient? && client != null)
                || (use.CloseConnecting? && client == null)
                || (use.PollIt? && use.rc.HandshakeFailed? && client == null)
    {
      match use
      case PollIt(rc) =>
        var r := connecting.Poll(rc);
        if r.Yields? {
          client := r.client;
          Repr := Repr + {r.client};
        }
      case CloseConnecting => connecting.Close();
      case CloseClient => if client != null { client.Close(); }
      case OpenStream =>
        if client != null {
          var id := client.handle.Open();
          var stream := new Stream(client, id);
          streams := streams + [stream];
          Repr := Repr + {stream};
        }
      case CloseStream(which) => if which < |streams| { streams[which].Close(); }
    }

    /**
     Whatever sequence of polls, closes, finalizers and streams: the connection is closed exactly
     once or never, counting the close C does itself; each stream at most once; and no
     stream_close reaches a closed connection.
     */
    method Live(uses: seq<Use>)
      requires Valid()
      modifies Repr
      ensures Valid() && fresh(Repr - old(Repr))
      ensures handle.closes == (if Released() then 1 else 0) && handle.strays == 0
      ensures forall i :: 0 <= i < |handle.streamCloses| ==> handle.streamCloses[i] <= 1
      ensures |uses| > 0 && uses[|uses| - 1].CloseClient? && client != null ==> handle.closes == 1
      ensures |uses| > 0 && uses[|uses| - 1].CloseConnecting? && client == null ==> handle.closes == 1
    {
      for k := 0 to |uses|
        invariant Valid() && fresh(Repr - old(Repr))
        invariant k > 0 && uses[k - 1].CloseClient? && client != null ==> Released()
        invariant k > 0 && uses[k - 1].CloseConnecting? && client == null ==> Released()
      {
        Apply(uses[k]);
      }
    }
  }
}
