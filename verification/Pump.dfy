/**
 The server side of a streamed body: the back-pressure pump that drains several streams over
 successive ticks (examples/managed_stream.py:52-73 and examples/nwcurl.py:50-65).

 server.stream_send may take any prefix of what it is offered, also none, and may raise.
 Each pass is specified by PassOf; both of the source's loops are proved to do exactly that,
 and the promises about whole runs are proved of PassOf.
 */
module Pump {

  datatype Key = Key(conn: nat, stream: nat)

  /** A stream being drained, with the number of bytes taken so far. */
  datatype Entry = Entry(key: Key, sent: nat)

  /** A call made on the server, and what came of it. */
  datatype Call =
    | Sent(key: Key, data: seq<bv8>, took: nat)
    | SendFailed(key: Key, data: seq<bv8>)
    | Ended(key: Key)
    | EndFailed(key: Key)

  /** What the server does with its next call: at most this many bytes, or a raise. */
  datatype Reply = Takes(limit: nat) | Raises

  function NextReply(replies: seq<Reply>): Reply {
    if replies == [] then Takes(0) else replies[0]
  }

  function Later(replies: seq<Reply>): seq<Reply> {
    if replies == [] then [] else replies[1..]
  }

  function Min(a: nat, b: nat): nat {
    if a < b then a else b
  }

  // One pass, as a function

  /** The calls of a pass or of part of one, where it got to, and whether a call raised. */
  datatype Progress = Progress(calls: seq<Call>, sent: nat, replies: seq<Reply>, failed: bool)

  datatype Outcome = Outcome(calls: seq<Call>, still: seq<Entry>, replies: seq<Reply>, failed: bool)

  /** Offers the unsent tail until all is taken, nothing is taken, or a call raises. */
  function SendAll(body: seq<bv8>, key: Key, sent: nat, replies: seq<Reply>): (p: Progress)
    requires sent <= |body|
    ensures sent <= p.sent <= |body|
    decreases |body| - sent
  {
    if sent == |body| then Progress([], sent, replies, false)
    else
      var tail := body[sent..];
      match NextReply(replies)
      case Raises => Progress([SendFailed(key, tail)], sent, Later(replies), true)
      case Takes(limit) =>
        var took := Min(limit, |tail|);
        if took == 0 then Progress([Sent(key, tail, 0)], sent, Later(replies), false)
        else
          var p := SendAll(body, key, sent + took, Later(replies));
          p.(calls := [Sent(key, tail, took)] + p.calls)
  }

  /** Drains one stream, and ends it once everything has been taken. */
  function Drain(body: seq<bv8>, e: Entry, replies: seq<Reply>): Outcome
    requires e.sent <= |body|
  {
    var p := SendAll(body, e.key, e.sent, replies);
    if p.failed then Outcome(p.calls, [], p.replies, true)
    else if p.sent < |body| then Outcome(p.calls, [Entry(e.key, p.sent)], p.replies, false)
    else if NextReply(p.replies).Raises? then Outcome(p.calls + [EndFailed(e.key)], [], Later(p.replies), true)
    else Outcome(p.calls + [Ended(e.key)], [], Later(p.replies), false)
  }

  predicate Fits(body: seq<bv8>, active: seq<Entry>) {
    forall i :: 0 <= i < |active| ==> active[i].sent <= |body|
  }

  function PassOf(body: seq<bv8>, active: seq<Entry>, replies: seq<Reply>): (o: Outcome)
    requires Fits(body, active)
  {
    if active == [] then Outcome([], [], replies, false)
    else
      var d := Drain(body, active[0], replies);
      if d.failed then d
      else
        var rest := PassOf(body, active[1..], d.replies);
        Outcome(d.calls + rest.calls, d.still + rest.still, rest.replies, rest.failed)
  }

  function FreshEntries(begun: seq<Key>): (es: seq<Entry>)
    ensures |es| == |begun|
    ensures forall i :: 0 <= i < |es| ==> es[i] == Entry(begun[i], 0)
  {
    seq(|begun|, i requires 0 <= i < |begun| => Entry(begun[i], 0))
  }

  // What one stream may ever see

  /** The state of one stream: bytes taken so far, and whether stream_end was called. */
  datatype Sender = Sender(sent: nat, ended: bool)

  datatype Option<T> = None | Some(value: T)

  /** A stream accepts a send only of its exact unsent tail, an end only of the whole body, nothing after. */
  function Next(body: seq<bv8>, s: Sender, call: Call): Option<Sender> {
    if s.ended then None
    else match call
      case Sent(_, data, took) =>
        if s.sent < |body| && data == body[s.sent..] && took <= |data|
        then Some(Sender(s.sent + took, false)) else None
      case SendFailed(_, data) =>
        if s.sent < |body| && data == body[s.sent..] then Some(s) else None
      case Ended(_) => if s.sent == |body| then Some(Sender(s.sent, true)) else None
      case EndFailed(_) => if s.sent == |body| then Some(Sender(s.sent, true)) else None
  }

  /** Follows the calls on one stream; None if the stream saw a call it must not see. */
  function Track(body: seq<bv8>, calls: seq<Call>, key: Key, s: Sender): Option<Sender> {
    if calls == [] then Some(s)
    else if calls[0].key != key then Track(body, calls[1..], key, s)
    else match Next(body, s, calls[0])
      case None => None
      case Some(t) => Track(body, calls[1..], key, t)
  }

  /** The bytes a stream has taken, in order. */
  function Taken(calls: seq<Call>, key: Key): seq<bv8> {
    if calls == [] then []
    else (if calls[0].key == key && calls[0].Sent? && calls[0].took <= |calls[0].data|
          then calls[0].data[..calls[0].took] else []) + Taken(calls[1..], key)
  }

  function EndCalls(calls: seq<Call>, key: Key): nat {
    if calls == [] then 0
    else (if calls[0].key == key && (calls[0].Ended? || calls[0].EndFailed?) then 1 else 0) + EndCalls(calls[1..], key)
  }

  lemma {:induction false} TrackConcat(body: seq<bv8>, xs: seq<Call>, ys: seq<Call>, key: Key, s: Sender)
    ensures Track(body, xs + ys, key, s) ==
            match Track(body, xs, key, s) case None => None case Some(t) => Track(body, ys, key, t)
  {
    if xs == [] {
      assert xs + ys == ys;
    } else {
      assert (xs + ys)[0] == xs[0] && (xs + ys)[1..] == xs[1..] + ys;
      if xs[0].key != key {
        TrackConcat(body, xs[1..], ys, key, s);
      } else {
        match Next(body, s, xs[0])
        case None =>
        case Some(t) => TrackConcat(body, xs[1..], ys, key, t);
      }
    }
  }

  /** A tracked stream took exactly the body's bytes between two marks, and was ended at most once, at the end. */
  lemma {:induction false} TrackedMeans(body: seq<bv8>, calls: seq<Call>, key: Key, s: Sender)
    requires s.sent <= |body| && Track(body, calls, key, s).Some?
    ensures var t := Track(body, calls, key, s).value;
            && s.sent <= t.sent <= |body|
            && Taken(calls, key) == body[s.sent..t.sent]
            && EndCalls(calls, key) == (if t.ended && !s.ended then 1 else 0)
            && (t.ended && !s.ended ==> t.sent == |body|)
            && (s.ended ==> t.ended)
  {
    if calls != [] {
      if calls[0].key != key {
        TrackedMeans(body, calls[1..], key, s);
      } else {
        var u := Next(body, s, calls[0]).value;
        TrackedMeans(body, calls[1..], key, u);
        var t := Track(body, calls, key, s).value;
        if calls[0].Sent? {
          assert calls[0].data[..calls[0].took] == body[s.sent..u.sent];
          assert body[s.sent..u.sent] + body[u.sent..t.sent] == body[s.sent..t.sent];
        } else {
          assert [] + body[s.sent..t.sent] == body[s.sent..t.sent];
        }
      }
    }
  }

  /** Sending on one stream is invisible to every other. */
  lemma {:induction false} SendAllElsewhere(body: seq<bv8>, key: Key, sent: nat, replies: seq<Reply>, other: Key, s: Sender)
    requires sent <= |body| && other != key
    ensures Track(body, SendAll(body, key, sent, replies).calls, other, s) == Some(s)
    decreases |body| - sent
  {
    if sent < |body| && NextReply(replies).Takes? {
      var took := Min(NextReply(replies).limit, |body| - sent);
      if took > 0 {
        SendAllElsewhere(body, key, sent + took, Later(replies), other, s);
        var p := SendAll(body, key, sent + took, Later(replies));
        assert ([Sent(key, body[sent..], took)] + p.calls)[1..] == p.calls;
      }
    }
  }

  lemma {:induction false} SendAllTracked(body: seq<bv8>, key: Key, sent: nat, replies: seq<Reply>)
    requires sent <= |body|
    ensures Track(body, SendAll(body, key, sent, replies).calls, key, Sender(sent, false))
            == Some(Sender(SendAll(body, key, sent, replies).sent, false))
    decreases |body| - sent
  {
    if sent < |body| && NextReply(replies).Takes? {
      var took := Min(NextReply(replies).limit, |body| - sent);
      if took > 0 {
        SendAllTracked(body, key, sent + took, Later(replies));
        var p := SendAll(body, key, sent + took, Later(replies));
        assert ([Sent(key, body[sent..], took)] + p.calls)[1..] == p.calls;
      }
    }
  }

  lemma DrainTracked(body: seq<bv8>, e: Entry, replies: seq<Reply>, other: Key, s: Sender)
    requires e.sent <= |body|
    ensures var d := Drain(body, e, replies);
            && (other != e.key ==> Track(body, d.calls, other, s) == Some(s))
            && Track(body, d.calls, e.key, Sender(e.sent, false)).Some?
            && (!d.failed ==> d.still == [] || (|d.still| == 1 && d.still[0].key == e.key && d.still[0].sent < |body|))
            && (!d.failed ==> Track(body, d.calls, e.key, Sender(e.sent, false)) ==
                              Some(if d.still == [] then Sender(|body|, true) else Sender(d.still[0].sent, false)))
  {
    var p := SendAll(body, e.key, e.sent, replies);
    SendAllTracked(body, e.key, e.sent, replies);
    if other != e.key { SendAllElsewhere(body, e.key, e.sent, replies, other, s); }
    TrackConcat(body, p.calls, [Ended(e.key)], other, s);
    TrackConcat(body, p.calls, [EndFailed(e.key)], other, s);
    TrackConcat(body, p.calls, [Ended(e.key)], e.key, Sender(e.sent, false));
    TrackConcat(body, p.calls, [EndFailed(e.key)], e.key, Sender(e.sent, false));
  }

  // Whole passes

  predicate KeysDistinct(active: seq<Entry>) {
    forall i, j :: 0 <= i < j < |active| ==> active[i].key != active[j].key
  }

  ghost predicate HasKey(active: seq<Entry>, key: Key) {
    exists i :: 0 <= i < |active| && active[i].key == key
  }

  function Find(active: seq<Entry>, key: Key): Option<Entry> {
    if active == [] then None else if active[0].key == key then Some(active[0]) else Find(active[1..], key)
  }

  lemma {:induction false} FindIsMember(active: seq<Entry>, key: Key)
    ensures Find(active, key).Some? <==> HasKey(active, key)
    ensures Find(active, key).Some? ==> Find(active, key).value in active && Find(active, key).value.key == key
  {
    if active != [] {
      FindIsMember(active[1..], key);
      if HasKey(active, key) && active[0].key != key {
        var i :| 0 <= i < |active| && active[i].key == key;
        assert active[1..][i - 1].key == key;
      }
      if HasKey(active[1..], key) {
        var i :| 0 <= i < |active[1..]| && active[1..][i].key == key;
        assert active[i + 1].key == key;
      }
    }
  }

  lemma {:induction false} FindConcat(xs: seq<Entry>, ys: seq<Entry>, key: Key)
    ensures Find(xs + ys, key) == if Find(xs, key).Some? then Find(xs, key) else Find(ys, key)
  {
    if xs == [] {
      assert xs + ys == ys;
    } else {
      assert (xs + ys)[1..] == xs[1..] + ys;
      FindConcat(xs[1..], ys, key);
    }
  }

  /** What a pass does to one stream: untouched, advanced and kept, or finished and ended. */
  lemma {:induction false} PassTracked(body: seq<bv8>, active: seq<Entry>, replies: seq<Reply>, key: Key, s: Sender)
    requires Fits(body, active) && KeysDistinct(active)
    requires Find(active, key).Some? ==> s == Sender(Find(active, key).value.sent, false)
    ensures var o := PassOf(body, active, replies);
            && Track(body, o.calls, key, s).Some?
            && (Find(active, key).None? ==> Track(body, o.calls, key, s) == Some(s) && Find(o.still, key).None?)
            && (Find(active, key).Some? && !o.failed ==>
                  Track(body, o.calls, key, s) ==
                  Some(if Find(o.still, key).Some? then Sender(Find(o.still, key).value.sent, false) else Sender(|body|, true)))
  {
    if active != [] {
      var e := active[0];
      var d := Drain(body, e, replies);
      DrainTracked(body, e, replies, key, s);
      if !d.failed {
        var rest := PassOf(body, active[1..], d.replies);
        TrackConcat(body, d.calls, rest.calls, key, s);
        FindConcat(d.still, rest.still, key);
        FindIsMember(active[1..], e.key);
        assert Fits(body, active[1..]) && KeysDistinct(active[1..]);
        if key == e.key {
          assert Find(active[1..], key).None?;
          PassTracked(body, active[1..], d.replies, key, Track(body, d.calls, key, s).value);
        } else {
          PassTracked(body, active[1..], d.replies, key, s);
        }
      }
    }
  }

  /** Streams left for the next pass keep their places, so they stay distinct and within the body. */
  lemma {:induction false} StillIsSound(body: seq<bv8>, active: seq<Entry>, replies: seq<Reply>)
    requires Fits(body, active) && KeysDistinct(active)
    ensures var o := PassOf(body, active, replies);
            Fits(body, o.still) && KeysDistinct(o.still)
            && forall e :: e in o.still ==> HasKey(active, e.key)
  {
    if active != [] {
      var e := active[0];
      var d := Drain(body, e, replies);
      DrainTracked(body, e, replies, e.key, Sender(e.sent, false));
      if !d.failed {
        assert KeysDistinct(active[1..]);
        StillIsSound(body, active[1..], d.replies);
        var rest := PassOf(body, active[1..], d.replies);
        forall x | x in rest.still
          ensures x.key != e.key && HasKey(active, x.key)
        {
          var i :| 0 <= i < |active[1..]| && active[1..][i].key == x.key;
          assert active[i + 1].key == x.key;
        }
        assert active[0].key == e.key;
        assert forall i :: 0 <= i < |rest.still| ==> rest.still[i] in rest.still;
      }
    }
  }
}
