/**
 What a raising stream_send or stream_end does to the pump: the exception ends the pumping thread
 in the middle of a pass (examples/managed_stream.py:60-71, examples/nwcurl.py:55-64).
 */
module PumpFaults {
  import opened Pump
  import opened PumpRuns

  predicate Failure(call: Call) {
    call.SendFailed? || call.EndFailed?
  }

  /** Some call raised, and then no call followed it. */
  predicate CutShort(calls: seq<Call>, failed: bool) {
    && (forall i :: 0 <= i < |calls| - 1 ==> !Failure(calls[i]))
    && (failed <==> calls != [] && Failure(calls[|calls| - 1]))
  }

  lemma CutShortConcat(xs: seq<Call>, ys: seq<Call>, failed: bool)
    requires CutShort(xs, false) && CutShort(ys, failed)
    ensures CutShort(xs + ys, failed)
  {
    assert ys != [] ==> (xs + ys)[|xs + ys| - 1] == ys[|ys| - 1];
    assert ys == [] ==> xs + ys == xs;
  }

  lemma {:induction false} SendAllCutShort(body: seq<bv8>, key: Key, sent: nat, replies: seq<Reply>)
    requires sent <= |body|
    ensures CutShort(SendAll(body, key, sent, replies).calls, SendAll(body, key, sent, replies).failed)
    decreases |body| - sent
  {
    if sent < |body| && NextReply(replies).Takes? {
      var took := Min(NextReply(replies).limit, |body| - sent);
      if took > 0 {
        SendAllCutShort(body, key, sent + took, Later(replies));
        var p := SendAll(body, key, sent + took, Later(replies));
        CutShortConcat([Sent(key, body[sent..], took)], p.calls, p.failed);
      }
    }
  }

  lemma DrainCutShort(body: seq<bv8>, e: Entry, replies: seq<Reply>)
    requires e.sent <= |body|
    ensures CutShort(Drain(body, e, replies).calls, Drain(body, e, replies).failed)
    ensures Drain(body, e, replies).failed ==> LastKey(Drain(body, e, replies).calls) == Some(e.key)
  {
    var p := SendAll(body, e.key, e.sent, replies);
    SendAllCutShort(body, e.key, e.sent, replies);
    SendAllOnKey(body, e.key, e.sent, replies);
    if !p.failed {
      CutShortConcat(p.calls, [Ended(e.key)], false);
      CutShortConcat(p.calls, [EndFailed(e.key)], true);
    }
  }

  function LastKey(calls: seq<Call>): Option<Key> {
    if calls == [] then None else Some(calls[|calls| - 1].key)
  }

  lemma {:induction false} SendAllOnKey(body: seq<bv8>, key: Key, sent: nat, replies: seq<Reply>)
    requires sent <= |body|
    ensures forall i :: 0 <= i < |SendAll(body, key, sent, replies).calls| ==> SendAll(body, key, sent, replies).calls[i].key == key
    decreases |body| - sent
  {
    if sent < |body| && NextReply(replies).Takes? && Min(NextReply(replies).limit, |body| - sent) > 0 {
      SendAllOnKey(body, key, sent + Min(NextReply(replies).limit, |body| - sent), Later(replies));
    }
  }

  lemma {:induction false} PassCutShort(body: seq<bv8>, active: seq<Entry>, replies: seq<Reply>)
    requires Fits(body, active)
    ensures CutShort(PassOf(body, active, replies).calls, PassOf(body, active, replies).failed)
  {
    if active != [] {
      var d := Drain(body, active[0], replies);
      DrainCutShort(body, active[0], replies);
      if !d.failed {
        PassCutShort(body, active[1..], d.replies);
        var rest := PassOf(body, active[1..], d.replies);
        CutShortConcat(d.calls, rest.calls, rest.failed);
      }
    }
  }

  lemma {:induction false} RunCutShort(body: seq<bv8>, y: Sys, steps: seq<Step>)
    requires Runs(body, y, steps) && CutShort(y.calls, y.dead)
    ensures CutShort(Run(body, y, steps).calls, Run(body, y, steps).dead)
    decreases |steps|
  {
    if steps != [] {
      if steps[0].Pass? {
        PassCutShort(body, Work(y), steps[0].replies);
        var o := PassOf(body, Work(y), steps[0].replies);
        CutShortConcat(y.calls, o.calls, o.failed);
      }
      RunCutShort(body, Apply(body, y, steps[0]), steps[1..]);
    }
  }

  /** The pump dies exactly with a call that raised, which is the last it ever makes. */
  lemma DeadIff(body: seq<bv8>, steps: seq<Step>)
    requires Runs(body, Init(), steps)
    ensures var y := Run(body, Init(), steps);
            && (y.dead <==> exists i :: 0 <= i < |y.calls| && Failure(y.calls[i]))
            && (forall i :: 0 <= i < |y.calls| && Failure(y.calls[i]) ==> i == |y.calls| - 1)
  {
    RunCutShort(body, Init(), steps);
  }

  // The pass in which it happens

  /** The place of the stream on which a pass fails. */
  function FailAt(body: seq<bv8>, active: seq<Entry>, replies: seq<Reply>): (k: nat)
    requires Fits(body, active) && PassOf(body, active, replies).failed
    ensures k < |active|
  {
    var d := Drain(body, active[0], replies);
    if d.failed then 0 else 1 + FailAt(body, active[1..], d.replies)
  }

  lemma {:induction false} LastCallFails(body: seq<bv8>, active: seq<Entry>, replies: seq<Reply>)
    requires Fits(body, active) && PassOf(body, active, replies).failed
    ensures LastKey(PassOf(body, active, replies).calls) == Some(active[FailAt(body, active, replies)].key)
  {
    var d := Drain(body, active[0], replies);
    DrainCutShort(body, active[0], replies);
    if !d.failed {
      LastCallFails(body, active[1..], d.replies);
      var rest := PassOf(body, active[1..], d.replies);
      assert (d.calls + rest.calls)[|d.calls + rest.calls| - 1] == rest.calls[|rest.calls| - 1];
    }
  }

  /** A stream's whole share of a pass: all sent and ended, or stopped short by a full transport. */
  predicate Through(body: seq<bv8>, s: Sender) {
    s.ended <==> s.sent == |body|
  }

  /** Streams before the failing one have had their share of the pass, streams behind it nothing. */
  lemma {:induction false} ShareOfPass(body: seq<bv8>, active: seq<Entry>, replies: seq<Reply>, j: nat)
    requires Fits(body, active) && KeysDistinct(active) && j < |active|
    requires PassOf(body, active, replies).failed
    ensures var o, k, s := PassOf(body, active, replies), FailAt(body, active, replies), Sender(active[j].sent, false);
            && Track(body, o.calls, active[j].key, s).Some?
            && (j < k ==> Through(body, Track(body, o.calls, active[j].key, s).value))
            && (j > k ==> Track(body, o.calls, active[j].key, s) == Some(s))
  {
    var e, d := active[0], Drain(body, active[0], replies);
    var s := Sender(active[j].sent, false);
    DrainTracked(body, e, replies, active[j].key, s);
    assert j > 0 ==> active[0].key != active[j].key;
    if !d.failed {
      var rest := PassOf(body, active[1..], d.replies);
      TrackConcat(body, d.calls, rest.calls, active[j].key, s);
      assert Fits(body, active[1..]) && KeysDistinct(active[1..]);
      if j == 0 {
        FindIsMember(active[1..], e.key);
        assert Find(active[1..], e.key).None?;
        PassTracked(body, active[1..], d.replies, e.key, Track(body, d.calls, e.key, s).value);
      } else {
        ShareOfPass(body, active[1..], d.replies, j - 1);
      }
    }
  }

  /**
   What a raising call costs.  Let a run of the pump die in a pass.  The call that raised was on one
   of the streams the pass worked on; the streams before it have had their share of the pass, those
   behind it are left as they were before it, and no step follows: whatever was not ended stays
   unended.
   */
  lemma FaultStrandsTheRest(body: seq<bv8>, steps: seq<Step>, replies: seq<Reply>, more: seq<Step>, j: nat)
    requires Runs(body, Init(), steps)
    requires var y := Run(body, Init(), steps);
             && Enabled(body, y, Pass(replies)) && Apply(body, y, Pass(replies)).dead
             && Runs(body, Apply(body, y, Pass(replies)), more) && j < |Work(y)|
    ensures more == []
    ensures var y := Run(body, Init(), steps); var z := Apply(body, y, Pass(replies));
            var k, e, before := FailAt(body, Work(y), replies), Work(y)[j], |Taken(y.calls, Work(y)[j].key)|;
            && LastKey(z.calls) == Some(Work(y)[k].key) && Failure(z.calls[|z.calls| - 1])
            && e.sent == before
            && (j < k ==> (EndCalls(z.calls, e.key) == 1 <==> Taken(z.calls, e.key) == body))
            && (j > k ==> Taken(z.calls, e.key) == body[..e.sent] && EndCalls(z.calls, e.key) == 0)
  {
    InitInv(body);
    InvRun(body, Init(), steps);
    var y := Run(body, Init(), steps);
    var z, o, e := Apply(body, y, Pass(replies)), PassOf(body, Work(y), replies), Work(y)[j];
    PassCutShort(body, Work(y), replies);
    LastCallFails(body, Work(y), replies);
    ShareOfPass(body, Work(y), replies, j);
    FoundAt(Work(y), j);
    assert e in Work(y);
    assert Track(body, y.calls, e.key, START) == Some(Sender(e.sent, false));
    TrackConcat(body, y.calls, o.calls, e.key, START);
    TrackedMeans(body, y.calls, e.key, START);
    TrackedMeans(body, z.calls, e.key, START);
    assert body[0..|body|] == body;
    assert z.calls[|z.calls| - 1] == o.calls[|o.calls| - 1];
  }

  lemma {:induction false} FoundAt(active: seq<Entry>, j: nat)
    requires KeysDistinct(active) && j < |active|
    ensures Find(active, active[j].key) == Some(active[j])
  {
    if j > 0 {
      assert active[0].key != active[j].key;
      assert KeysDistinct(active[1..]);
      FoundAt(active[1..], j - 1);
    }
  }

  /** Two streams of a one-byte body, and the first send raises: the other stream gets nothing, for ever. */
  lemma OneRaiseStrandsBoth(body: seq<bv8>, a: Key, b: Key) returns (steps: seq<Step>)
    requires |body| == 1 && a != b
    ensures Runs(body, Init(), steps)
    ensures var z := Run(body, Init(), steps); z.dead && z.ever == [a, b] && z.calls == [SendFailed(a, body)]
  {
    var y1 := Apply(body, Init(), Open(a));
    var y2 := Apply(body, y1, Open(b));
    assert y2.begun == [a, b] && y2.ever == [a, b];
    assert Work(y2) == [Entry(a, 0), Entry(b, 0)];
    assert body[0..] == body;
    var o := PassOf(body, Work(y2), [Raises]);
    assert Drain(body, Entry(a, 0), [Raises]).failed;
    assert o.calls == [SendFailed(a, body)];
    var z := Apply(body, y2, Pass([Raises]));
    assert [] + o.calls == o.calls;
    steps := [Open(a), Open(b), Pass([Raises])];
    assert steps[1..] == [Open(b), Pass([Raises])] && steps[1..][1..] == [Pass([Raises])] && steps[1..][1..][1..] == [];
    assert Runs(body, z, []) && Run(body, z, []) == z;
    assert Runs(body, y2, steps[1..][1..]) && Run(body, y2, steps[1..][1..]) == z;
    assert Runs(body, y1, steps[1..]) && Run(body, y1, steps[1..]) == z;
  }
}
