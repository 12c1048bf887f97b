/** The two loops in the source that pump streams, proved to make the same calls. */
module PumpLoops {
  import opened Pump

  /** The calls already made, followed by those still to come, are the ones promised. */
  ghost predicate OnCourse(promised: Progress, made: seq<Call>, rest: Progress) {
    && promised.calls == made + rest.calls
    && promised.sent == rest.sent && promised.replies == rest.replies && promised.failed == rest.failed
  }

  lemma StaysOnCourse(promised: Progress, made: seq<Call>, body: seq<bv8>, key: Key, sent: nat, replies: seq<Reply>)
    requires sent < |body| && OnCourse(promised, made, SendAll(body, key, sent, replies))
    ensures match NextReply(replies)
            case Raises => promised == Progress(made + [SendFailed(key, body[sent..])], sent, Later(replies), true)
            case Takes(limit) =>
              var took := Min(limit, |body| - sent);
              var now := made + [Sent(key, body[sent..], took)];
              if took == 0 then promised == Progress(now, sent, Later(replies), false)
              else OnCourse(promised, now, SendAll(body, key, sent + took, Later(replies)))
  {
    match NextReply(replies)
    case Raises =>
    case Takes(limit) =>
      var took := Min(limit, |body| - sent);
      if took > 0 {
        var q := SendAll(body, key, sent + took, Later(replies));
        assert made + ([Sent(key, body[sent..], took)] + q.calls) == (made + [Sent(key, body[sent..], took)]) + q.calls;
      }
  }

  ghost predicate PassOnCourse(promised: Outcome, made: seq<Call>, still: seq<Entry>, rest: Outcome) {
    && promised.calls == made + rest.calls && promised.still == still + rest.still
    && promised.replies == rest.replies && promised.failed == rest.failed
  }

  lemma PassStaysOnCourse(promised: Outcome, made: seq<Call>, still: seq<Entry>,
                          body: seq<bv8>, work: seq<Entry>, k: nat, replies: seq<Reply>)
    requires k < |work| && Fits(body, work)
    requires PassOnCourse(promised, made, still, PassOf(body, work[k..], replies))
    ensures var d := Drain(body, work[k], replies);
            if d.failed then promised.calls == made + d.calls && promised.replies == d.replies && promised.failed
            else PassOnCourse(promised, made + d.calls, still + d.still, PassOf(body, work[k + 1..], d.replies))
  {
    assert work[k..][0] == work[k] && work[k..][1..] == work[k + 1..];
    var d := Drain(body, work[k], replies);
    if !d.failed {
      var rest := PassOf(body, work[k + 1..], d.replies);
      assert made + (d.calls + rest.calls) == (made + d.calls) + rest.calls;
      assert still + (d.still + rest.still) == (still + d.still) + rest.still;
    }
  }

  class Reactor {
    var calls: seq<Call>       // every call the server has seen
    var replies: seq<Reply>    // what it will do with the next ones
    var begun: seq<Key>        // filled by the handler
    var active: seq<Entry>

    constructor (replies: seq<Reply>)
      ensures calls == [] && this.replies == replies && begun == [] && active == []
    {
      calls, this.replies, begun, active := [], replies, [], [];
    }

    /** server.stream_send: takes a prefix, possibly empty, or raises. */
    method StreamSend(key: Key, body: seq<bv8>) returns (ok: bool, took: nat)
      modifies this`calls, this`replies
      ensures ok == NextReply(old(replies)).Takes?
      ensures replies == Later(old(replies)) && took <= |body|
      ensures ok ==> took == Min(NextReply(old(replies)).limit, |body|)
      ensures calls == old(calls) + [if ok then Sent(key, body, took) else SendFailed(key, body)]
    {
      var reply := NextReply(replies);
      replies := Later(replies);
      ok := reply.Takes?;
      took := if ok then Min(reply.limit, |body|) else 0;
      calls := calls + [if ok then Sent(key, body, took) else SendFailed(key, body)];
    }

    /** server.stream_end. */
    method StreamEnd(key: Key) returns (ok: bool)
      modifies this`calls, this`replies
      ensures ok == NextReply(old(replies)).Takes?
      ensures replies == Later(old(replies))
      ensures calls == old(calls) + [if ok then Ended(key) else EndFailed(key)]
    {
      ok := NextReply(replies).Takes?;
      replies := Later(replies);
      calls := calls + [if ok then Ended(key) else EndFailed(key)];
    }

    /** The handler, under the lock. */
    method Open(key: Key)
      modifies this`begun
      ensures begun == old(begun) + [key]
    {
      begun := begun + [key];
    }

    /** while opened: active.append([*opened.pop(0), 0]) */
    method Admit()
      modifies this`begun, this`active
      ensures begun == [] && active == old(active) + FreshEntries(old(begun))
    {
      ghost var all := FreshEntries(begun);
      ghost var n := 0;
      while begun != []
        invariant n <= |old(begun)| && begun == old(begun)[n..]
        invariant active == old(active) + all[..n]
        decreases |begun|
      {
        active := active + [Entry(begun[0], 0)];
        begun := begun[1..];
        assert all[..n + 1] == all[..n] + [all[n]];
        n := n + 1;
      }
      assert all[..n] == all;
    }

    /** The inner loop of managed_stream: entry k of active is advanced in place. */
    method SendEntry(body: seq<bv8>, k: nat) returns (ok: bool, blocked: bool)
      requires k < |active| && active[k].sent <= |body|
      modifies this`calls, this`replies, this`active
      ensures var p := SendAll(body, old(active[k].key), old(active[k].sent), old(replies));
              && ok == !p.failed
              && calls == old(calls) + p.calls && replies == p.replies
              && active == old(active)[k := Entry(old(active[k].key), p.sent)]
              && (ok ==> blocked == (p.sent < |body|))
    {
      blocked := false;
      ghost var key := active[k].key;
      ghost var p := SendAll(body, key, active[k].sent, replies);
      ghost var promised := p.(calls := calls + p.calls);
      while active[k].sent < |body|
        invariant k < |active| && active[k].sent <= |body|
        invariant active == old(active)[k := Entry(key, active[k].sent)]
        invariant OnCourse(promised, calls, SendAll(body, key, active[k].sent, replies))
        decreases |body| - active[k].sent
      {
        StaysOnCourse(promised, calls, body, key, active[k].sent, replies);
        var accepted, took := StreamSend(active[k].key, body[active[k].sent..]);
        if !accepted { return false, false; }
        active := active[k := active[k].(sent := active[k].sent + took)];
        if took == 0 {
          return true, true;
        }
      }
      ok := true;
    }

    /** managed_stream.py:60-71 for one stream: send, then keep it or end it, by the blocked flag. */
    method PumpEntry(body: seq<bv8>, k: nat) returns (ok: bool, keep: bool)
      requires k < |active| && active[k].sent <= |body|
      modifies this`calls, this`replies, this`active
      ensures var d := Drain(body, old(active[k]), old(replies));
              && ok == !d.failed
              && calls == old(calls) + d.calls && replies == d.replies
              && |active| == |old(active)| && active[..k] == old(active)[..k] && active[k + 1..] == old(active)[k + 1..]
              && (ok ==> d.still == if keep then [active[k]] else [])
    {
      var blocked;
      ok, blocked := SendEntry(body, k);
      keep := false;
      if ok {
        keep := active[k].sent < |body| && blocked;
        if !keep {
          ok := StreamEnd(active[k].key);
        }
      }
    }

    /** managed_stream.py:55-72: one pass, with the blocked flag. */
    method ManagedPass(body: seq<bv8>) returns (ok: bool)
      requires Fits(body, active)
      modifies this
      ensures var o := PassOf(body, old(active) + FreshEntries(old(begun)), old(replies));
              && ok == !o.failed && calls == old(calls) + o.calls && replies == o.replies
              && begun == [] && (ok ==> active == o.still)
    {
      Admit();
      ghost var work := active;
      ghost var o := PassOf(body, work, replies);
      ghost var promised := o.(calls := calls + o.calls);
      assert work[0..] == work;
      var still: seq<Entry> := [];
      var k := 0;
      while k < |active|
        invariant k <= |active| == |work| && begun == []
        invariant active[k..] == work[k..]
        invariant PassOnCourse(promised, calls, still, PassOf(body, work[k..], replies))
      {
        assert active[k] == active[k..][0] == work[k];
        PassStaysOnCourse(promised, calls, still, body, work, k, replies);
        ghost var d, before := Drain(body, work[k], replies), still;
        var sent, keep := PumpEntry(body, k);
        if !sent { return false; }
        if keep {
          still := still + [active[k]];
        }
        assert still == before + d.still;
        assert work[k + 1..] == work[k..][1..];
        k := k + 1;
      }
      active := still;
      ok := true;
    }

    /** The inner loop of nwcurl, over a local count. */
    method SendFrom(body: seq<bv8>, key: Key, from: nat) returns (ok: bool, sent: nat)
      requires from <= |body|
      modifies this`calls, this`replies
      ensures var p := SendAll(body, key, from, old(replies));
              ok == !p.failed && calls == old(calls) + p.calls && replies == p.replies && (ok ==> sent == p.sent)
    {
      sent := from;
      ghost var p := SendAll(body, key, from, replies);
      ghost var promised := p.(calls := calls + p.calls);
      while sent < |body|
        invariant sent <= |body|
        invariant OnCourse(promised, calls, SendAll(body, key, sent, replies))
        decreases |body| - sent
      {
        StaysOnCourse(promised, calls, body, key, sent, replies);
        var accepted, took := StreamSend(key, body[sent..]);
        if !accepted { return false, sent; }
        sent := sent + took;
        if took == 0 { return true, sent; }
      }
      ok := true;
    }

    /** nwcurl.py:55-63 for one stream: send, then end it if all is taken. */
    method CurlEntry(body: seq<bv8>, key: Key, from: nat) returns (ok: bool, sent: nat)
      requires from <= |body|
      modifies this`calls, this`replies
      ensures var d := Drain(body, Entry(key, from), old(replies));
              && ok == !d.failed && calls == old(calls) + d.calls && replies == d.replies
              && (ok ==> d.still == if sent < |body| then [Entry(key, sent)] else [])
    {
      ok, sent := SendFrom(body, key, from);
      if ok && sent >= |body| {
        ok := StreamEnd(key);
      }
    }

    /** nwcurl.py:50-65: the same pass with a local count and no flag. */
    method CurlPass(body: seq<bv8>) returns (ok: bool)
      requires Fits(body, active)
      modifies this
      ensures var o := PassOf(body, old(active) + FreshEntries(old(begun)), old(replies));
              && ok == !o.failed && calls == old(calls) + o.calls && replies == o.replies
              && begun == [] && (ok ==> active == o.still)
    {
      Admit();
      ghost var work := active;
      ghost var o := PassOf(body, work, replies);
      ghost var promised := o.(calls := calls + o.calls);
      assert work[0..] == work;
      var still: seq<Entry> := [];
      for k := 0 to |active|
        invariant active == work && begun == []
        invariant PassOnCourse(promised, calls, still, PassOf(body, work[k..], replies))
      {
        PassStaysOnCourse(promised, calls, still, body, work, k, replies);
        ghost var d, before := Drain(body, work[k], replies), still;
        var key := active[k].key;
        var ok', sent := CurlEntry(body, key, active[k].sent);
        if !ok' { return false; }
        if sent < |body| {
          still := still + [Entry(key, sent)];
        }
        assert still == before + d.still;
      }
      active := still;
      ok := true;
    }
  }
}
