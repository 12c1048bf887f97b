/** Runs of the pump: handlers open streams between passes, passes drain them. */
module PumpRuns {
  import opened Pump

  /** dead: a server call raised inside a pass, which ends the pumping thread. */
  datatype Sys = Sys(begun: seq<Key>, active: seq<Entry>, ever: seq<Key>, calls: seq<Call>, dead: bool)

  datatype Step = Open(key: Key) | Pass(replies: seq<Reply>)

  const START: Sender := Sender(0, false)

  function Init(): Sys {
    Sys([], [], [], [], false)
  }

  /** The streams a pass works on: those left over, then those opened since. */
  function Work(y: Sys): seq<Entry> {
    y.active + FreshEntries(y.begun)
  }

  predicate Enabled(body: seq<bv8>, y: Sys, step: Step) {
    !y.dead && match step
               case Open(key) => key !in y.ever
               case Pass(_) => Fits(body, Work(y))
  }

  function Apply(body: seq<bv8>, y: Sys, step: Step): Sys
    requires Enabled(body, y, step)
  {
    match step
    case Open(key) => y.(begun := y.begun + [key], ever := y.ever + [key])
    case Pass(replies) =>
      var o := PassOf(body, Work(y), replies);
      Sys([], o.still, y.ever, y.calls + o.calls, o.failed)
  }

  predicate Runs(body: seq<bv8>, y: Sys, steps: seq<Step>)
    decreases |steps|
  {
    steps == [] || (Enabled(body, y, steps[0]) && Runs(body, Apply(body, y, steps[0]), steps[1..]))
  }

  function Run(body: seq<bv8>, y: Sys, steps: seq<Step>): Sys
    requires Runs(body, y, steps)
    decreases |steps|
  {
    if steps == [] then y else Run(body, Apply(body, y, steps[0]), steps[1..])
  }

  /** Where the bookkeeping says a stream stands. */
  function Standing(body: seq<bv8>, y: Sys, key: Key): Sender {
    if key !in y.ever then START
    else match Find(Work(y), key)
      case Some(e) => Sender(e.sent, false)
      case None => Sender(|body|, true)
  }

  ghost predicate Inv(body: seq<bv8>, y: Sys) {
    && Fits(body, Work(y)) && KeysDistinct(Work(y))
    && (forall e :: e in Work(y) ==> e.key in y.ever)
    && (forall key :: Track(body, y.calls, key, START).Some?)
    && (!y.dead ==> forall key :: Track(body, y.calls, key, START) == Some(Standing(body, y, key)))
  }

  lemma OpenKeepsInv(body: seq<bv8>, y: Sys, key: Key)
    requires Inv(body, y) && Enabled(body, y, Open(key))
    ensures Inv(body, Apply(body, y, Open(key)))
  {
    var z := Apply(body, y, Open(key));
    assert Work(z) == Work(y) + [Entry(key, 0)];
    assert forall i :: 0 <= i < |Work(y)| ==> Work(y)[i] in Work(y);
    forall k
      ensures Standing(body, z, k) == Standing(body, y, k)
    {
      FindConcat(Work(y), [Entry(key, 0)], k);
      FindIsMember(Work(y), k);
      FindIsMember([Entry(key, 0)], k);
      assert k != key ==> Find([Entry(key, 0)], k).None?;
    }
  }

  lemma PassKeepsInv(body: seq<bv8>, y: Sys, replies: seq<Reply>)
    requires Inv(body, y) && Enabled(body, y, Pass(replies))
    ensures Inv(body, Apply(body, y, Pass(replies)))
  {
    var z := Apply(body, y, Pass(replies));
    var o := PassOf(body, Work(y), replies);
    StillIsSound(body, Work(y), replies);
    assert Work(z) == o.still;
    forall e | e in o.still
      ensures e.key in z.ever
    {
      var i :| 0 <= i < |Work(y)| && Work(y)[i].key == e.key;
      assert Work(y)[i] in Work(y);
    }
    forall key
      ensures Track(body, z.calls, key, START).Some?
      ensures !z.dead ==> Track(body, z.calls, key, START) == Some(Standing(body, z, key))
    {
      PassKeepsTrack(body, y, replies, key);
    }
  }

  lemma PassKeepsTrack(body: seq<bv8>, y: Sys, replies: seq<Reply>, key: Key)
    requires Inv(body, y) && Enabled(body, y, Pass(replies))
    ensures var z := Apply(body, y, Pass(replies));
            && Track(body, z.calls, key, START).Some?
            && (!z.dead ==> Track(body, z.calls, key, START) == Some(Standing(body, z, key)))
  {
    var z := Apply(body, y, Pass(replies));
    var o := PassOf(body, Work(y), replies);
    var s := Standing(body, y, key);
    assert Work(z) == o.still;
    FindIsMember(Work(y), key);
    assert Find(Work(y), key).Some? ==> key in y.ever;
    PassTracked(body, Work(y), replies, key, s);
    TrackConcat(body, y.calls, o.calls, key, START);
  }

  lemma {:induction false} InvRun(body: seq<bv8>, y: Sys, steps: seq<Step>)
    requires Inv(body, y) && Runs(body, y, steps)
    ensures Inv(body, Run(body, y, steps))
    decreases |steps|
  {
    if steps != [] {
      match steps[0] {
        case Open(key) => OpenKeepsInv(body, y, key);
        case Pass(replies) => PassKeepsInv(body, y, replies);
      }
      InvRun(body, Apply(body, y, steps[0]), steps[1..]);
    }
  }

  lemma InitInv(body: seq<bv8>)
    ensures Inv(body, Init())
  {
    assert Work(Init()) == [];
  }

  /**
   After any run, on every stream at once: the bytes taken are the body up to some mark, offers
   were always the exact unsent tail, stream_end came at most once, only with the whole body
   taken, and nothing came after it.  This holds also when a call raised in between.
   */
  lemma PumpSafe(body: seq<bv8>, steps: seq<Step>, key: Key)
    requires Runs(body, Init(), steps)
    ensures var calls := Run(body, Init(), steps).calls;
            && Track(body, calls, key, START).Some?
            && var t := Track(body, calls, key, START).value;
               && t.sent <= |body| && Taken(calls, key) == body[..t.sent]
               && EndCalls(calls, key) == (if t.ended then 1 else 0)
               && (t.ended ==> t.sent == |body|)
  {
    InitInv(body);
    InvRun(body, Init(), steps);
    TrackedMeans(body, Run(body, Init(), steps).calls, key, START);
  }

  /**
   While no call has raised, each stream ever opened is in exactly one place: still in the
   handler's list, in the active list with its mark, or ended after its whole body.
   */
  lemma OpenedActiveOrEnded(body: seq<bv8>, steps: seq<Step>, key: Key)
    requires Runs(body, Init(), steps) && !Run(body, Init(), steps).dead
    requires key in Run(body, Init(), steps).ever
    ensures var y := Run(body, Init(), steps);
            && !(key in y.begun && HasKey(y.active, key))
            && (key in y.begun ==> Taken(y.calls, key) == [] && EndCalls(y.calls, key) == 0)
            && (HasKey(y.active, key) ==>
                  exists e :: e in y.active && e.key == key && e.sent <= |body|
                              && Taken(y.calls, key) == body[..e.sent] && EndCalls(y.calls, key) == 0)
            && (key !in y.begun && !HasKey(y.active, key) ==>
                  Taken(y.calls, key) == body && EndCalls(y.calls, key) == 1)
  {
    InitInv(body);
    InvRun(body, Init(), steps);
    var y := Run(body, Init(), steps);
    TrackedMeans(body, y.calls, key, START);
    var newly := FreshEntries(y.begun);
    FindConcat(y.active, newly, key);
    FindIsMember(y.active, key);
    FindIsMember(newly, key);
    if key in y.begun {
      var i :| 0 <= i < |y.begun| && y.begun[i] == key;
      assert newly[i].key == key && Work(y)[|y.active| + i] == newly[i];
      forall j | 0 <= j < |y.active|
        ensures y.active[j].key != key
      {
        assert Work(y)[j] == y.active[j];
      }
    } else if HasKey(y.active, key) {
      var e := Find(y.active, key).value;
      assert e in Work(y);
    } else {
      assert !HasKey(newly, key);
      assert body[0..|body|] == body;
    }
  }

  /** A stream is left for a later pass only because the server's last answer on it took nothing. */
  lemma {:induction false} LeftOnlyWhenBlocked(body: seq<bv8>, key: Key, sent: nat, replies: seq<Reply>)
    requires sent <= |body|
    ensures var p := SendAll(body, key, sent, replies);
            !p.failed && p.sent < |body| ==>
              p.calls != [] && p.calls[|p.calls| - 1] == Sent(key, body[p.sent..], 0)
    decreases |body| - sent
  {
    if sent < |body| {
      var tail := body[sent..];
      match NextReply(replies)
      case Raises =>
      case Takes(limit) =>
        if Min(limit, |tail|) > 0 {
          LeftOnlyWhenBlocked(body, key, sent + Min(limit, |tail|), Later(replies));
        }
    }
  }
}
