/**
 The multi-stream pump gets there: a stream is drained and ended after at most as many passes as
 it has bytes left, not counting passes over it in which the server took nothing.
 */
module PumpProgress {
  import opened Pump
  import opened PumpRuns

  /** The pass takes nothing of this stream. */
  predicate Refuses(body: seq<bv8>, y: Sys, replies: seq<Reply>, key: Key)
    requires Fits(body, Work(y))
  {
    Taken(PassOf(body, Work(y), replies).calls, key) == []
  }

  function Passes(steps: seq<Step>): nat {
    if steps == [] then 0 else (if steps[0].Pass? then 1 else 0) + Passes(steps[1..])
  }

  /** The passes of a run that still had this stream to pump and in which the server took nothing of it. */
  function Refusals(body: seq<bv8>, y: Sys, steps: seq<Step>, key: Key): nat
    requires Runs(body, y, steps)
    decreases |steps|
  {
    if steps == [] then 0
    else (if steps[0].Pass? && Find(Work(y), key).Some? && Refuses(body, y, steps[0].replies, key) then 1 else 0)
         + Refusals(body, Apply(body, y, steps[0]), steps[1..], key)
  }

  /** A pass keeps a stream only with part of the body unsent. */
  lemma {:induction false} KeptIsShort(body: seq<bv8>, active: seq<Entry>, replies: seq<Reply>, key: Key)
    requires Fits(body, active) && !PassOf(body, active, replies).failed
    ensures Find(PassOf(body, active, replies).still, key).Some? ==>
              Find(PassOf(body, active, replies).still, key).value.sent < |body|
  {
    if active != [] {
      var d := Drain(body, active[0], replies);
      var rest := PassOf(body, active[1..], d.replies);
      FindConcat(d.still, rest.still, key);
      KeptIsShort(body, active[1..], d.replies, key);
    }
  }

  /** A stream kept by a pass has moved by what was taken of it, which is nothing only if it was refused. */
  lemma PassMoves(body: seq<bv8>, y: Sys, replies: seq<Reply>, key: Key)
    requires Inv(body, y) && Enabled(body, y, Pass(replies)) && !Apply(body, y, Pass(replies)).dead
    requires Find(Work(y), key).Some?
    ensures var z := Apply(body, y, Pass(replies));
            Find(Work(z), key).Some? ==>
              && Find(Work(z), key).value.sent < |body|
              && Find(Work(y), key).value.sent + (if Refuses(body, y, replies, key) then 0 else 1)
                 <= Find(Work(z), key).value.sent
  {
    var o, from := PassOf(body, Work(y), replies), Sender(Find(Work(y), key).value.sent, false);
    FindIsMember(Work(y), key);
    assert Work(Apply(body, y, Pass(replies))) == o.still;
    PassTracked(body, Work(y), replies, key, from);
    TrackedMeans(body, o.calls, key, from);
    KeptIsShort(body, Work(y), replies, key);
  }

  lemma OpenElsewhere(body: seq<bv8>, y: Sys, other: Key, key: Key)
    requires Enabled(body, y, Open(other)) && key in y.ever
    ensures Find(Work(Apply(body, y, Open(other))), key) == Find(Work(y), key)
  {
    assert Work(Apply(body, y, Open(other))) == Work(y) + [Entry(other, 0)];
    FindConcat(Work(y), [Entry(other, 0)], key);
    assert Find([Entry(other, 0)], key).None?;
  }

  lemma OneStepInv(body: seq<bv8>, y: Sys, step: Step)
    requires Inv(body, y) && Enabled(body, y, step)
    ensures Inv(body, Apply(body, y, step))
  {
    match step
    case Open(key) => OpenKeepsInv(body, y, key);
    case Pass(replies) => PassKeepsInv(body, y, replies);
  }

  /** A stream that has been ended is never pumped again. */
  lemma {:induction false} EndedStays(body: seq<bv8>, y: Sys, steps: seq<Step>, key: Key)
    requires Inv(body, y) && key in y.ever && Find(Work(y), key).None? && Runs(body, y, steps)
    ensures Find(Work(Run(body, y, steps)), key).None?
    decreases |steps|
  {
    if steps != [] {
      var z := Apply(body, y, steps[0]);
      OneStepInv(body, y, steps[0]);
      match steps[0] {
        case Open(other) => OpenElsewhere(body, y, other, key);
        case Pass(replies) =>
          PassTracked(body, Work(y), replies, key, START);
          assert Work(z) == PassOf(body, Work(y), replies).still;
      }
      EndedStays(body, z, steps[1..], key);
    }
  }

  lemma {:induction false} DeadIsLast(body: seq<bv8>, y: Sys, steps: seq<Step>)
    requires Runs(body, y, steps) && !Run(body, y, steps).dead
    ensures !y.dead
    decreases |steps|
  {
    if steps != [] { DeadIsLast(body, Apply(body, y, steps[0]), steps[1..]); }
  }

  /** A stream still being pumped has moved at least once for every pass that did not refuse it. */
  lemma {:induction false} MovesOrRefused(body: seq<bv8>, y: Sys, steps: seq<Step>, key: Key)
    requires Inv(body, y) && Runs(body, y, steps) && !Run(body, y, steps).dead
    requires key in y.ever && Find(Work(y), key).Some?
    ensures var z := Run(body, y, steps);
            Find(Work(z), key).Some? ==>
              && Find(Work(y), key).value.sent + Passes(steps) <= Find(Work(z), key).value.sent + Refusals(body, y, steps, key)
              && (Passes(steps) > 0 || Find(Work(y), key).value.sent < |body| ==> Find(Work(z), key).value.sent < |body|)
    decreases |steps|
  {
    if steps != [] {
      var z := Apply(body, y, steps[0]);
      DeadIsLast(body, z, steps[1..]);
      OneStepInv(body, y, steps[0]);
      match steps[0] {
        case Open(other) => OpenElsewhere(body, y, other, key);
        case Pass(replies) => PassMoves(body, y, replies, key);
      }
      if Find(Work(z), key).None? {
        EndedStays(body, z, steps[1..], key);
      } else {
        MovesOrRefused(body, z, steps[1..], key);
      }
    }
  }

  /**
   Let a stream have been opened by the time y of a run, with the pump going on from there and no
   call raising.  After at least one pass, and as many passes as it has bytes left besides those
   that refused it while it was pumped, the stream has been given its whole body and ended,
   whatever else is opened and pumped.
   */
  lemma DrainedUnlessRefused(body: seq<bv8>, before: seq<Step>, steps: seq<Step>, key: Key)
    requires Runs(body, Init(), before) && Runs(body, Run(body, Init(), before), steps)
    requires var y := Run(body, Init(), before);
             && key in y.ever && !Run(body, y, steps).dead && Passes(steps) > 0
             && |body| + Refusals(body, y, steps, key) <= Passes(steps) + |Taken(y.calls, key)|
    ensures var z := Run(body, Run(body, Init(), before), steps);
            Taken(z.calls, key) == body && EndCalls(z.calls, key) == 1
  {
    var y := Run(body, Init(), before);
    var z := Run(body, y, steps);
    InitInv(body);
    InvRun(body, Init(), before);
    InvRun(body, y, steps);
    DeadIsLast(body, y, steps);
    TrackedMeans(body, y.calls, key, START);
    TrackedMeans(body, z.calls, key, START);
    EverGrows(body, y, steps, key);
    assert body[0..|body|] == body;
    if Find(Work(y), key).None? {
      EndedStays(body, y, steps, key);
    } else {
      MovesOrRefused(body, y, steps, key);
      assert Track(body, y.calls, key, START) == Some(Standing(body, y, key));
    }
    assert Track(body, z.calls, key, START) == Some(Standing(body, z, key));
  }

  lemma {:induction false} EverGrows(body: seq<bv8>, y: Sys, steps: seq<Step>, key: Key)
    requires Runs(body, y, steps) && key in y.ever
    ensures key in Run(body, y, steps).ever
    decreases |steps|
  {
    if steps != [] { EverGrows(body, Apply(body, y, steps[0]), steps[1..], key); }
  }
}
