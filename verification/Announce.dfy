/**
 When the managed server re-announces itself (nwep/runtime.py:240-251): at a clock reading at
 least 60 seconds past the last announce, the clock being time.time() and free to step back.
 Everything here is about arbitrary sequences of readings.
 */
module Announce {

  const INTERVAL: int := 60

  /** The cadence the record's holder should keep (nwep/dht.py:33-34). */
  const REPUBLISH_INTERVAL_SECS: int := 1800

  /** last_announce after these readings. */
  function Last(readings: seq<int>): int {
    if readings == [] then 0
    else
      var n := |readings| - 1;
      var last := Last(readings[..n]);
      if readings[n] - last >= INTERVAL then readings[n] else last
  }

  /** The readings at which announce is called. */
  function Times(readings: seq<int>): seq<int> {
    if readings == [] then []
    else
      var n := |readings| - 1;
      var before := readings[..n];
      Times(before) + (if readings[n] - Last(before) >= INTERVAL then [readings[n]] else [])
  }

  lemma OneMore(before: seq<int>, now: int)
    ensures Last(before + [now]) == (if now - Last(before) >= INTERVAL then now else Last(before))
    ensures Times(before + [now]) == Times(before) + (if now - Last(before) >= INTERVAL then [now] else [])
  {
    assert (before + [now])[..|before|] == before;
  }

  predicate Spaced(times: seq<int>, gap: int) {
    forall i :: 0 <= i < |times| - 1 ==> times[i + 1] - times[i] >= gap
  }

  lemma {:induction false} TimesEndWithLast(readings: seq<int>)
    ensures if Times(readings) == [] then Last(readings) == 0 else Times(readings)[|Times(readings)| - 1] == Last(readings)
  {
    if readings != [] { TimesEndWithLast(readings[..|readings| - 1]); }
  }

  /** Successive announces are a minute apart, whatever the clock does. */
  lemma {:induction false} AtLeastAMinuteApart(readings: seq<int>)
    ensures Spaced(Times(readings), INTERVAL)
  {
    if readings != [] {
      var before := readings[..|readings| - 1];
      AtLeastAMinuteApart(before);
      TimesEndWithLast(before);
    }
  }

  lemma {:induction false} SpreadOut(times: seq<int>, i: nat, j: nat)
    requires Spaced(times, INTERVAL) && i <= j < |times|
    ensures times[j] - times[i] >= INTERVAL * (j - i)
    decreases j - i
  {
    if i < j {
      assert times[i + 1] - times[i] >= INTERVAL;
      SpreadOut(times, i + 1, j);
    }
  }

  /** So a window of t seconds holds at most t / 60 + 1 announces. */
  lemma AnnouncesInAWindow(readings: seq<int>, i: nat, j: nat, t: nat)
    requires i <= j < |Times(readings)| && Times(readings)[j] - Times(readings)[i] <= t
    ensures j - i + 1 <= t / INTERVAL + 1
  {
    AtLeastAMinuteApart(readings);
    SpreadOut(Times(readings), i, j);
  }

  /** The clock never steps back, and two readings are at most d apart. */
  predicate Steady(readings: seq<int>, d: int) {
    forall i :: 0 <= i < |readings| - 1 ==> readings[i] <= readings[i + 1] <= readings[i] + d
  }

  /** At every reading the last announce is less than a minute old. */
  lemma FreshAtEachReading(readings: seq<int>)
    requires readings != []
    ensures readings[|readings| - 1] - Last(readings) < INTERVAL
  {
  }

  predicate Within(times: seq<int>, gap: int) {
    forall i :: 0 <= i < |times| - 1 ==> times[i + 1] - times[i] < gap
  }

  lemma SteadyPrefix(readings: seq<int>, d: int)
    requires Steady(readings, d) && readings != []
    ensures Steady(readings[..|readings| - 1], d)
    ensures |readings| > 1 ==> readings[|readings| - 1] <= readings[|readings| - 2] + d
  {
    if |readings| > 1 {
      assert readings[|readings| - 2 + 1] <= readings[|readings| - 2] + d;
    }
  }

  /** With a steady clock, announces are also never far apart. */
  lemma {:induction false} NeverFarApart(readings: seq<int>, d: int)
    requires Steady(readings, d) && d >= 0
    ensures Within(Times(readings), INTERVAL + d)
  {
    if |readings| > 1 {
      var before := readings[..|readings| - 1];
      SteadyPrefix(readings, d);
      NeverFarApart(before, d);
      TimesEndWithLast(before);
      FreshAtEachReading(before);
    }
  }

  /** An owner loop that comes round at least every 1740 seconds keeps the record alive. */
  lemma WithinRepublishInterval(readings: seq<int>, d: int)
    requires Steady(readings, d) && 0 <= d <= 1740
    ensures Within(Times(readings), REPUBLISH_INTERVAL_SECS)
  {
    NeverFarApart(readings, d);
  }
}
