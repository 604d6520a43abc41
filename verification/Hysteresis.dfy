/**
 When a backend counts as up or down: the counters of the health check engine, the older tracker that
 resets its counters on every transition, and the rule both are meant to implement.
 */
module Hysteresis {
  datatype BackendState = Unknown | Up | Down

  datatype Counters = Counters(state: BackendState, up: nat, down: nat)

  const INITIAL := Counters(Unknown, 0, 0)

  /** One probe result under the thresholds in force when it is processed. */
  datatype Probe = Probe(success: bool, rise: int, fall: int)

  /** Engine.handleResult. */
  function Step(c: Counters, p: Probe): Counters {
    if p.success then
      Counters(if c.state != Up && c.up + 1 >= p.rise then Up else c.state, c.up + 1, 0)
    else
      Counters(if c.state != Down && c.down + 1 >= p.fall then Down else c.state, 0, c.down + 1)
  }

  /** StateTracker.UpdateProbeResult. */
  function TrackerStep(c: Counters, p: Probe): Counters {
    var up, down := if p.success then c.up + 1 else 0, if p.success then 0 else c.down + 1;
    var state :=
      match c.state
      case Unknown => if up >= p.rise then Up else if down >= p.fall then Down else Unknown
      case Up => if down >= p.fall then Down else Up
      case Down => if up >= p.rise then Up else Down;
    if state != c.state then Counters(state, 0, 0) else Counters(state, up, down)
  }

  function Replay(probes: seq<Probe>): Counters {
    if probes == [] then INITIAL else Step(Replay(probes[..|probes| - 1]), probes[|probes| - 1])
  }

  function TrackerReplay(probes: seq<Probe>): Counters {
    if probes == [] then INITIAL else TrackerStep(TrackerReplay(probes[..|probes| - 1]), probes[|probes| - 1])
  }

  function WithThresholds(results: seq<bool>, rise: int, fall: int): (r: seq<Probe>)
    ensures |r| == |results| && forall i :: 0 <= i < |r| ==> r[i] == Probe(results[i], rise, fall)
  {
    seq(|results|, i requires 0 <= i < |results| => Probe(results[i], rise, fall))
  }

  function EngineState(results: seq<bool>, rise: int, fall: int): BackendState {
    Replay(WithThresholds(results, rise, fall)).state
  }

  function TrackerState(results: seq<bool>, rise: int, fall: int): BackendState {
    TrackerReplay(WithThresholds(results, rise, fall)).state
  }

  // --- the rule ---

  /** The last `n` results up to and including `j` are all `outcome`. */
  ghost predicate RunEndsAt(results: seq<bool>, j: int, n: nat, outcome: bool) {
    0 <= j < |results| && n <= j + 1 && forall i :: j - n < i <= j ==> results[i] == outcome
  }

  ghost predicate NoRunSince(results: seq<bool>, j: int, n: nat, outcome: bool) {
    forall k :: j < k < |results| ==> !RunEndsAt(results, k, n, outcome)
  }

  /** A run of `n` reached its length at some point, and no run of `m` of the other outcome did since. */
  ghost predicate LastReached(results: seq<bool>, n: nat, outcome: bool, m: nat) {
    exists j :: RunEndsAt(results, j, n, outcome) && NoRunSince(results, j, m, !outcome)
  }

  ghost predicate NeverReached(results: seq<bool>, n: nat, outcome: bool) {
    forall j :: !RunEndsAt(results, j, n, outcome)
  }

  /** The counters are the lengths of the last run. */
  ghost predicate CountsRun(results: seq<bool>, c: Counters) {
    && (c.up > 0 ==> RunEndsAt(results, |results| - 1, c.up, true))
    && (c.down > 0 ==> RunEndsAt(results, |results| - 1, c.down, false))
    && (results != [] ==> if results[|results| - 1] then c.down == 0 && c.up > 0 else c.up == 0 && c.down > 0)
    && (c.up > 0 && c.up < |results| ==> !results[|results| - c.up - 1])
    && (c.down > 0 && c.down < |results| ==> results[|results| - c.down - 1])
    && c.up <= |results| && c.down <= |results|
    && (results == [] ==> c == INITIAL)
  }

  lemma ReplayLast(results: seq<bool>, rise: int, fall: int)
    requires results != []
    ensures var n := |results| - 1;
            Replay(WithThresholds(results, rise, fall))
            == Step(Replay(WithThresholds(results[..n], rise, fall)), Probe(results[n], rise, fall))
    ensures var n := |results| - 1;
            TrackerReplay(WithThresholds(results, rise, fall))
            == TrackerStep(TrackerReplay(WithThresholds(results[..n], rise, fall)), Probe(results[n], rise, fall))
  {
    var n := |results| - 1;
    assert WithThresholds(results, rise, fall)[..n] == WithThresholds(results[..n], rise, fall);
  }

  /** One more result extends the run it belongs to or starts a new one. */
  lemma CountsRunStep(results: seq<bool>, c: Counters, rise: int, fall: int)
    requires results != [] && CountsRun(results[..|results| - 1], c)
    ensures CountsRun(results, Step(c, Probe(results[|results| - 1], rise, fall)))
  {
    var n := |results| - 1;
    assert results[..n] + [results[n]] == results;
  }

  lemma {:induction false} CountersAreRuns(results: seq<bool>, rise: int, fall: int)
    ensures CountsRun(results, Replay(WithThresholds(results, rise, fall)))
    decreases |results|
  {
    if results != [] {
      ReplayLast(results, rise, fall);
      CountersAreRuns(results[..|results| - 1], rise, fall);
      CountsRunStep(results, Replay(WithThresholds(results[..|results| - 1], rise, fall)), rise, fall);
    }
  }

  /** A run reached its length at the end exactly when the counter says so. */
  lemma ReachedNow(results: seq<bool>, c: Counters, n: nat, outcome: bool)
    requires CountsRun(results, c) && results != [] && n >= 1
    ensures RunEndsAt(results, |results| - 1, n, outcome) <==> (if outcome then c.up else c.down) >= n
  {
  }

  lemma ShorterRuns(results: seq<bool>, j: int, n: nat, outcome: bool)
    requires results != [] && j < |results| - 1
    ensures RunEndsAt(results, j, n, outcome) <==> RunEndsAt(results[..|results| - 1], j, n, outcome)
  {
  }

  /** One more result decides, or leaves the last decision in force. */
  lemma LastReachedStep(results: seq<bool>, n: nat, outcome: bool, m: nat)
    requires results != [] && n >= 1 && m >= 1
    ensures var last := |results| - 1;
            LastReached(results, n, outcome, m) <==>
            || RunEndsAt(results, last, n, outcome)
            || (LastReached(results[..last], n, outcome, m) && !RunEndsAt(results, last, m, !outcome))
  {
    var last := |results| - 1;
    forall j, k: nat, b | j < last ensures RunEndsAt(results, j, k, b) <==> RunEndsAt(results[..last], j, k, b) {
      ShorterRuns(results, j, k, b);
    }
    if LastReached(results, n, outcome, m) && !RunEndsAt(results, last, n, outcome) {
      var j :| RunEndsAt(results, j, n, outcome) && NoRunSince(results, j, m, !outcome);
      assert RunEndsAt(results[..last], j, n, outcome) && NoRunSince(results[..last], j, m, !outcome);
    }
    if LastReached(results[..last], n, outcome, m) && !RunEndsAt(results, last, m, !outcome) {
      var j :| RunEndsAt(results[..last], j, n, outcome) && NoRunSince(results[..last], j, m, !outcome);
      assert RunEndsAt(results, j, n, outcome) && NoRunSince(results, j, m, !outcome);
    }
    if RunEndsAt(results, last, n, outcome) {
      assert NoRunSince(results, last, m, !outcome);
    }
  }

  lemma NeverReachedStep(results: seq<bool>, n: nat, outcome: bool)
    requires results != [] && n >= 1
    ensures var last := |results| - 1;
            NeverReached(results, n, outcome) <==> NeverReached(results[..last], n, outcome) && !RunEndsAt(results, last, n, outcome)
  {
    var last := |results| - 1;
    forall j | j < last ensures RunEndsAt(results, j, n, outcome) <==> RunEndsAt(results[..last], j, n, outcome) {
      ShorterRuns(results, j, n, outcome);
    }
  }

  /** The engine's state is given by the most recent run that reached its threshold. */
  lemma {:induction false} EngineFollowsRule(results: seq<bool>, rise: nat, fall: nat)
    requires rise >= 1 && fall >= 1
    ensures EngineState(results, rise, fall) == Up <==> LastReached(results, rise, true, fall)
    ensures EngineState(results, rise, fall) == Down <==> LastReached(results, fall, false, rise)
    ensures EngineState(results, rise, fall) == Unknown <==> NeverReached(results, rise, true) && NeverReached(results, fall, false)
    decreases |results|
  {
    if results != [] {
      var last := |results| - 1;
      EngineFollowsRule(results[..last], rise, fall);
      ReplayLast(results, rise, fall);
      CountersAreRuns(results, rise, fall);
      var c := Replay(WithThresholds(results, rise, fall));
      ReachedNow(results, c, rise, true);
      ReachedNow(results, c, fall, false);
      LastReachedStep(results, rise, true, fall);
      LastReachedStep(results, fall, false, rise);
      NeverReachedStep(results, rise, true);
      NeverReachedStep(results, fall, false);
    }
  }

  // --- the two implementations ---

  /** The counters that can still cause a transition are the same. */
  predicate Agree(a: Counters, b: Counters) {
    a.state == b.state && (a.state != Up ==> a.up == b.up) && (a.state != Down ==> a.down == b.down)
  }

  lemma StepsAgree(a: Counters, b: Counters, p: Probe)
    requires Agree(a, b) && p.rise >= 1 && p.fall >= 1
    ensures Agree(Step(a, p), TrackerStep(b, p))
  {
  }

  lemma {:induction false} SameStates(results: seq<bool>, rise: int, fall: int)
    requires rise >= 1 && fall >= 1
    ensures Agree(Replay(WithThresholds(results, rise, fall)), TrackerReplay(WithThresholds(results, rise, fall)))
    decreases |results|
  {
    if results != [] {
      var n := |results| - 1;
      ReplayLast(results, rise, fall);
      SameStates(results[..n], rise, fall);
      StepsAgree(Replay(WithThresholds(results[..n], rise, fall)), TrackerReplay(WithThresholds(results[..n], rise, fall)),
                 Probe(results[n], rise, fall));
    }
  }

  /** For a threshold below one a result or two tell the implementations apart. */
  lemma Distinguish(rise: int, fall: int) returns (results: seq<bool>)
    requires rise < 1 || fall < 1
    ensures EngineState(results, rise, fall) != TrackerState(results, rise, fall)
  {
    results := if fall < 1 then [true] else [false];
    ReplayLast(results, rise, fall);
    assert results[..0] == [];
    if fall < 1 && rise <= 1 {
      var twice := [true, true];
      assert twice[..1] == results;
      ReplayLast(twice, rise, fall);
      results := twice;
    }
  }

  /** Both implementations go through the same states for all probe results exactly for positive thresholds. */
  lemma TrackerMatchesEngineIff(rise: int, fall: int)
    ensures (forall results :: EngineState(results, rise, fall) == TrackerState(results, rise, fall)) <==> rise >= 1 && fall >= 1
  {
    if rise >= 1 && fall >= 1 {
      forall results ensures EngineState(results, rise, fall) == TrackerState(results, rise, fall) {
        SameStates(results, rise, fall);
      }
    } else {
      var results := Distinguish(rise, fall);
    }
  }
}
