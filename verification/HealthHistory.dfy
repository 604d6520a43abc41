/**
 What can be said of the counters in every run, whatever starts race with saves and whatever records cannot
 be read: they replay results that were processed, in order and none of them twice.
 */
module HealthHistory {
  import opened Prelude
  import opened Hysteresis
  import opened HealthEngine
  import opened HealthRuns

  /** `x` is `y` with some elements left out. */
  ghost predicate Subsequence(x: seq<Probe>, y: seq<Probe>) {
    if x == [] then true
    else if y == [] then false
    else
      || (x[|x| - 1] == y[|y| - 1] && Subsequence(x[..|x| - 1], y[..|y| - 1]))
      || Subsequence(x, y[..|y| - 1])
  }

  lemma SubsequenceGrows(x: seq<Probe>, y: seq<Probe>, p: Probe)
    requires Subsequence(x, y)
    ensures Subsequence(x, y + [p]) && Subsequence(x + [p], y + [p])
  {
    assert (y + [p])[..|y|] == y && (x + [p])[..|x|] == x;
  }

  /** The result that the step from `s` to `t` processed for `b`, if any. */
  function News(s: State, t: State, b: Backend): seq<Probe> {
    if |Log(t, b)| > |Log(s, b)| then [Log(t, b)[|Log(t, b)| - 1]] else []
  }

  /** Everything ever processed for `b`, also what a crash lost. */
  function History(r: seq<State>, i: nat, b: Backend): seq<Probe>
    requires i < |r|
  {
    if i == 0 then [] else History(r, i - 1, b) + News(r[i - 1], r[i], b)
  }

  /** The results behind the running counters, the stored record and the record being written. */
  datatype Account = Account(counted: seq<Probe>, saved: seq<Probe>, written: seq<Probe>)

  ghost predicate Explains(a: Account, s: State, b: Backend) {
    && (Live(s, b) ==> CountersOf(s, b) == Replay(a.counted))
    && Stored(s, b) == Replay(a.saved)
    && (Saving(s, b) ==> s.saving.value.counters == Replay(a.written))
  }

  ghost predicate Within(a: Account, history: seq<Probe>) {
    Subsequence(a.counted, history) && Subsequence(a.saved, history) && Subsequence(a.written, history)
  }

  lemma StartAccounts(a: Account, s: State, t: State, key: string, rise: int, fall: int, addresses: set<string>, unreadable: set<string>, b: Backend)
      returns (next: Account)
    requires Start(s, t, key, rise, fall, addresses, unreadable) && Explains(a, s, b)
    ensures Explains(next, t, b) && next.counted in {a.counted, a.saved, []} && next.saved == a.saved && next.written == a.written
    ensures News(s, t, b) == []
  {
    next := if Live(s, b) then a
            else if b in s.store && b.address !in unreadable then a.(counted := a.saved)
            else a.(counted := []);
  }

  lemma ReplayMore(counted: seq<Probe>, p: Probe)
    ensures Replay(counted + [p]) == Step(Replay(counted), p)
  {
    assert (counted + [p])[..|counted|] == counted;
  }

  lemma ProcessAccounts(a: Account, s: State, t: State, job: Job, success: bool, b: Backend) returns (next: Account)
    requires Process(s, t, job, success) && Explains(a, s, b)
    ensures Explains(next, t, b) && next.saved == a.saved
    ensures if News(s, t, b) == [] then next == a
            else next.counted == next.written == a.counted + News(s, t, b)
  {
    var r := ProbeResult(job.instance.vip, job.instance.epoch, job.address, success);
    if Current(s.vips, r) && b == Backend(r.vip, r.address) {
      var p := ProbeOf(s.vips[r.vip], r);
      ReplayMore(a.counted, p);
      next := Account(a.counted + [p], a.saved, a.counted + [p]);
    } else {
      next := a;
    }
  }

  lemma SaveAccounts(a: Account, s: State, t: State, b: Backend) returns (next: Account)
    requires (Save(s, t) || SaveFails(s, t)) && Explains(a, s, b)
    ensures Explains(next, t, b) && next.counted == a.counted && next.saved in {a.saved, a.written} && next.written == a.written
    ensures News(s, t, b) == []
  {
    next := if Save(s, t) && Saving(s, b) then a.(saved := a.written) else a;
  }

  lemma CrashAccounts(a: Account, s: State, t: State, b: Backend)
    requires Crash(s, t) && Explains(a, s, b)
    ensures Explains(a, t, b) && News(s, t, b) == []
  {
  }

  lemma QuietAccounts(a: Account, s: State, t: State, b: Backend)
    requires (exists key :: Stop(s, t, key)) || (exists origin, address :: Emit(s, t, origin, address))
    requires Explains(a, s, b)
    ensures Explains(a, t, b) && News(s, t, b) == []
  {
  }

  lemma NextAccounts(a: Account, s: State, t: State, b: Backend, history: seq<Probe>) returns (next: Account)
    requires Next(s, t) && Explains(a, s, b) && Within(a, history)
    ensures Explains(next, t, b) && Within(next, history + News(s, t, b))
  {
    assert history + [] == history;
    if StartStep(s, t) {
      var key, rise, fall, addresses, unreadable :| Start(s, t, key, rise, fall, addresses, unreadable);
      next := StartAccounts(a, s, t, key, rise, fall, addresses, unreadable, b);
    } else if job :| Process(s, t, job, true) {
      next := ProcessedAccounts(a, s, t, job, true, b, history);
    } else if job :| Process(s, t, job, false) {
      next := ProcessedAccounts(a, s, t, job, false, b, history);
    } else if Save(s, t) || SaveFails(s, t) {
      next := SaveAccounts(a, s, t, b);
    } else if Crash(s, t) {
      CrashAccounts(a, s, t, b);
      next := a;
    } else {
      QuietAccounts(a, s, t, b);
      next := a;
    }
  }

  lemma ProcessedAccounts(a: Account, s: State, t: State, job: Job, success: bool, b: Backend, history: seq<Probe>) returns (next: Account)
    requires Process(s, t, job, success) && Explains(a, s, b) && Within(a, history)
    ensures Explains(next, t, b) && Within(next, history + News(s, t, b))
  {
    next := ProcessAccounts(a, s, t, job, success, b);
    var news := News(s, t, b);
    assert history + [] == history;
    if news != [] {
      SubsequenceGrows(a.counted, history, news[0]);
      SubsequenceGrows(a.saved, history, news[0]);
    }
  }

  /**
   In every run the running counters, the stored record and the one being written are replays of processed
   results, in their order and each counted once.
   */
  lemma {:induction false} CountersReplayInOrder(r: seq<State>, i: nat, b: Backend) returns (a: Account)
    requires Run(r) && i < |r|
    ensures Explains(a, r[i], b) && Within(a, History(r, i, b))
    decreases i
  {
    if i == 0 {
      a := Account([], [], []);
    } else {
      a := CountersReplayInOrder(r, i - 1, b);
      assert Next(r[i - 1], r[i - 1 + 1]);
      a := NextAccounts(a, r[i - 1], r[i], b, History(r, i - 1, b));
    }
  }
}
