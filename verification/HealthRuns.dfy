/**
 Runs of the health check engine: starts, updates, stops, probes in flight, results, saves and crashes in
 any order. Each locked section is one step; saving a result is a step of its own.
 */
module HealthRuns {
  import opened Prelude
  import opened Hysteresis
  import opened HealthEngine

  /** A started instance: its VIP key and the epoch it was given. */
  datatype Instance = Instance(vip: string, epoch: nat)

  /** A probe in flight, with the number of the start that created its instance. */
  datatype Job = Job(instance: Instance, address: string, origin: nat)

  /** The counters copied under the lock, to be written afterwards. */
  datatype Record = Record(backend: Backend, counters: Counters)

  /**
   `log` lists, per backend, every result that was processed and not lost in a crash; `covered` says how
   many of them the stored record has seen.
   */
  datatype State = State(
    vips: map<string, Vip>,
    nextEpoch: nat,
    store: Store,
    saving: Option<Record>,
    jobs: set<Job>,
    instances: map<nat, Instance>,
    origins: map<string, nat>,
    starts: nat,
    log: map<Backend, seq<Probe>>,
    covered: map<Backend, nat>)

  function Log(s: State, b: Backend): seq<Probe> { if b in s.log then s.log[b] else [] }

  function Covered(s: State, b: Backend): nat { if b in s.covered then s.covered[b] else 0 }

  function Stored(s: State, b: Backend): Counters { if b in s.store then s.store[b] else INITIAL }

  predicate Saving(s: State, b: Backend) { s.saving.Some? && s.saving.value.backend == b }

  predicate Live(s: State, b: Backend) { b.vip in s.vips && b.address in s.vips[b.vip].backends }

  function CountersOf(s: State, b: Backend): Counters
    requires Live(s, b)
  {
    s.vips[b.vip].backends[b.address]
  }

  predicate Init(s: State) {
    s == State(map[], 0, map[], None, {}, map[], map[], 0, map[], map[])
  }

  function Started(s: State, key: string, rise: int, fall: int, addresses: set<string>, unreadable: set<string>): State {
    var vip := Vip(s.nextEpoch + 1, rise, fall, StartedBackends(key, Lookup(s.vips, key), s.store, addresses, unreadable));
    s.(vips := s.vips[key := vip],
       nextEpoch := s.nextEpoch + 1,
       instances := s.instances[s.starts := Instance(key, s.nextEpoch + 1)],
       origins := s.origins[key := s.starts],
       starts := s.starts + 1)
  }

  predicate Start(s: State, t: State, key: string, rise: int, fall: int, addresses: set<string>, unreadable: set<string>) {
    t == Started(s, key, rise, fall, addresses, unreadable)
  }

  /** The backend is running, or everything processed is in the store and can be read from it. */
  predicate Clean(s: State, b: Backend, unreadable: set<string>) {
    Live(s, b) || (Covered(s, b) >= |Log(s, b)| && (b.address !in unreadable || b !in s.store))
  }

  predicate Stop(s: State, t: State, key: string) {
    t == s.(vips := s.vips - {key}, origins := s.origins - {key})
  }

  /** The scheduler of any instance, also of a replaced one, may still send probes. */
  predicate Emit(s: State, t: State, origin: nat, address: string) {
    origin in s.instances && t == s.(jobs := s.jobs + {Job(s.instances[origin], address, origin)})
  }

  function Processed(s: State, job: Job, success: bool): State {
    var r := ProbeResult(job.instance.vip, job.instance.epoch, job.address, success);
    var b := Backend(r.vip, r.address);
    if !Current(s.vips, r) then s.(jobs := s.jobs - {job})
    else s.(jobs := s.jobs - {job},
            vips := Handled(s.vips, r),
            saving := Some(Record(b, Handled(s.vips, r)[r.vip].backends[r.address])),
            log := s.log[b := Log(s, b) + [ProbeOf(s.vips[r.vip], r)]])
  }

  predicate Process(s: State, t: State, job: Job, success: bool) {
    s.saving == None && job in s.jobs && t == Processed(s, job, success)
  }

  predicate Save(s: State, t: State) {
    && s.saving.Some?
    && var b := s.saving.value.backend;
       t == s.(saving := None, store := s.store[b := s.saving.value.counters], covered := s.covered[b := |Log(s, b)|])
  }

  predicate SaveFails(s: State, t: State) { s.saving.Some? && t == s.(saving := None) }

  /** The process dies; only the store survives, and with it the results it covers. */
  predicate Crash(s: State, t: State) {
    t == State(map[], 0, s.store, None, {}, map[], map[], s.starts, Surviving(s), s.covered)
  }

  function Surviving(s: State): map<Backend, seq<Probe>> {
    map b | b in s.log :: if Covered(s, b) <= |s.log[b]| then s.log[b][..Covered(s, b)] else s.log[b]
  }

  ghost predicate StartStep(s: State, t: State) {
    exists key, rise, fall, addresses, unreadable :: Start(s, t, key, rise, fall, addresses, unreadable)
  }

  ghost predicate Next(s: State, t: State) {
    || StartStep(s, t)
    || (exists key :: Stop(s, t, key))
    || (exists origin, address :: Emit(s, t, origin, address))
    || (exists job :: Process(s, t, job, true))
    || (exists job :: Process(s, t, job, false))
    || Save(s, t)
    || SaveFails(s, t)
    || Crash(s, t)
  }

  ghost predicate Run(b: seq<State>) {
    && b != [] && Init(b[0])
    && forall i :: 0 <= i < |b| - 1 ==> Next(b[i], b[i + 1])
  }

  /** A start that touches `b` is clean for it. */
  ghost predicate CleanStep(s: State, t: State, b: Backend) {
    forall rise, fall, addresses, unreadable ::
      Start(s, t, b.vip, rise, fall, addresses, unreadable) && b.address in addresses ==> Clean(s, b, unreadable)
  }

  ghost predicate CleanRun(r: seq<State>, b: Backend) {
    forall i :: 0 <= i < |r| - 1 ==> CleanStep(r[i], r[i + 1], b)
  }

  /** No save of `b` fails. */
  ghost predicate SavedRun(r: seq<State>, b: Backend) {
    forall i :: 0 <= i < |r| - 1 && Saving(r[i], b) ==> !SaveFails(r[i], r[i + 1])
  }

  // --- epochs ---

  /** Instances have different epochs, a registered VIP and a probe in flight belong to the instance of their origin. */
  ghost predicate EpochsOk(vips: map<string, Vip>, nextEpoch: nat, jobs: set<Job>, instances: map<nat, Instance>,
                           origins: map<string, nat>, starts: nat) {
    && (forall o :: o in instances ==> o < starts && instances[o].epoch <= nextEpoch)
    && (forall o, p :: o in instances && p in instances && o != p ==> instances[o].epoch != instances[p].epoch)
    && (forall k :: k in vips ==> k in origins && origins[k] in instances && instances[origins[k]] == Instance(k, vips[k].epoch))
    && (forall j :: j in jobs ==> j.origin in instances && instances[j.origin] == j.instance)
  }

  ghost predicate EpochInv(s: State) { EpochsOk(s.vips, s.nextEpoch, s.jobs, s.instances, s.origins, s.starts) }

  lemma StartKeepsEpochInv(s: State, t: State, key: string, rise: int, fall: int, addresses: set<string>, unreadable: set<string>)
    requires EpochInv(s) && Start(s, t, key, rise, fall, addresses, unreadable)
    ensures EpochInv(t)
  {
    assert forall o :: o in s.instances ==> s.instances[o] == t.instances[o];
  }

  lemma HandledKeepsEpochs(vips: map<string, Vip>, r: ProbeResult)
    ensures Handled(vips, r).Keys == vips.Keys && forall k :: k in vips ==> Handled(vips, r)[k].epoch == vips[k].epoch
  {
  }

  lemma FewerJobsSameEpochs(vips: map<string, Vip>, vips': map<string, Vip>, nextEpoch: nat, jobs: set<Job>, jobs': set<Job>,
                            instances: map<nat, Instance>, origins: map<string, nat>, starts: nat)
    requires EpochsOk(vips, nextEpoch, jobs, instances, origins, starts) && jobs' <= jobs
    requires vips'.Keys == vips.Keys && forall k :: k in vips ==> vips'[k].epoch == vips[k].epoch
    ensures EpochsOk(vips', nextEpoch, jobs', instances, origins, starts)
  {
  }

  lemma ProcessKeepsEpochInv(s: State, t: State, job: Job, success: bool)
    requires EpochInv(s) && Process(s, t, job, success)
    ensures EpochInv(t)
  {
    HandledKeepsEpochs(s.vips, ProbeResult(job.instance.vip, job.instance.epoch, job.address, success));
    FewerJobsSameEpochs(s.vips, t.vips, s.nextEpoch, s.jobs, t.jobs, s.instances, s.origins, s.starts);
  }

  lemma EmitKeepsEpochInv(s: State, t: State, origin: nat, address: string)
    requires EpochInv(s) && Emit(s, t, origin, address)
    ensures EpochInv(t)
  {
  }

  lemma StopKeepsEpochInv(s: State, t: State, key: string)
    requires EpochInv(s) && Stop(s, t, key)
    ensures EpochInv(t)
  {
  }

  lemma SavesKeepEpochInv(s: State, t: State)
    requires EpochInv(s) && (Save(s, t) || SaveFails(s, t) || Crash(s, t))
    ensures EpochInv(t)
  {
  }

  lemma StartStepKeepsEpochInv(s: State, t: State)
    requires EpochInv(s) && StartStep(s, t)
    ensures EpochInv(t)
  {
    var key, rise, fall, addresses, unreadable :| Start(s, t, key, rise, fall, addresses, unreadable);
    StartKeepsEpochInv(s, t, key, rise, fall, addresses, unreadable);
  }

  lemma NextKeepsEpochInv(s: State, t: State)
    requires EpochInv(s) && Next(s, t)
    ensures EpochInv(t)
  {
    if StartStep(s, t) {
      StartStepKeepsEpochInv(s, t);
    } else if key :| Stop(s, t, key) {
      StopKeepsEpochInv(s, t, key);
    } else if origin, address :| Emit(s, t, origin, address) {
      EmitKeepsEpochInv(s, t, origin, address);
    } else if job :| Process(s, t, job, true) {
      ProcessKeepsEpochInv(s, t, job, true);
    } else if job :| Process(s, t, job, false) {
      ProcessKeepsEpochInv(s, t, job, false);
    } else {
      SavesKeepEpochInv(s, t);
    }
  }

  lemma {:induction false} RunKeepsEpochInv(r: seq<State>, i: nat)
    requires Run(r) && i < |r|
    ensures EpochInv(r[i])
    decreases i
  {
    if i > 0 {
      RunKeepsEpochInv(r, i - 1);
      assert Next(r[i - 1], r[i - 1 + 1]);
      NextKeepsEpochInv(r[i - 1], r[i]);
    }
  }

  // --- counters ---

  /** A running backend has the counters of everything processed; the store has those of a prefix. */
  ghost predicate CountsAll(s: State, b: Backend) {
    && Covered(s, b) <= |Log(s, b)|
    && (Live(s, b) ==> CountersOf(s, b) == Replay(Log(s, b)))
    && Stored(s, b) == Replay(Log(s, b)[..Covered(s, b)])
    && (b in s.store <==> Covered(s, b) > 0)
    && (Saving(s, b) ==> Log(s, b) != [] && s.saving.value.counters == Replay(Log(s, b)))
  }

  /** Replaying at least one result never gives the initial counters back. */
  lemma ReplayCounts(probes: seq<Probe>)
    requires probes != []
    ensures Replay(probes) != INITIAL
  {
  }

  lemma StartKeepsCounts(s: State, t: State, key: string, rise: int, fall: int, addresses: set<string>, unreadable: set<string>, b: Backend)
    requires Start(s, t, key, rise, fall, addresses, unreadable) && CountsAll(s, b)
    requires b.vip == key && b.address in addresses ==> Clean(s, b, unreadable)
    ensures CountsAll(t, b)
  {
    assert Log(s, b)[..|Log(s, b)|] == Log(s, b);
  }

  lemma ProcessKeepsCounts(s: State, t: State, job: Job, success: bool, b: Backend)
    requires Process(s, t, job, success) && CountsAll(s, b)
    ensures CountsAll(t, b)
  {
    var r := ProbeResult(job.instance.vip, job.instance.epoch, job.address, success);
    if Current(s.vips, r) && b == Backend(r.vip, r.address) {
      assert Log(t, b)[..|Log(t, b)| - 1] == Log(s, b);
      assert Log(t, b)[..Covered(s, b)] == Log(s, b)[..Covered(s, b)];
    }
  }

  lemma SaveKeepsCounts(s: State, t: State, b: Backend)
    requires (Save(s, t) || SaveFails(s, t)) && CountsAll(s, b)
    ensures CountsAll(t, b)
  {
    assert Log(s, b)[..|Log(s, b)|] == Log(s, b);
  }

  lemma CrashKeepsCounts(s: State, t: State, b: Backend)
    requires Crash(s, t) && CountsAll(s, b)
    ensures CountsAll(t, b) && Log(t, b) == Log(s, b)[..Covered(s, b)]
  {
    assert Log(t, b)[..Covered(t, b)] == Log(s, b)[..Covered(s, b)];
  }

  lemma QuietKeepsCounts(s: State, t: State, b: Backend)
    requires (exists key :: Stop(s, t, key)) || (exists origin, address :: Emit(s, t, origin, address))
    requires CountsAll(s, b)
    ensures CountsAll(t, b)
  {
  }

  lemma NextKeepsCounts(s: State, t: State, b: Backend)
    requires Next(s, t) && CleanStep(s, t, b) && CountsAll(s, b)
    ensures CountsAll(t, b)
  {
    if StartStep(s, t) {
      var key, rise, fall, addresses, unreadable :| Start(s, t, key, rise, fall, addresses, unreadable);
      StartKeepsCounts(s, t, key, rise, fall, addresses, unreadable, b);
    } else if job :| Process(s, t, job, true) {
      ProcessKeepsCounts(s, t, job, true, b);
    } else if job :| Process(s, t, job, false) {
      ProcessKeepsCounts(s, t, job, false, b);
    } else if Save(s, t) || SaveFails(s, t) {
      SaveKeepsCounts(s, t, b);
    } else if Crash(s, t) {
      CrashKeepsCounts(s, t, b);
    } else {
      QuietKeepsCounts(s, t, b);
    }
  }

  lemma {:induction false} RunKeepsCounts(r: seq<State>, i: nat, b: Backend)
    requires Run(r) && i < |r| && CleanRun(r, b)
    ensures CountsAll(r[i], b)
    decreases i
  {
    if i > 0 {
      RunKeepsCounts(r, i - 1, b);
      assert Next(r[i - 1], r[i - 1 + 1]) && CleanStep(r[i - 1], r[i - 1 + 1], b);
      NextKeepsCounts(r[i - 1], r[i], b);
    }
  }

  /** At most the result that is being saved is not covered. */
  ghost predicate Covers(s: State, b: Backend) {
    |Log(s, b)| <= Covered(s, b) + if Saving(s, b) then 1 else 0
  }

  lemma LogAfterProcess(s: State, job: Job, success: bool, b: Backend)
    ensures var t := Processed(s, job, success);
            Log(t, b) == Log(s, b) || (|Log(t, b)| == |Log(s, b)| + 1 && Saving(t, b))
  {
  }

  lemma ProcessKeepsCovers(s: State, t: State, job: Job, success: bool, b: Backend)
    requires Process(s, t, job, success) && Covers(s, b)
    ensures Covers(t, b)
  {
    LogAfterProcess(s, job, success, b);
    assert Covered(t, b) == Covered(s, b) && !Saving(s, b);
  }

  lemma IdleKeepsCovers(s: State, t: State, b: Backend)
    requires StartStep(s, t) || (exists key :: Stop(s, t, key)) || (exists origin, address :: Emit(s, t, origin, address))
    requires Covers(s, b)
    ensures Covers(t, b)
  {
    assert t.log == s.log && t.covered == s.covered && t.saving == s.saving;
  }

  lemma SaveKeepsCovers(s: State, t: State, b: Backend)
    requires (Save(s, t) || (SaveFails(s, t) && !Saving(s, b))) && Covers(s, b)
    ensures Covers(t, b)
  {
  }

  lemma NextKeepsCovers(s: State, t: State, b: Backend)
    requires Next(s, t) && CountsAll(s, b) && Covers(s, b) && (Saving(s, b) ==> !SaveFails(s, t))
    ensures Covers(t, b)
  {
    if Crash(s, t) {
      CrashKeepsCounts(s, t, b);
    } else if job :| Process(s, t, job, true) {
      ProcessKeepsCovers(s, t, job, true, b);
    } else if job :| Process(s, t, job, false) {
      ProcessKeepsCovers(s, t, job, false, b);
    } else if Save(s, t) || SaveFails(s, t) {
      SaveKeepsCovers(s, t, b);
    } else {
      IdleKeepsCovers(s, t, b);
    }
  }

  lemma {:induction false} RunKeepsCovers(r: seq<State>, i: nat, b: Backend)
    requires Run(r) && i < |r| && CleanRun(r, b) && SavedRun(r, b)
    ensures Covers(r[i], b)
    decreases i
  {
    if i > 0 {
      RunKeepsCovers(r, i - 1, b);
      RunKeepsCounts(r, i - 1, b);
      assert Next(r[i - 1], r[i - 1 + 1]);
      NextKeepsCovers(r[i - 1], r[i], b);
    }
  }

  // --- results ---

  /** The probe was sent by the instance that is registered now, for a backend that it has. */
  predicate FromRegistered(s: State, job: Job) {
    && job.instance.vip in s.vips && job.instance.vip in s.origins && s.origins[job.instance.vip] == job.origin
    && Live(s, Backend(job.instance.vip, job.address))
  }

  lemma CurrentIffRegistered(s: State, job: Job, success: bool)
    requires EpochInv(s) && job in s.jobs
    ensures Current(s.vips, ProbeResult(job.instance.vip, job.instance.epoch, job.address, success)) <==> FromRegistered(s, job)
  {
  }

  /**
   In every run a result counts exactly when its probe was sent by the instance that is registered now, for
   a backend of it. It is then counted once, with the thresholds in force, and for that backend only.
   */
  lemma OnlyCurrentResultsCount(r: seq<State>, i: nat, job: Job, success: bool)
    requires Run(r) && i + 1 < |r| && Process(r[i], r[i + 1], job, success)
    ensures !FromRegistered(r[i], job) ==> r[i + 1].vips == r[i].vips && r[i + 1].log == r[i].log
    ensures FromRegistered(r[i], job) ==>
              var b, vip := Backend(job.instance.vip, job.address), r[i].vips[job.instance.vip];
              var p := Probe(success, vip.rise, vip.fall);
              && Log(r[i + 1], b) == Log(r[i], b) + [p]
              && Live(r[i + 1], b) && CountersOf(r[i + 1], b) == Step(CountersOf(r[i], b), p)
              && forall c :: c != b ==> Log(r[i + 1], c) == Log(r[i], c) && (Live(r[i + 1], c) <==> Live(r[i], c))
                                        && (Live(r[i], c) ==> CountersOf(r[i + 1], c) == CountersOf(r[i], c))
  {
    RunKeepsEpochInv(r, i);
    CurrentIffRegistered(r[i], job, success);
  }

  /** Running counters are the replay of every processed result, through updates, restarts, failed saves and crashes. */
  lemma CountersReplayEverything(r: seq<State>, i: nat, b: Backend)
    requires Run(r) && CleanRun(r, b) && i < |r| && Live(r[i], b)
    ensures CountersOf(r[i], b) == Replay(Log(r[i], b))
  {
    RunKeepsCounts(r, i, b);
  }

  /** What a crash leaves in the store is the replay of a prefix of the processed results. */
  lemma CrashKeepsAPrefix(r: seq<State>, i: nat, b: Backend)
    requires Run(r) && CleanRun(r, b) && i + 1 < |r| && Crash(r[i], r[i + 1])
    ensures Stored(r[i + 1], b) == Replay(Log(r[i + 1], b))
    ensures Log(r[i + 1], b) <= Log(r[i], b)
  {
    RunKeepsCounts(r, i, b);
    RunKeepsCounts(r, i + 1, b);
    CrashKeepsCounts(r[i], r[i + 1], b);
    assert Log(r[i + 1], b)[..|Log(r[i + 1], b)|] == Log(r[i + 1], b);
  }

  /** If no save of the backend failed, a crash loses at most its last result, and only while that was being saved. */
  lemma CrashLosesAtMostOne(r: seq<State>, i: nat, b: Backend)
    requires Run(r) && CleanRun(r, b) && SavedRun(r, b) && i + 1 < |r| && Crash(r[i], r[i + 1])
    ensures |Log(r[i], b)| - |Log(r[i + 1], b)| <= if Saving(r[i], b) then 1 else 0
  {
    RunKeepsCounts(r, i, b);
    RunKeepsCovers(r, i, b);
    CrashKeepsCounts(r[i], r[i + 1], b);
  }

  /**
   A clean start continues from everything processed. While at most one result is missing in the store,
   an unclean start never does.
   */
  lemma StartContinuesIff(s: State, t: State, key: string, rise: int, fall: int, addresses: set<string>, unreadable: set<string>, a: string)
    requires Start(s, t, key, rise, fall, addresses, unreadable) && a in addresses && CountsAll(s, Backend(key, a))
    ensures Clean(s, Backend(key, a), unreadable) ==> CountersOf(t, Backend(key, a)) == Replay(Log(t, Backend(key, a)))
    ensures (&& |Log(s, Backend(key, a))| <= Covered(s, Backend(key, a)) + 1
             && CountersOf(t, Backend(key, a)) == Replay(Log(t, Backend(key, a))))
            ==> Clean(s, Backend(key, a), unreadable)
  {
    var b := Backend(key, a);
    var l := Log(s, b);
    assert l[..|l|] == l;
    if l != [] {
      ReplayCounts(l);
      assert Replay(l) == Step(Replay(l[..|l| - 1]), l[|l| - 1]);
    }
  }

  /** Stopping and starting a VIP between a result and its save forgets the result. */
  lemma RacingStartForgets() returns (r: seq<State>, t: State, b: Backend, p: Probe)
    ensures Run(r) && Start(r[|r| - 1], t, b.vip, 1, 1, {b.address}, {}) && Live(t, b)
    ensures Log(t, b) == [p] && CountersOf(t, b) == INITIAL != Replay([p])
  {
    b, p := Backend("ns/vip", "10.0.0.1"), Probe(true, 1, 1);
    var s0 := State(map[], 0, map[], None, {}, map[], map[], 0, map[], map[]);
    var s1 := Started(s0, b.vip, 1, 1, {b.address}, {});
    var job := Job(Instance(b.vip, 1), b.address, 0);
    var s2 := s1.(jobs := {job});
    var s3 := Processed(s2, job, true);
    var s4 := s3.(vips := s3.vips - {b.vip}, origins := s3.origins - {b.vip});
    t := Started(s4, b.vip, 1, 1, {b.address}, {});
    assert Start(s0, s1, b.vip, 1, 1, {b.address}, {});
    assert Emit(s1, s2, 0, b.address);
    assert Process(s2, s3, job, true);
    assert Stop(s3, s4, b.vip);
    r := [s0, s1, s2, s3, s4];
    assert r[|r| - 1] == s4;
    assert [p][..0] == [];
  }
}
