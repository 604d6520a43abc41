/**
 The manager's life cycle of per-VIP reconcilers. The watcher delivers one event at a time; every
 reconciler is its own goroutine. A step is one critical section of the manager, or what a
 goroutine does between two of them.
 */
module Lifecycle {
  import opened Prelude

  type Key = string
  type Rid = nat

  /** A VirtualIP object as observed: which object it is, and the version of it. */
  datatype Vip = Vip(uid: string, revision: nat)

  /** `DeleteQueued`: the delete event waits in the channel. `Exiting`: the goroutine left its loop. */
  datatype Life = Working | DeleteQueued | Deleting | Exiting | Dead

  datatype Reconciler = Reconciler(key: Key, current: Option<Vip>, life: Life)

  /** What the watcher goroutine still has to do after releasing the manager's mutex. */
  datatype Watcher = Free | Updating(r: Rid, vip: Vip) | Marking(r: Rid)

  datatype Effect = Applied(r: Rid, key: Key) | Removed(r: Rid, key: Key)

  /** What the watcher reported; of a deletion also whether the key had a reconciler in service. */
  datatype Watched = Seen(key: Key, vip: Vip) | Gone(key: Key, uid: string, served: bool)

  /**
   `handoffs` are recreated reconcilers whose first `update` has not run yet. `events`, `desired`,
   `revision` and `overtaken` only observe: everything the watcher reported, what the manager made of
   it, the newest revision, and the reconcilers whose newer update was overwritten by such a late first
   update.
   */
  datatype State = State(
    vips: map<Key, Rid>,
    deleting: map<Key, Rid>,
    pending: map<Key, Vip>,
    recs: map<Rid, Reconciler>,
    next: Rid,
    watcher: Watcher,
    handoffs: map<Rid, Vip>,
    log: seq<Effect>,
    events: seq<Watched>,
    desired: map<Key, Vip>,
    revision: nat,
    overtaken: set<Rid>)

  // --- steps ---

  /** OnVIPUpdate, up to the unlock. */
  ghost predicate WatchUpdate(s: State, s': State, k: Key, vip: Vip) {
    && s.watcher == Free && vip.revision > s.revision
    && var t := s.(desired := s.desired[k := vip], revision := vip.revision, events := s.events + [Seen(k, vip)]);
       if k in s.deleting then s' == t.(pending := s.pending[k := vip])
       else if k in s.vips then s' == t.(watcher := Updating(s.vips[k], vip))
       else s' == t.(vips := s.vips[k := s.next], recs := s.recs[s.next := Reconciler(k, None, Working)],
                     next := s.next + 1, watcher := Updating(s.next, vip))
  }

  /** vr.update by the watcher. */
  ghost predicate FinishUpdate(s: State, s': State) {
    && s.watcher.Updating? && s.watcher.r in s.recs
    && var Updating(r, vip) := s.watcher;
       s' == s.(recs := s.recs[r := s.recs[r].(current := Some(vip))], watcher := Free, overtaken := s.overtaken - {r})
  }

  /** OnVIPDelete, up to the unlock. */
  ghost predicate WatchDelete(s: State, s': State, k: Key, vip: Vip) {
    && s.watcher == Free
    && var t := s.(events := s.events + [Gone(k, vip.uid, k in s.vips)]);
       if k in s.vips then
         s' == t.(vips := s.vips - {k}, deleting := s.deleting[k := s.vips[k]], watcher := Marking(s.vips[k]),
                  desired := s.desired - {k})
       else if k in s.pending && s.pending[k].uid == vip.uid then
         s' == t.(pending := s.pending - {k}, desired := s.desired - {k})
       else s' == t
  }

  /** markDeleted. */
  ghost predicate FinishDelete(s: State, s': State) {
    && s.watcher.Marking? && s.watcher.r in s.recs
    && var r := s.watcher.r;
       s' == s.(recs := s.recs[r := s.recs[r].(life := DeleteQueued)], watcher := Free)
  }

  /** run: a reconcile, possible until the loop has taken the delete event. */
  ghost predicate Reconcile(s: State, s': State, r: Rid) {
    && r in s.recs && s.recs[r].life in {Working, DeleteQueued} && s.recs[r].current.Some?
    && s' == s.(log := s.log + [Applied(r, s.recs[r].key)])
  }

  /** run: one delete attempt; the dataplane removal may not be reached, and only a complete cleanup ends the loop. */
  ghost predicate DeleteAttempt(s: State, s': State, r: Rid) {
    && r in s.recs && s.recs[r].life in {DeleteQueued, Deleting}
    && (|| s' == s.(recs := s.recs[r := s.recs[r].(life := Deleting)])
        || s' == s.(recs := s.recs[r := s.recs[r].(life := Deleting)], log := s.log + [Removed(r, s.recs[r].key)])
        || s' == s.(recs := s.recs[r := s.recs[r].(life := Exiting)], log := s.log + [Removed(r, s.recs[r].key)]))
  }

  /** onVIPReconcilerStopped, up to the unlock. */
  ghost predicate Stopped(s: State, s': State, r: Rid) {
    && r in s.recs && s.recs[r].life == Exiting
    && var k := s.recs[r].key;
       var dead := s.recs[r := s.recs[r].(life := Dead)];
       if k in s.deleting && s.deleting[k] == r then
         if k in s.pending then
           s' == s.(deleting := s.deleting - {k}, pending := s.pending - {k}, vips := s.vips[k := s.next],
                    recs := dead[s.next := Reconciler(k, None, Working)], next := s.next + 1,
                    handoffs := s.handoffs[s.next := s.pending[k]])
         else s' == s.(deleting := s.deleting - {k}, recs := dead)
       else if k in s.vips && s.vips[k] == r then s' == s.(vips := s.vips - {k}, recs := dead)
       else s' == s.(recs := dead)
  }

  /** recreated.update(pendingVIP), after the unlock. */
  ghost predicate Handoff(s: State, s': State, r: Rid) {
    && r in s.handoffs && r in s.recs
    && s' == s.(recs := s.recs[r := s.recs[r].(current := Some(s.handoffs[r]))], handoffs := s.handoffs - {r},
                overtaken := if s.recs[r].current.Some? then s.overtaken + {r} else s.overtaken)
  }

  ghost predicate Next(s: State, s': State) {
    || (exists k, vip :: WatchUpdate(s, s', k, vip))
    || (exists k, vip :: WatchDelete(s, s', k, vip))
    || FinishUpdate(s, s') || FinishDelete(s, s')
    || (exists r :: RunStep(s, s', r))
  }

  ghost predicate RunStep(s: State, s': State, r: Rid) {
    Reconcile(s, s', r) || DeleteAttempt(s, s', r) || Stopped(s, s', r) || Handoff(s, s', r)
  }

  ghost predicate Init(s: State) {
    s == State(map[], map[], map[], map[], 0, Free, map[], [], [], map[], s.revision, {})
  }

  ghost predicate Run(b: seq<State>) {
    && |b| > 0 && Init(b[0])
    && forall i :: 0 <= i < |b| - 1 ==> Next(b[i], b[i + 1])
  }

  // --- invariant ---

  ghost predicate KeyOk(s: State, k: Key) {
    && (k in s.vips ==> k !in s.deleting && s.vips[k] in s.recs
                        && s.recs[s.vips[k]].key == k && s.recs[s.vips[k]].life == Working)
    && (k in s.deleting ==> s.deleting[k] in s.recs && s.recs[s.deleting[k]].key == k
                            && s.recs[s.deleting[k]].life != Dead
                            && (s.recs[s.deleting[k]].life == Working ==> s.watcher == Marking(s.deleting[k])))
    && (k in s.pending ==> k in s.deleting && k in s.desired && s.pending[k] == s.desired[k])
    && (k in s.desired <==> k in s.vips || k in s.pending)
    && (k in s.desired ==> s.desired[k].revision <= s.revision)
  }

  ghost predicate RecOk(s: State, r: Rid)
    requires r in s.recs
  {
    && r < s.next
    && (s.recs[r].life != Dead ==>
          var k := s.recs[r].key;
          (k in s.vips && s.vips[k] == r) || (k in s.deleting && s.deleting[k] == r))
    && (r in s.handoffs ==> s.handoffs[r].revision <= s.revision && r !in s.overtaken)
  }

  /** The reconciler in charge of a key knows the newest object unless it was overtaken. */
  ghost predicate CurrentOk(s: State, r: Rid)
    requires r in s.recs
  {
    var k := s.recs[r].key;
    k in s.vips && s.vips[k] == r && k in s.desired && !(s.watcher.Updating? && s.watcher.r == r) ==>
      if r in s.handoffs then
        if s.recs[r].current.None? then s.handoffs[r] == s.desired[k]
        else s.recs[r].current == Some(s.desired[k]) && s.handoffs[r].revision < s.desired[k].revision
      else s.recs[r].current.Some? && (s.recs[r].current == Some(s.desired[k]) <==> r !in s.overtaken)
  }

  ghost predicate WatcherOk(s: State) {
    match s.watcher
    case Free => true
    case Updating(r, vip) =>
      && r in s.recs
      && var k := s.recs[r].key;
         && k in s.vips && s.vips[k] == r && k in s.desired && s.desired[k] == vip
         && (r in s.handoffs ==> s.handoffs[r].revision < vip.revision)
    case Marking(r) => r in s.recs && s.recs[r].life == Working && s.recs[r].key in s.deleting && s.deleting[s.recs[r].key] == r
  }

  /** Per key, the log is sorted by incarnation. */
  ghost predicate LogSorted(log: seq<Effect>) {
    forall i, j :: 0 <= i < j < |log| && log[i].key == log[j].key ==> log[i].r <= log[j].r
  }

  /** No effect belongs to an incarnation newer than a living one of the same key. */
  ghost predicate LogBelow(log: seq<Effect>, recs: map<Rid, Reconciler>, next: Rid) {
    && (forall e :: e in log ==> e.r < next)
    && (forall e, r :: e in log && r in recs && recs[r].life != Dead && recs[r].key == e.key ==> e.r <= r)
  }

  ghost predicate Inv(s: State) {
    && (forall k :: KeyOk(s, k))
    && (forall r :: r in s.recs ==> RecOk(s, r))
    && (forall r :: r in s.recs ==> CurrentOk(s, r))
    && s.handoffs.Keys <= s.recs.Keys && s.overtaken <= s.recs.Keys
    && WatcherOk(s)
    && LogSorted(s.log)
    && LogBelow(s.log, s.recs, s.next)
  }

  lemma NextIsNew(s: State)
    requires Inv(s)
    ensures s.next !in s.recs && s.next !in s.handoffs && s.next !in s.overtaken
  {
    assert s.next in s.recs ==> RecOk(s, s.next);
  }

  lemma KeyAfterUpdate(s: State, s': State, k: Key, vip: Vip)
    requires WatchUpdate(s, s', k, vip) && s.next !in s.recs && KeyOk(s, k)
    ensures KeyOk(s', k)
  {
  }

  lemma OtherKeyAfterUpdate(s: State, s': State, k: Key, vip: Vip, j: Key)
    requires WatchUpdate(s, s', k, vip) && s.next !in s.recs && KeyOk(s, j) && j != k
    ensures KeyOk(s', j)
  {
    assert (j in s'.vips <==> j in s.vips) && (j in s'.pending <==> j in s.pending) && (j in s'.desired <==> j in s.desired);
    assert j in s.vips ==> s'.vips[j] == s.vips[j] && s'.recs[s.vips[j]] == s.recs[s.vips[j]];
    assert j in s.deleting ==> s'.recs[s.deleting[j]] == s.recs[s.deleting[j]];
  }

  lemma WatcherAfterUpdate(s: State, s': State, k: Key, vip: Vip)
    requires WatchUpdate(s, s', k, vip) && s.next !in s.recs && s.next !in s.handoffs && KeyOk(s, k)
    requires k in s.vips ==> RecOk(s, s.vips[k])
    ensures WatcherOk(s')
  {
  }

  lemma UpdateKeepsKeys(s: State, s': State, k: Key, vip: Vip)
    requires Inv(s) && WatchUpdate(s, s', k, vip)
    ensures forall j :: KeyOk(s', j)
  {
    NextIsNew(s);
    forall j ensures KeyOk(s', j) {
      assert KeyOk(s, j);
      if j == k {
        KeyAfterUpdate(s, s', k, vip);
      } else {
        OtherKeyAfterUpdate(s, s', k, vip, j);
      }
    }
  }

  lemma RecAfterUpdate(s: State, s': State, k: Key, vip: Vip, r: Rid)
    requires WatchUpdate(s, s', k, vip) && s.next !in s.recs && KeyOk(s, k)
    requires r in s.recs && RecOk(s, r) && CurrentOk(s, r) && KeyOk(s, s.recs[r].key)
    ensures RecOk(s', r) && CurrentOk(s', r)
  {
  }

  /** A new incarnation is newer than every effect so far. */
  lemma LogBelowAfterBirth(log: seq<Effect>, recs: map<Rid, Reconciler>, next: Rid, r: Reconciler)
    requires LogBelow(log, recs, next) && next !in recs
    ensures LogBelow(log, recs[next := r], next + 1)
  {
  }

  lemma UpdateKeepsRecs(s: State, s': State, k: Key, vip: Vip)
    requires Inv(s) && WatchUpdate(s, s', k, vip)
    ensures forall r :: r in s'.recs ==> RecOk(s', r) && CurrentOk(s', r)
  {
    NextIsNew(s);
    assert KeyOk(s, k);
    forall r | r in s'.recs ensures RecOk(s', r) && CurrentOk(s', r) {
      if r in s.recs {
        assert RecOk(s, r) && CurrentOk(s, r) && KeyOk(s, s.recs[r].key);
        RecAfterUpdate(s, s', k, vip, r);
      }
    }
  }

  lemma UpdateKeepsInv(s: State, s': State, k: Key, vip: Vip)
    requires Inv(s) && WatchUpdate(s, s', k, vip)
    ensures Inv(s')
  {
    NextIsNew(s);
    assert KeyOk(s, k);
    assert k in s.vips ==> RecOk(s, s.vips[k]);
    WatcherAfterUpdate(s, s', k, vip);
    UpdateKeepsKeys(s, s', k, vip);
    UpdateKeepsRecs(s, s', k, vip);
    LogBelowAfterBirth(s.log, s.recs, s.next, Reconciler(k, None, Working));
  }

  lemma KeyAfterDelete(s: State, s': State, k: Key, vip: Vip, j: Key)
    requires WatchDelete(s, s', k, vip) && KeyOk(s, j) && KeyOk(s, k)
    ensures KeyOk(s', j)
  {
  }

  lemma RecAfterDelete(s: State, s': State, k: Key, vip: Vip, r: Rid)
    requires WatchDelete(s, s', k, vip) && KeyOk(s, k)
    requires r in s.recs && RecOk(s, r) && CurrentOk(s, r) && KeyOk(s, s.recs[r].key)
    ensures RecOk(s', r) && CurrentOk(s', r)
  {
  }

  lemma DeleteKeepsInv(s: State, s': State, k: Key, vip: Vip)
    requires Inv(s) && WatchDelete(s, s', k, vip)
    ensures Inv(s')
  {
    assert KeyOk(s, k);
    forall j ensures KeyOk(s', j) { KeyAfterDelete(s, s', k, vip, j); }
    forall r | r in s'.recs ensures RecOk(s', r) && CurrentOk(s', r) { RecAfterDelete(s, s', k, vip, r); }
  }

  lemma FinishKeepsInv(s: State, s': State)
    requires Inv(s) && (FinishUpdate(s, s') || FinishDelete(s, s'))
    ensures Inv(s')
  {
    var k := s.recs[s.watcher.r].key;
    assert KeyOk(s, k);
    forall j ensures KeyOk(s', j) { assert KeyOk(s, j); }
    forall r | r in s'.recs ensures RecOk(s', r) && CurrentOk(s', r) {
      assert RecOk(s, r) && CurrentOk(s, r);
    }
  }

  /** At most one reconciler per key is alive. */
  lemma AliveIsUnique(s: State, r: Rid, q: Rid)
    requires Inv(s) && r in s.recs && q in s.recs
    requires s.recs[r].key == s.recs[q].key && s.recs[r].life != Dead && s.recs[q].life != Dead
    ensures r == q
  {
    assert RecOk(s, r) && RecOk(s, q) && KeyOk(s, s.recs[r].key);
  }

  lemma LogAfterEffect(s: State, e: Effect)
    requires Inv(s) && e.r in s.recs && s.recs[e.r].key == e.key && s.recs[e.r].life != Dead
    ensures LogSorted(s.log + [e]) && LogBelow(s.log + [e], s.recs, s.next)
  {
    assert RecOk(s, e.r);
    forall q | q in s.recs && s.recs[q].life != Dead && s.recs[q].key == e.key ensures e.r <= q {
      AliveIsUnique(s, e.r, q);
    }
    forall i | 0 <= i < |s.log| && s.log[i].key == e.key ensures s.log[i].r <= e.r {
      assert s.log[i] in s.log;
    }
  }

  lemma LoggingKeepsInv(s: State, e: Effect)
    requires Inv(s) && e.r in s.recs && s.recs[e.r].key == e.key && s.recs[e.r].life != Dead
    ensures Inv(s.(log := s.log + [e]))
  {
    LogAfterEffect(s, e);
    var s' := s.(log := s.log + [e]);
    forall k ensures KeyOk(s', k) { assert KeyOk(s, k); }
    forall q | q in s'.recs ensures RecOk(s', q) && CurrentOk(s', q) { assert RecOk(s, q) && CurrentOk(s, q); }
  }

  lemma AgingKeepsInv(s: State, s': State, r: Rid, life: Life)
    requires Inv(s) && r in s.recs && s.recs[r].life in {DeleteQueued, Deleting} && life in {Deleting, Exiting}
    requires s' == s.(recs := s.recs[r := s.recs[r].(life := life)])
    ensures Inv(s')
  {
    assert RecOk(s, r);
    forall k ensures KeyOk(s', k) { assert KeyOk(s, k); }
    forall q | q in s'.recs ensures RecOk(s', q) && CurrentOk(s', q) { assert RecOk(s, q) && CurrentOk(s, q); }
  }

  /** A removal that is logged, and the change of life that follows it. */
  lemma RemovalKeepsInv(s: State, s': State, r: Rid, life: Life)
    requires Inv(s) && r in s.recs && s.recs[r].life in {DeleteQueued, Deleting} && life in {Deleting, Exiting}
    requires s' == s.(recs := s.recs[r := s.recs[r].(life := life)], log := s.log + [Removed(r, s.recs[r].key)])
    ensures Inv(s')
  {
    var logged := s.(log := s.log + [Removed(r, s.recs[r].key)]);
    LoggingKeepsInv(s, Removed(r, s.recs[r].key));
    AgingKeepsInv(logged, s', r, life);
  }

  lemma EffectKeepsInv(s: State, s': State, r: Rid)
    requires Inv(s) && (Reconcile(s, s', r) || DeleteAttempt(s, s', r))
    ensures Inv(s')
  {
    if Reconcile(s, s', r) {
      LoggingKeepsInv(s, Applied(r, s.recs[r].key));
    } else if s'.log == s.log {
      AgingKeepsInv(s, s', r, Deleting);
    } else {
      RemovalKeepsInv(s, s', r, s'.recs[r].life);
    }
  }

  lemma HandoffKeepsInv(s: State, s': State, r: Rid)
    requires Inv(s) && Handoff(s, s', r)
    ensures Inv(s')
  {
    assert KeyOk(s, s.recs[r].key);
    forall j ensures KeyOk(s', j) { assert KeyOk(s, j); }
    forall q | q in s'.recs ensures RecOk(s', q) && CurrentOk(s', q) { assert RecOk(s, q) && CurrentOk(s, q); }
  }

  lemma RecAfterStopped(s: State, s': State, r: Rid, q: Rid)
    requires Stopped(s, s', r) && s.next !in s.recs && KeyOk(s, s.recs[r].key)
    requires q in s.recs && RecOk(s, q) && CurrentOk(s, q) && KeyOk(s, s.recs[q].key)
    ensures RecOk(s', q) && CurrentOk(s', q)
  {
  }

  lemma KeyAfterStopped(s: State, s': State, r: Rid, j: Key)
    requires Stopped(s, s', r) && s.next !in s.recs && RecOk(s, r) && KeyOk(s, s.recs[r].key) && KeyOk(s, j)
    ensures KeyOk(s', j)
  {
  }

  lemma StoppedKeepsInv(s: State, s': State, r: Rid)
    requires Inv(s) && Stopped(s, s', r)
    ensures Inv(s')
  {
    var k := s.recs[r].key;
    NextIsNew(s);
    assert KeyOk(s, k) && RecOk(s, r);
    forall j ensures KeyOk(s', j) {
      assert KeyOk(s, j);
      KeyAfterStopped(s, s', r, j);
    }
    forall q | q in s'.recs ensures RecOk(s', q) && CurrentOk(s', q) {
      if q in s.recs {
        assert RecOk(s, q) && CurrentOk(s, q) && KeyOk(s, s.recs[q].key);
        RecAfterStopped(s, s', r, q);
      }
    }
    var dead := s.recs[r := s.recs[r].(life := Dead)];
    assert LogBelow(s.log, dead, s.next);
    LogBelowAfterBirth(s.log, dead, s.next, Reconciler(k, None, Working));
  }

  lemma {:induction false} RunKeepsInv(b: seq<State>, i: nat)
    requires Run(b) && i < |b|
    ensures Inv(b[i])
  {
    if i > 0 {
      RunKeepsInv(b, i - 1);
      var s, s' := b[i - 1], b[i];
      assert Next(b[i - 1], b[i - 1 + 1]);
      if k, vip :| WatchUpdate(s, s', k, vip) {
        UpdateKeepsInv(s, s', k, vip);
      } else if k, vip :| WatchDelete(s, s', k, vip) {
        DeleteKeepsInv(s, s', k, vip);
      } else if FinishUpdate(s, s') || FinishDelete(s, s') {
        FinishKeepsInv(s, s');
      } else {
        var r :| RunStep(s, s', r);
        if Stopped(s, s', r) {
          StoppedKeepsInv(s, s', r);
        } else if Handoff(s, s', r) {
          HandoffKeepsInv(s, s', r);
        } else {
          EffectKeepsInv(s, s', r);
        }
      }
    }
  }

  // --- what the watcher's reports ask for ---

  /** The object of a key that exists by the reports: the last one seen, unless that object went away. */
  function Wanted(events: seq<Watched>, k: Key): Option<Vip> {
    if events == [] then None
    else
      var before := Wanted(events[..|events| - 1], k);
      match events[|events| - 1]
      case Seen(j, vip) => if j == k then Some(vip) else before
      case Gone(j, uid, _) => if j == k && before.Some? && before.value.uid == uid then None else before
  }

  /**
   The wanted object of a key was struck by the deletion of another object of that name, which came while
   the key was in service; neither an update nor its own deletion came since.
   */
  predicate Struck(events: seq<Watched>, k: Key) {
    && events != []
    && var before := events[..|events| - 1];
       match events[|events| - 1]
       case Seen(j, _) => j != k && Struck(before, k)
       case Gone(j, uid, served) =>
         var wanted := Wanted(before, k);
         if j == k && wanted.Some? then uid != wanted.value.uid && (served || Struck(before, k)) else Struck(before, k)
  }

  function Lookup(m: map<Key, Vip>, k: Key): Option<Vip> { if k in m then Some(m[k]) else None }

  /** What the manager works towards is the wanted object, except where that was struck. */
  ghost predicate FollowsReports(desired: map<Key, Vip>, events: seq<Watched>, k: Key) {
    Lookup(desired, k) == if Struck(events, k) then None else Wanted(events, k)
  }

  lemma SeenFollows(desired: map<Key, Vip>, events: seq<Watched>, j: Key, vip: Vip, k: Key)
    requires FollowsReports(desired, events, k)
    ensures FollowsReports(desired[j := vip], events + [Seen(j, vip)], k)
  {
    assert (events + [Seen(j, vip)])[..|events|] == events;
  }

  /** The manager drops an object that is in service, and one that is not only by its own deletion. */
  lemma GoneFollows(desired: map<Key, Vip>, events: seq<Watched>, j: Key, uid: string, served: bool, k: Key)
    requires FollowsReports(desired, events, k) && (served && k == j ==> k in desired)
    ensures var dropped := served || (j in desired && desired[j].uid == uid);
            FollowsReports(if dropped then desired - {j} else desired, events + [Gone(j, uid, served)], k)
  {
    assert (events + [Gone(j, uid, served)])[..|events|] == events;
  }

  lemma DeletedIsGone(s: State, s': State, j: Key, vip: Vip)
    requires WatchDelete(s, s', j, vip) && KeyOk(s, j)
    ensures var served := j in s.vips;
            var dropped := served || (j in s.desired && s.desired[j].uid == vip.uid);
            && (served ==> j in s.desired) && s'.events == s.events + [Gone(j, vip.uid, served)]
            && s'.desired == if dropped then s.desired - {j} else s.desired
  {
  }

  lemma FinishReportsNothing(s: State, s': State)
    requires FinishUpdate(s, s') || FinishDelete(s, s')
    ensures s'.events == s.events && s'.desired == s.desired
  {
  }

  lemma StoppedReportsNothing(s: State, s': State, r: Rid)
    requires Stopped(s, s', r)
    ensures s'.events == s.events && s'.desired == s.desired
  {
  }

  lemma RunStepReportsNothing(s: State, s': State, r: Rid)
    requires RunStep(s, s', r)
    ensures s'.events == s.events && s'.desired == s.desired
  {
    if Stopped(s, s', r) {
      StoppedReportsNothing(s, s', r);
    }
  }

  lemma DeleteFollows(s: State, s': State, j: Key, vip: Vip, k: Key)
    requires WatchDelete(s, s', j, vip) && KeyOk(s, j) && FollowsReports(s.desired, s.events, k)
    ensures FollowsReports(s'.desired, s'.events, k)
  {
    DeletedIsGone(s, s', j, vip);
    GoneFollows(s.desired, s.events, j, vip.uid, j in s.vips, k);
  }

  lemma UpdateIsSeen(s: State, s': State, j: Key, vip: Vip)
    requires WatchUpdate(s, s', j, vip)
    ensures s'.desired == s.desired[j := vip] && s'.events == s.events + [Seen(j, vip)]
  {
  }

  lemma NextFollows(s: State, s': State, k: Key)
    requires Next(s, s') && Inv(s) && FollowsReports(s.desired, s.events, k)
    ensures FollowsReports(s'.desired, s'.events, k)
  {
    if j, vip :| WatchUpdate(s, s', j, vip) {
      UpdateIsSeen(s, s', j, vip);
      SeenFollows(s.desired, s.events, j, vip, k);
    } else if j, vip :| WatchDelete(s, s', j, vip) {
      assert KeyOk(s, j);
      DeleteFollows(s, s', j, vip, k);
    } else if FinishUpdate(s, s') || FinishDelete(s, s') {
      FinishReportsNothing(s, s');
    } else {
      var r :| RunStep(s, s', r);
      RunStepReportsNothing(s, s', r);
    }
  }

  lemma {:induction false} RunFollowsReports(b: seq<State>, i: nat, k: Key)
    requires Run(b) && i < |b|
    ensures FollowsReports(b[i].desired, b[i].events, k)
  {
    if i > 0 {
      RunFollowsReports(b, i - 1, k);
      RunKeepsInv(b, i - 1);
      assert Next(b[i - 1], b[i - 1 + 1]);
      NextFollows(b[i - 1], b[i], k);
    }
  }

  /** Every deletion in service names the object that is wanted. */
  ghost predicate NamesWanted(events: seq<Watched>, k: Key) {
    forall i :: 0 <= i < |events| && events[i].Gone? && events[i].key == k && events[i].served ==>
      var wanted := Wanted(events[..i], k);
      wanted.Some? ==> wanted.value.uid == events[i].uid
  }

  lemma {:induction false} NothingStruck(events: seq<Watched>, k: Key)
    requires NamesWanted(events, k)
    ensures !Struck(events, k)
    decreases |events|
  {
    if events != [] {
      var n := |events| - 1;
      forall i | 0 <= i < n && events[..n][i].Gone? && events[..n][i].key == k && events[..n][i].served
        ensures var wanted := Wanted(events[..n][..i], k); wanted.Some? ==> wanted.value.uid == events[..n][i].uid
      {
        assert events[..n][..i] == events[..i] && events[..n][i] == events[i];
      }
      NothingStruck(events[..n], k);
    }
  }

  /**
   In every run a key is in service or queued for recreation exactly when an object of that name exists by
   the watcher's reports, unless it was struck. Without a deletion that names another object than the
   wanted one while the key is in service, nothing is ever struck.
   */
  lemma ManagedIffWanted(b: seq<State>, i: nat, k: Key)
    requires Run(b) && i < |b|
    ensures k in b[i].vips || k in b[i].pending <==> Wanted(b[i].events, k).Some? && !Struck(b[i].events, k)
    ensures k in b[i].pending ==> Wanted(b[i].events, k) == Some(b[i].pending[k])
    ensures NamesWanted(b[i].events, k) ==> !Struck(b[i].events, k)
  {
    RunKeepsInv(b, i);
    RunFollowsReports(b, i, k);
    assert KeyOk(b[i], k);
    if NamesWanted(b[i].events, k) {
      NothingStruck(b[i].events, k);
    }
  }

  // --- theorems over whole runs ---

  /**
   A key never has two living reconcilers, is never both served and being deleted, and is queued for
   recreation only while being deleted.
   */
  lemma OneReconcilerPerKey(b: seq<State>, i: nat, r: Rid, q: Rid, k: Key)
    requires Run(b) && i < |b|
    ensures (r in b[i].recs && q in b[i].recs && b[i].recs[r].key == b[i].recs[q].key
             && b[i].recs[r].life != Dead && b[i].recs[q].life != Dead) ==> r == q
    ensures !(k in b[i].vips && k in b[i].deleting)
    ensures k in b[i].pending ==> k in b[i].deleting
  {
    RunKeepsInv(b, i);
    assert KeyOk(b[i], k);
    if r in b[i].recs && q in b[i].recs && b[i].recs[r].key == b[i].recs[q].key
       && b[i].recs[r].life != Dead && b[i].recs[q].life != Dead {
      AliveIsUnique(b[i], r, q);
    }
  }

  /** Incarnations of one key touch the dataplane strictly one after the other: no removal by an old one follows an apply by a newer one. */
  lemma IncarnationsDoNotInterleave(b: seq<State>, i: nat, m: nat, n: nat)
    requires Run(b) && i < |b| && m < n < |b[i].log| && b[i].log[m].key == b[i].log[n].key
    ensures b[i].log[m].r <= b[i].log[n].r
  {
    RunKeepsInv(b, i);
  }

  /** `r` has been removed from the dataplane. */
  ghost predicate RemovedIn(log: seq<Effect>, r: Rid) { exists e :: e in log && e.Removed? && e.r == r }

  /** Nothing that `r` does follows a removal by it, but for further removals. */
  ghost predicate RemovalsLast(log: seq<Effect>) {
    forall i, j :: 0 <= i < j < |log| && log[i].Removed? && log[j].r == log[i].r ==> log[j].Removed?
  }

  /** A reconciler removes only once it has taken the delete event, and its loop ends only after a removal. */
  ghost predicate LivesMatch(log: seq<Effect>, recs: map<Rid, Reconciler>, next: Rid) {
    && (forall e :: e in log ==> e.r < next)
    && forall r :: r in recs ==>
         && r < next
         && (RemovedIn(log, r) ==> recs[r].life in {Deleting, Exiting, Dead})
         && (recs[r].life in {Exiting, Dead} ==> RemovedIn(log, r))
  }

  lemma RemovedAfter(log: seq<Effect>, e: Effect, r: Rid)
    ensures RemovedIn(log + [e], r) <==> RemovedIn(log, r) || (e.Removed? && e.r == r)
  {
    if RemovedIn(log, r) {
      var x :| x in log && x.Removed? && x.r == r;
      assert x in log + [e];
    }
    assert e in log + [e];
  }

  lemma ReconcileKeepsLives(s: State, s': State, r: Rid)
    requires Reconcile(s, s', r) && RemovalsLast(s.log) && LivesMatch(s.log, s.recs, s.next)
    ensures RemovalsLast(s'.log) && LivesMatch(s'.log, s'.recs, s'.next)
  {
    forall q ensures RemovedIn(s'.log, q) == RemovedIn(s.log, q) {
      RemovedAfter(s.log, Applied(r, s.recs[r].key), q);
    }
    forall i | 0 <= i < |s.log| && s.log[i].Removed? ensures s.log[i].r != r {
      assert s.log[i] in s.log;
      assert s.log[i].r == r ==> RemovedIn(s.log, r);
    }
  }

  lemma AttemptKeepsLives(s: State, s': State, r: Rid)
    requires DeleteAttempt(s, s', r) && RemovalsLast(s.log) && LivesMatch(s.log, s.recs, s.next)
    ensures RemovalsLast(s'.log) && LivesMatch(s'.log, s'.recs, s'.next)
  {
    forall q ensures RemovedIn(s'.log, q) <==> RemovedIn(s.log, q) || (s'.log != s.log && q == r) {
      RemovedAfter(s.log, Removed(r, s.recs[r].key), q);
    }
  }

  /** A new reconciler has had no effect yet. */
  lemma BirthKeepsLives(log: seq<Effect>, recs: map<Rid, Reconciler>, next: Rid, k: Key)
    requires LivesMatch(log, recs, next) && next !in recs
    ensures LivesMatch(log, recs[next := Reconciler(k, None, Working)], next + 1)
  {
    assert !RemovedIn(log, next);
  }

  lemma StoppedKeepsLives(s: State, s': State, r: Rid)
    requires Stopped(s, s', r) && s.next !in s.recs && LivesMatch(s.log, s.recs, s.next)
    ensures s'.log == s.log && LivesMatch(s'.log, s'.recs, s'.next)
  {
    var dead := s.recs[r := s.recs[r].(life := Dead)];
    assert LivesMatch(s.log, dead, s.next);
    BirthKeepsLives(s.log, dead, s.next, s.recs[r].key);
  }

  lemma UpdateKeepsLives(s: State, s': State, k: Key, vip: Vip)
    requires WatchUpdate(s, s', k, vip) && s.next !in s.recs && LivesMatch(s.log, s.recs, s.next)
    ensures s'.log == s.log && LivesMatch(s'.log, s'.recs, s'.next)
  {
    BirthKeepsLives(s.log, s.recs, s.next, k);
  }

  /** Only lives matter, and waiting for the delete event is as good as working. */
  lemma SameLives(log: seq<Effect>, recs: map<Rid, Reconciler>, recs': map<Rid, Reconciler>, next: Rid)
    requires LivesMatch(log, recs, next) && recs'.Keys == recs.Keys
    requires forall r :: r in recs ==> recs'[r].life == recs[r].life || (recs[r].life == Working && recs'[r].life == DeleteQueued)
    ensures LivesMatch(log, recs', next)
  {
  }

  lemma HandoffKeepsLives(s: State, s': State, r: Rid)
    requires Handoff(s, s', r) && LivesMatch(s.log, s.recs, s.next)
    ensures s'.log == s.log && LivesMatch(s'.log, s'.recs, s'.next)
  {
    SameLives(s.log, s.recs, s'.recs, s.next);
  }

  lemma FinishKeepsLives(s: State, s': State)
    requires WatcherOk(s) && (FinishUpdate(s, s') || FinishDelete(s, s')) && LivesMatch(s.log, s.recs, s.next)
    ensures s'.log == s.log && LivesMatch(s'.log, s'.recs, s'.next)
  {
    SameLives(s.log, s.recs, s'.recs, s.next);
  }

  lemma DeleteKeepsLives(s: State, s': State, k: Key, vip: Vip)
    requires WatchDelete(s, s', k, vip)
    ensures s'.log == s.log && s'.recs == s.recs && s'.next == s.next
  {
  }

  ghost predicate Lives(s: State) { RemovalsLast(s.log) && LivesMatch(s.log, s.recs, s.next) }

  lemma RunStepKeepsLives(s: State, s': State, r: Rid)
    requires s.next !in s.recs && RunStep(s, s', r) && Lives(s)
    ensures Lives(s')
  {
    if Reconcile(s, s', r) {
      ReconcileKeepsLives(s, s', r);
    } else if DeleteAttempt(s, s', r) {
      AttemptKeepsLives(s, s', r);
    } else if Stopped(s, s', r) {
      StoppedKeepsLives(s, s', r);
    } else {
      HandoffKeepsLives(s, s', r);
    }
  }

  lemma NextKeepsLives(s: State, s': State)
    requires s.next !in s.recs && WatcherOk(s) && Next(s, s') && Lives(s)
    ensures Lives(s')
  {
    if k, vip :| WatchUpdate(s, s', k, vip) {
      UpdateKeepsLives(s, s', k, vip);
    } else if k, vip :| WatchDelete(s, s', k, vip) {
      DeleteKeepsLives(s, s', k, vip);
    } else if FinishUpdate(s, s') || FinishDelete(s, s') {
      FinishKeepsLives(s, s');
    } else {
      var r :| RunStep(s, s', r);
      RunStepKeepsLives(s, s', r);
    }
  }

  lemma {:induction false} RunKeepsLives(b: seq<State>, i: nat)
    requires Run(b) && i < |b|
    ensures Lives(b[i])
  {
    if i > 0 {
      RunKeepsLives(b, i - 1);
      RunKeepsInv(b, i - 1);
      NextIsNew(b[i - 1]);
      assert Next(b[i - 1], b[i - 1 + 1]);
      NextKeepsLives(b[i - 1], b[i]);
    }
  }

  /**
   A reconciler stops only after it has removed its VIP from the dataplane, and once it has asked for that
   it never applies again.
   */
  lemma StopsOnlyRemoved(b: seq<State>, i: nat, r: Rid, m: nat, n: nat)
    requires Run(b) && i < |b|
    ensures r in b[i].recs && b[i].recs[r].life in {Exiting, Dead} ==> RemovedIn(b[i].log, r)
    ensures m < n < |b[i].log| && b[i].log[m].Removed? && b[i].log[n].r == b[i].log[m].r ==> b[i].log[n].Removed?
  {
    RunKeepsLives(b, i);
  }

  /** After a successful cleanup the key is recreated exactly when it is still wanted, with the object that is wanted. */
  lemma RecreateTakesLatest(b: seq<State>, i: nat, r: Rid)
    requires Run(b) && i + 1 < |b| && Stopped(b[i], b[i + 1], r)
    ensures var k := b[i].recs[r].key;
            var wanted := Wanted(b[i].events, k);
            && (k in b[i + 1].vips <==> wanted.Some? && !Struck(b[i].events, k))
            && (k in b[i + 1].vips ==> b[i + 1].vips[k] == b[i].next
                                       && b[i + 1].handoffs == b[i].handoffs[b[i].next := wanted.value])
  {
    RunKeepsInv(b, i);
    RunFollowsReports(b, i, b[i].recs[r].key);
    assert KeyOk(b[i], b[i].recs[r].key) && RecOk(b[i], r);
  }

  /** The watcher is not in the middle of an update for `r`. */
  predicate Settled(s: State, r: Rid) { !(s.watcher.Updating? && s.watcher.r == r) }

  /**
   The first update of a recreated reconciler runs after the mutex is released. It leaves the newest
   object in place if and only if the watcher has not delivered a newer one in between, that is, if
   and only if the reconciler has no current object yet.
   */
  lemma HandoffIsCurrentIff(b: seq<State>, i: nat, r: Rid)
    requires Run(b) && i + 1 < |b| && Handoff(b[i], b[i + 1], r) && Settled(b[i], r)
    requires b[i].recs[r].key in b[i].vips && b[i].vips[b[i].recs[r].key] == r
    ensures Wanted(b[i + 1].events, b[i].recs[r].key).Some?
    ensures b[i + 1].recs[r].current == Wanted(b[i + 1].events, b[i].recs[r].key) <==> b[i].recs[r].current == None
  {
    RunKeepsInv(b, i);
    RunFollowsReports(b, i, b[i].recs[r].key);
    assert KeyOk(b[i], b[i].recs[r].key) && CurrentOk(b[i], r);
  }

  /** A settled reconciler works on the newest object, except one that was overtaken by its own late first update. */
  lemma SettledIsCurrentUnlessOvertaken(b: seq<State>, i: nat, k: Key)
    requires Run(b) && i < |b| && k in b[i].vips && Settled(b[i], b[i].vips[k]) && b[i].vips[k] !in b[i].handoffs
    ensures Wanted(b[i].events, k).Some? && b[i].vips[k] in b[i].recs
    ensures b[i].recs[b[i].vips[k]].current == Wanted(b[i].events, k) <==> b[i].vips[k] !in b[i].overtaken
  {
    RunKeepsInv(b, i);
    RunFollowsReports(b, i, k);
    assert KeyOk(b[i], k);
    assert CurrentOk(b[i], b[i].vips[k]);
  }

  const VIP_KEY := "ns/vip"

  /** An object "A" was deleted, its cleanup has just succeeded, and an object "B" of the same name is queued. */
  const CLEANED_UP := State(
    map[], map[VIP_KEY := 0], map[VIP_KEY := Vip("B", 2)], map[0 := Reconciler(VIP_KEY, Some(Vip("A", 1)), Exiting)], 1,
    Free, map[], [Removed(0, VIP_KEY)], [Seen(VIP_KEY, Vip("A", 1)), Gone(VIP_KEY, "A", true), Seen(VIP_KEY, Vip("B", 2))],
    map[VIP_KEY := Vip("B", 2)], 2, {})

  lemma CleanedUpIsReachable() returns (b: seq<State>)
    ensures Run(b) && b[|b| - 1] == CLEANED_UP
  {
    var k, v1, v2 := VIP_KEY, Vip("A", 1), Vip("B", 2);
    var s0 := State(map[], map[], map[], map[], 0, Free, map[], [], [], map[], 0, {});
    var s1 := s0.(events := [Seen(k, v1)], desired := map[k := v1], revision := 1, vips := map[k := 0],
                  recs := map[0 := Reconciler(k, None, Working)], next := 1, watcher := Updating(0, v1));
    var s2 := s1.(recs := map[0 := Reconciler(k, Some(v1), Working)], watcher := Free);
    var s3 := s2.(vips := map[], deleting := map[k := 0], watcher := Marking(0), desired := map[],
                  events := [Seen(k, v1), Gone(k, "A", true)]);
    var s4 := s3.(recs := map[0 := Reconciler(k, Some(v1), DeleteQueued)], watcher := Free);
    var s5 := s4.(desired := map[k := v2], revision := 2, pending := map[k := v2], events := CLEANED_UP.events);
    assert WatchUpdate(s0, s1, k, v1);
    assert FinishUpdate(s1, s2);
    assert WatchDelete(s2, s3, k, v1) by { assert s2.vips - {k} == map[] && s2.desired - {k} == map[]; }
    assert FinishDelete(s3, s4);
    assert WatchUpdate(s4, s5, k, v2);
    assert DeleteAttempt(s5, CLEANED_UP, 0);
    assert RunStep(s5, CLEANED_UP, 0);
    b := [s0, s1, s2, s3, s4, s5, CLEANED_UP];
  }

  lemma {:induction false} RunExtends(b: seq<State>, s: State)
    requires Run(b) && Next(b[|b| - 1], s)
    ensures Run(b + [s])
  {
    var c := b + [s];
    forall i | 0 <= i < |c| - 1 ensures Next(c[i], c[i + 1]) {
      assert i < |b| - 1 ==> Next(b[i], b[i + 1]);
    }
  }

  /** The same after the reconciler of "B" was created; its first update has not run yet. */
  const RECREATED := CLEANED_UP.(deleting := map[], pending := map[], vips := map[VIP_KEY := 1], next := 2,
    handoffs := map[1 := Vip("B", 2)],
    recs := map[0 := Reconciler(VIP_KEY, Some(Vip("A", 1)), Dead), 1 := Reconciler(VIP_KEY, None, Working)])

  lemma RecreatedIsReachable() returns (b: seq<State>)
    ensures Run(b) && b[|b| - 1] == RECREATED
  {
    b := CleanedUpIsReachable();
    assert Stopped(CLEANED_UP, RECREATED, 0) by {
      assert CLEANED_UP.deleting - {VIP_KEY} == map[] && CLEANED_UP.pending - {VIP_KEY} == map[];
    }
    assert RunStep(CLEANED_UP, RECREATED, 0);
    RunExtends(b, RECREATED);
    b := b + [RECREATED];
  }

  /**
   Being overtaken happens: the recreated reconciler gets revision 3 first, then its late first update
   brings revision 2 back for good.
   */
  lemma OvertakingHappens() returns (b: seq<State>)
    ensures Run(b)
    ensures var s := b[|b| - 1];
            && s.watcher == Free && s.handoffs == map[] && VIP_KEY in s.vips && s.vips[VIP_KEY] in s.recs
            && Wanted(s.events, VIP_KEY) == Some(Vip("B", 3))
            && s.recs[s.vips[VIP_KEY]].current == Some(Vip("B", 2))
  {
    var k, v2, v3 := VIP_KEY, Vip("B", 2), Vip("B", 3);
    b := RecreatedIsReachable();
    var s7 := RECREATED;
    var s8 := s7.(desired := map[k := v3], revision := 3, watcher := Updating(1, v3), events := s7.events + [Seen(k, v3)]);
    var s9 := s8.(recs := s7.recs[1 := Reconciler(k, Some(v3), Working)], watcher := Free);
    var s10 := s9.(recs := s7.recs[1 := Reconciler(k, Some(v2), Working)], handoffs := map[], overtaken := {1});
    assert WatchUpdate(s7, s8, k, v3);
    RunExtends(b, s8);
    assert FinishUpdate(s8, s9);
    RunExtends(b + [s8], s9);
    assert Handoff(s9, s10, 1) by { assert s9.handoffs - {1} == map[]; }
    assert RunStep(s9, s10, 1);
    RunExtends(b + [s8] + [s9], s10);
    b := b + [s8] + [s9] + [s10];
  }

  /**
   A late deletion of the previous object strikes the one in service: its reconciler starts to remove it
   and nothing is queued, although the newer object exists.
   */
  lemma ForeignDeletionStrikes() returns (b: seq<State>)
    ensures Run(b)
    ensures var s := b[|b| - 1];
            && Wanted(s.events, VIP_KEY) == Some(Vip("B", 2)) && VIP_KEY !in s.vips && VIP_KEY !in s.pending
            && VIP_KEY in s.deleting && s.deleting[VIP_KEY] in s.recs && s.recs[s.deleting[VIP_KEY]].life == DeleteQueued
  {
    var k, v := VIP_KEY, Vip("B", 2);
    var s0 := State(map[], map[], map[], map[], 0, Free, map[], [], [], map[], 0, {});
    var s1 := s0.(events := [Seen(k, v)], desired := map[k := v], revision := 2, vips := map[k := 0],
                  recs := map[0 := Reconciler(k, None, Working)], next := 1, watcher := Updating(0, v));
    var s2 := s1.(recs := map[0 := Reconciler(k, Some(v), Working)], watcher := Free);
    var s3 := s2.(vips := map[], deleting := map[k := 0], watcher := Marking(0), desired := map[],
                  events := [Seen(k, v), Gone(k, "A", true)]);
    var s4 := s3.(recs := map[0 := Reconciler(k, Some(v), DeleteQueued)], watcher := Free);
    assert WatchUpdate(s0, s1, k, v);
    assert FinishUpdate(s1, s2);
    assert WatchDelete(s2, s3, k, Vip("A", 1)) by { assert s2.vips - {k} == map[] && s2.desired - {k} == map[]; }
    assert FinishDelete(s3, s4);
    assert s4.events[..1] == [Seen(k, v)] && [Seen(k, v)][..0] == [];
    b := [s0, s1, s2, s3, s4];
  }
}
