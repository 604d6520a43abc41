/**
 The in-process lock in front of each Lease: a table of reference-counted one-slot channels.

 A Lease already held by the own identity counts as available, so inside one process only this
 table keeps two goroutines apart. Each step below is one critical section or one channel operation.
 */
module LocalLocks {

  type Key = string
  type Task = nat

  /** `slot` is true while the channel holds its one token. `LockId` stands for the pointer. */
  type LockId = nat
  datatype Lock = Lock(slot: bool, refs: int)

  datatype TaskState =
    | Arriving(key: Key)
    | Waiting(key: Key, lock: LockId)
    | Running(key: Key, lock: LockId)
    | Leaving(key: Key, lock: LockId)
    | Gone(key: Key)

  datatype State = State(table: map<Key, LockId>, heap: map<LockId, Lock>, tasks: map<Task, TaskState>)

  predicate Uses(p: TaskState, l: LockId) {
    Engaged(p) && p.lock == l
  }

  ghost function Users(tasks: map<Task, TaskState>, l: LockId): set<Task> {
    set t | t in tasks && Uses(tasks[t], l)
  }

  // --- steps ---

  /** acquireLocal, under localMu: find or create the lock and take a reference. */
  ghost predicate Enter(s: State, s': State, t: Task) {
    && t in s.tasks && s.tasks[t].Arriving?
    && var k := s.tasks[t].key;
       if k in s.table then
         var l := s.table[k];
         && l in s.heap
         && s' == s.(heap := s.heap[l := s.heap[l].(refs := s.heap[l].refs + 1)], tasks := s.tasks[t := Waiting(k, l)])
       else
         exists l :: l !in s.heap && s' == Created(s, t, k, l)
  }

  ghost function Created(s: State, t: Task, k: Key, l: LockId): State {
    State(s.table[k := l], s.heap[l := Lock(false, 1)], s.tasks[t := Waiting(k, l)])
  }

  /** The send on the lock's channel succeeds. */
  ghost predicate Take(s: State, s': State, t: Task) {
    && t in s.tasks && s.tasks[t].Waiting? && s.tasks[t].lock in s.heap
    && var Waiting(k, l) := s.tasks[t];
       && !s.heap[l].slot
       && s' == s.(heap := s.heap[l := s.heap[l].(slot := true)], tasks := s.tasks[t := Running(k, l)])
  }

  /** The protected function has returned: receive from the channel. */
  ghost predicate Finish(s: State, s': State, t: Task) {
    && t in s.tasks && s.tasks[t].Running? && s.tasks[t].lock in s.heap
    && var Running(k, l) := s.tasks[t];
       s' == s.(heap := s.heap[l := s.heap[l].(slot := false)], tasks := s.tasks[t := Leaving(k, l)])
  }

  /** releaseLocalRef, after Finish or when the context ends while waiting. */
  ghost predicate Drop(s: State, s': State, t: Task) {
    && t in s.tasks && (s.tasks[t].Leaving? || s.tasks[t].Waiting?) && s.tasks[t].lock in s.heap
    && var k, l := s.tasks[t].key, s.tasks[t].lock;
       var left := s.heap[l].refs - 1;
       s' == State(if left == 0 then s.table - {k} else s.table,
                   s.heap[l := s.heap[l].(refs := left)],
                   s.tasks[t := Gone(k)])
  }

  ghost predicate Next(s: State, s': State) {
    exists t :: Enter(s, s', t) || Take(s, s', t) || Finish(s, s', t) || Drop(s, s', t)
  }

  ghost predicate Init(s: State) {
    s.table == map[] && s.heap == map[] && forall t :: t in s.tasks ==> s.tasks[t].Arriving?
  }

  ghost predicate Run(b: seq<State>) {
    && |b| > 0 && Init(b[0])
    && forall i :: 0 <= i < |b| - 1 ==> Next(b[i], b[i + 1])
  }

  // --- invariant ---

  predicate Engaged(p: TaskState) { p.Waiting? || p.Running? || p.Leaving? }

  ghost predicate TaskOk(table: map<Key, LockId>, heap: map<LockId, Lock>, p: TaskState) {
    Engaged(p) ==>
      && p.key in table && table[p.key] == p.lock
      && p.lock in heap && (p.Running? ==> heap[p.lock].slot)
  }

  ghost predicate TableOk(table: map<Key, LockId>, heap: map<LockId, Lock>) {
    && (forall k :: k in table ==> table[k] in heap && heap[table[k]].refs > 0)
    && (forall j, k :: j in table && k in table && table[j] == table[k] ==> j == k)
  }

  ghost predicate OneToken(tasks: map<Task, TaskState>) {
    forall t, u :: t in tasks && u in tasks && tasks[t].Running? && tasks[u].Running? && tasks[t].lock == tasks[u].lock
                   ==> t == u
  }

  ghost predicate RefsCount(heap: map<LockId, Lock>, tasks: map<Task, TaskState>) {
    forall l :: l in heap ==> heap[l].refs == |Users(tasks, l)|
  }

  ghost predicate Inv(s: State) {
    && TableOk(s.table, s.heap)
    && (forall t :: t in s.tasks ==> TaskOk(s.table, s.heap, s.tasks[t]))
    && OneToken(s.tasks)
    && RefsCount(s.heap, s.tasks)
  }

  function One(b: bool): int { if b then 1 else 0 }

  /** What changing the state of one task does to the number of users of a lock. */
  lemma UsersAfter(tasks: map<Task, TaskState>, t: Task, p: TaskState, l: LockId)
    requires t in tasks
    ensures |Users(tasks[t := p], l)| == |Users(tasks, l)| + One(Uses(p, l)) - One(Uses(tasks[t], l))
  {
    var before, after := Users(tasks, l), Users(tasks[t := p], l);
    assert after - {t} == before - {t};
    assert after == if Uses(p, l) then (before - {t}) + {t} else before - {t};
    assert before == if Uses(tasks[t], l) then (before - {t}) + {t} else before - {t};
  }

  /** References follow their users when one task changes and its locks are counted accordingly. */
  lemma RefsAfter(heap: map<LockId, Lock>, heap': map<LockId, Lock>, tasks: map<Task, TaskState>, t: Task, p: TaskState)
    requires RefsCount(heap, tasks) && t in tasks && heap'.Keys == heap.Keys
    requires forall l :: l in heap ==> heap'[l].refs == heap[l].refs + One(Uses(p, l)) - One(Uses(tasks[t], l))
    ensures RefsCount(heap', tasks[t := p])
  {
    forall l | l in heap' ensures heap'[l].refs == |Users(tasks[t := p], l)| {
      UsersAfter(tasks, t, p, l);
    }
  }

  lemma RefsAfterCreate(s: State, t: Task, k: Key, l: LockId)
    requires Inv(s) && t in s.tasks && s.tasks[t] == Arriving(k) && l !in s.heap
    ensures RefsCount(Created(s, t, k, l).heap, Created(s, t, k, l).tasks)
  {
    forall u | u in s.tasks ensures !Uses(s.tasks[u], l) {
      assert TaskOk(s.table, s.heap, s.tasks[u]);
    }
    assert Users(s.tasks, l) == {};
    forall m ensures |Users(s.tasks[t := Waiting(k, l)], m)| == |Users(s.tasks, m)| + One(m == l) {
      UsersAfter(s.tasks, t, Waiting(k, l), m);
    }
  }

  lemma CreateKeepsInv(s: State, s': State, t: Task, k: Key, l: LockId)
    requires Inv(s) && t in s.tasks && s.tasks[t] == Arriving(k)
    requires k !in s.table && l !in s.heap && s' == Created(s, t, k, l)
    ensures Inv(s')
  {
    RefsAfterCreate(s, t, k, l);
    forall u | u in s'.tasks ensures TaskOk(s'.table, s'.heap, s'.tasks[u]) {
      assert u != t ==> TaskOk(s.table, s.heap, s.tasks[u]);
    }
  }

  lemma JoinKeepsInv(s: State, s': State, t: Task)
    requires Inv(s) && Enter(s, s', t) && s.tasks[t].key in s.table
    ensures Inv(s')
  {
    RefsAfter(s.heap, s'.heap, s.tasks, t, s'.tasks[t]);
    forall u | u in s'.tasks ensures TaskOk(s'.table, s'.heap, s'.tasks[u]) {
      assert u != t ==> TaskOk(s.table, s.heap, s.tasks[u]);
    }
  }

  lemma EnterKeepsInv(s: State, s': State, t: Task)
    requires Inv(s) && Enter(s, s', t)
    ensures Inv(s')
  {
    var k := s.tasks[t].key;
    if k !in s.table {
      var l :| l !in s.heap && s' == Created(s, t, k, l);
      CreateKeepsInv(s, s', t, k, l);
    } else {
      JoinKeepsInv(s, s', t);
    }
  }

  /** Whoever else is engaged on the key keeps its entry alive. */
  lemma EntryOutlivesDrop(s: State, s': State, t: Task, u: Task)
    requires Inv(s) && Drop(s, s', t) && RefsCount(s'.heap, s'.tasks)
    requires u in s.tasks && u != t && Engaged(s.tasks[u]) && s.tasks[u].key == s.tasks[t].key
    ensures s'.table == s.table
  {
    assert TaskOk(s.table, s.heap, s.tasks[u]) && TaskOk(s.table, s.heap, s.tasks[t]);
    assert u in Users(s'.tasks, s.tasks[t].lock);
  }

  lemma DropKeepsInv(s: State, s': State, t: Task)
    requires Inv(s) && Drop(s, s', t)
    ensures Inv(s')
  {
    assert TaskOk(s.table, s.heap, s.tasks[t]);
    RefsAfter(s.heap, s'.heap, s.tasks, t, s'.tasks[t]);
    forall u | u in s'.tasks ensures TaskOk(s'.table, s'.heap, s'.tasks[u]) {
      if u != t && Engaged(s.tasks[u]) {
        assert TaskOk(s.table, s.heap, s.tasks[u]);
        if s.tasks[u].key == s.tasks[t].key {
          EntryOutlivesDrop(s, s', t, u);
        }
      }
    }
  }

  lemma TokenKeepsTasks(s: State, s': State, t: Task)
    requires Inv(s) && (Take(s, s', t) || Finish(s, s', t))
    ensures OneToken(s'.tasks) && forall u :: u in s'.tasks ==> TaskOk(s'.table, s'.heap, s'.tasks[u])
  {
    assert TaskOk(s.table, s.heap, s.tasks[t]);
    forall u | u in s'.tasks
      ensures TaskOk(s'.table, s'.heap, s'.tasks[u])
      ensures u != t && s'.tasks[u].Running? && s'.tasks[t].Running? ==> s'.tasks[u].lock != s'.tasks[t].lock
    {
      assert TaskOk(s.table, s.heap, s.tasks[u]);
    }
  }

  lemma TokenKeepsInv(s: State, s': State, t: Task)
    requires Inv(s) && (Take(s, s', t) || Finish(s, s', t))
    ensures Inv(s')
  {
    TokenKeepsTasks(s, s', t);
    RefsAfter(s.heap, s'.heap, s.tasks, t, s'.tasks[t]);
  }

  lemma NextKeepsInv(s: State, s': State)
    requires Inv(s) && Next(s, s')
    ensures Inv(s')
  {
    var t :| Enter(s, s', t) || Take(s, s', t) || Finish(s, s', t) || Drop(s, s', t);
    if Enter(s, s', t) {
      EnterKeepsInv(s, s', t);
    } else if Drop(s, s', t) {
      DropKeepsInv(s, s', t);
    } else {
      TokenKeepsInv(s, s', t);
    }
  }

  lemma {:induction false} RunKeepsInv(b: seq<State>, i: nat)
    requires Run(b) && i < |b|
    ensures Inv(b[i])
  {
    if i > 0 {
      RunKeepsInv(b, i - 1);
      assert Next(b[i - 1], b[i - 1 + 1]);
      NextKeepsInv(b[i - 1], b[i]);
    }
  }

  // --- theorems ---

  /** In one process at most one protected function runs per key. */
  lemma OneRunnerPerKey(b: seq<State>, i: nat, t: Task, u: Task)
    requires Run(b) && i < |b|
    requires t in b[i].tasks && u in b[i].tasks
    requires b[i].tasks[t].Running? && b[i].tasks[u].Running? && b[i].tasks[t].key == b[i].tasks[u].key
    ensures t == u
  {
    RunKeepsInv(b, i);
    assert TaskOk(b[i].table, b[i].heap, b[i].tasks[t]) && TaskOk(b[i].table, b[i].heap, b[i].tasks[u]);
  }

  ghost predicate HasRunner(tasks: map<Task, TaskState>, l: LockId) {
    exists t :: t in tasks && tasks[t].Running? && tasks[t].lock == l
  }

  /** A channel holds its token only while some task runs with it. */
  ghost predicate SlotsOk(s: State) {
    forall l :: l in s.heap && s.heap[l].slot ==> HasRunner(s.tasks, l)
  }

  lemma RunnerStays(tasks: map<Task, TaskState>, t: Task, p: TaskState, l: LockId)
    requires t in tasks && HasRunner(tasks, l) && !(tasks[t].Running? && tasks[t].lock == l)
    ensures HasRunner(tasks[t := p], l)
  {
    var u :| u in tasks && tasks[u].Running? && tasks[u].lock == l;
    assert tasks[t := p][u] == tasks[u];
  }

  lemma QuietKeepsSlots(s: State, s': State, t: Task)
    requires SlotsOk(s) && (Enter(s, s', t) || Drop(s, s', t))
    ensures SlotsOk(s')
  {
    forall l | l in s'.heap && s'.heap[l].slot ensures HasRunner(s'.tasks, l) {
      assert l in s.heap && s.heap[l].slot;
      RunnerStays(s.tasks, t, s'.tasks[t], l);
    }
  }

  lemma TokenKeepsSlots(s: State, s': State, t: Task)
    requires SlotsOk(s) && (Take(s, s', t) || Finish(s, s', t))
    ensures SlotsOk(s')
  {
    forall l | l in s'.heap && s'.heap[l].slot ensures HasRunner(s'.tasks, l) {
      if l == s.tasks[t].lock {
        assert s'.tasks[t].Running?;
      } else {
        assert l in s.heap && s.heap[l].slot;
        RunnerStays(s.tasks, t, s'.tasks[t], l);
      }
    }
  }

  lemma NextKeepsSlots(s: State, s': State)
    requires SlotsOk(s) && Next(s, s')
    ensures SlotsOk(s')
  {
    var t :| Enter(s, s', t) || Take(s, s', t) || Finish(s, s', t) || Drop(s, s', t);
    if Enter(s, s', t) || Drop(s, s', t) {
      QuietKeepsSlots(s, s', t);
    } else {
      TokenKeepsSlots(s, s', t);
    }
  }

  lemma {:induction false} RunKeepsSlots(b: seq<State>, i: nat)
    requires Run(b) && i < |b|
    ensures SlotsOk(b[i])
  {
    if i > 0 {
      RunKeepsSlots(b, i - 1);
      assert Next(b[i - 1], b[i - 1 + 1]);
      NextKeepsSlots(b[i - 1], b[i]);
    }
  }

  /** A waiting task can go on exactly while no task runs for its key. */
  lemma WaiterCanGoOnIff(b: seq<State>, i: nat, t: Task)
    requires Run(b) && i < |b| && t in b[i].tasks && b[i].tasks[t].Waiting?
    ensures (exists s' :: Take(b[i], s', t)) <==>
            forall u :: u in b[i].tasks && b[i].tasks[u].Running? ==> b[i].tasks[u].key != b[i].tasks[t].key
  {
    RunKeepsInv(b, i);
    RunKeepsSlots(b, i);
    var s := b[i];
    var Waiting(k, l) := s.tasks[t];
    assert TaskOk(s.table, s.heap, s.tasks[t]);
    forall u | u in s.tasks && s.tasks[u].Running? ensures s.tasks[u].lock == l <==> s.tasks[u].key == k {
      assert TaskOk(s.table, s.heap, s.tasks[u]);
    }
    if !s.heap[l].slot {
      var s' := s.(heap := s.heap[l := s.heap[l].(slot := true)], tasks := s.tasks[t := Running(k, l)]);
      assert Take(s, s', t);
    }
  }

  /** The tasks that wait for a key, hold it, or are just leaving it. */
  ghost function EngagedOn(s: State, k: Key): set<Task> {
    set t | t in s.tasks && s.tasks[t].key == k && Engaged(s.tasks[t])
  }

  /** A key has a table entry exactly while some task is engaged on it, and `refs` counts those tasks. */
  lemma EntryLivesWhileReferenced(b: seq<State>, i: nat, k: Key)
    requires Run(b) && i < |b|
    ensures k in b[i].table <==> EngagedOn(b[i], k) != {}
    ensures k in b[i].table ==> b[i].table[k] in b[i].heap && b[i].heap[b[i].table[k]].refs == |EngagedOn(b[i], k)|
  {
    RunKeepsInv(b, i);
    var s := b[i];
    forall t | t in EngagedOn(s, k) ensures k in s.table && t in Users(s.tasks, s.table[k]) {
      assert TaskOk(s.table, s.heap, s.tasks[t]);
    }
    if k in s.table {
      forall t | t in Users(s.tasks, s.table[k]) ensures t in EngagedOn(s, k) {
        assert TaskOk(s.table, s.heap, s.tasks[t]);
      }
      assert EngagedOn(s, k) == Users(s.tasks, s.table[k]);
    }
  }
}
