/**
 The same critical sections, interleaved. Router calls run with the mutex released, so between two
 sections of one call any other VIP may run its own; only the calls of one VIP key never overlap.
 */
module RouteInterleaving {
  import opened Prelude
  import opened RouteCoordination

  /** What a call does once the VIP has left its previous address. */
  datatype Goal = Serving(on: bool) | Draining

  datatype Pc =
    | Idle
    | MustLeave(from: Address, next: Option<(Goal, Address)>)
    | Left(from: Address, next: Option<(Goal, Address)>)
    | Ready(goal: Goal, at: Address)

  datatype State = State(m: Addresses, v: VipAddresses, pcs: map<VipKey, Pc>)

  predicate AtHome(v: VipAddresses, k: VipKey, a: Address) {
    TrackedAddress(v, k) == "" || TrackedAddress(v, k) == a
  }

  /** SetServing or beginDrain reads the tracked address; Delete and prepareAddressChange only leave. */
  ghost predicate Begin(s: State, s': State, k: VipKey)
    requires k in s.pcs
  {
    && s.pcs[k] == Idle
    && exists pc :: s' == s.(pcs := s.pcs[k := pc]) &&
         (|| (pc.Ready? && pc.at != "" && AtHome(s.v, k, pc.at))
          || (pc.MustLeave? && pc.from != "" && AtHome(s.v, k, pc.from) && (pc.next.Some? ==> pc.next.value.1 != "")))
  }

  ghost predicate LeaveSection(s: State, s': State, k: VipKey)
    requires k in s.pcs
  {
    && s.pcs[k].MustLeave?
    && var MustLeave(from, goal) := s.pcs[k];
       s' == State(if AtHome(s.v, k, from) then Leave(s.m, k, from) else s.m, s.v, s.pcs[k := Left(from, goal)])
  }

  /** After the router was asked: on success forget the address, in any case clean up the entry. */
  ghost predicate LeftSection(s: State, s': State, k: VipKey)
    requires k in s.pcs
  {
    && s.pcs[k].Left?
    && var Left(from, goal) := s.pcs[k];
       || s' == State(Cleanup(s.m, from), s.v, s.pcs[k := Idle])
       || s' == State(Cleanup(s.m, from), if AtHome(s.v, k, from) then s.v - {k} else s.v,
                      s.pcs[k := if goal.Some? then Ready(goal.value.0, goal.value.1) else Idle])
  }

  ghost predicate GoalSection(s: State, s': State, k: VipKey)
    requires k in s.pcs
  {
    && s.pcs[k].Ready?
    && var Ready(goal, a) := s.pcs[k];
       match goal
       case Serving(on) => s' == State(Serve(s.m, k, a, on), s.v[k := a], s.pcs[k := Idle])
       case Draining =>
         s' == if StateOf(s.m, a).drainOwner in {"", k}
               then State(StartDrain(s.m, k, a), s.v[k := a], s.pcs[k := Idle])
               else s.(pcs := s.pcs[k := Idle])
  }

  /** FinishDrain, or a drain whose withdrawal failed. */
  ghost predicate EndDrainSection(s: State, s': State, k: VipKey)
    requires k in s.pcs
  {
    exists a :: s.pcs[k] == Idle && OwnsDrain(s.m, k, a) && s' == s.(m := EndDrain(s.m, a))
  }

  /** A finished router call is recorded on some address, whichever VIP asked for it. */
  ghost predicate RouterSection(s: State, s': State) {
    exists a :: SameBookkeeping(s.m, s'.m, a) && s' == s.(m := s'.m)
  }

  ghost predicate StepOf(s: State, s': State, k: VipKey) {
    && k in s.pcs && k != ""
    && (Begin(s, s', k) || LeaveSection(s, s', k) || LeftSection(s, s', k) || GoalSection(s, s', k) || EndDrainSection(s, s', k))
  }

  ghost predicate Next(s: State, s': State) {
    RouterSection(s, s') || exists k :: StepOf(s, s', k)
  }

  ghost predicate Run(b: seq<State>) {
    && |b| > 0
    && b[0].m == map[] && b[0].v == map[] && (forall k :: k in b[0].pcs ==> b[0].pcs[k] == Idle)
    && forall i :: 0 <= i < |b| - 1 ==> Next(b[i], b[i + 1])
  }

  ghost predicate PcOk(m: Addresses, v: VipAddresses, k: VipKey, pc: Pc) {
    match pc
    case Idle => true
    case MustLeave(from, goal) => from != "" && AtHome(v, k, from) && (goal.Some? ==> goal.value.1 != "")
    case Left(from, goal) =>
      from != "" && AtHome(v, k, from) && (goal.Some? ==> goal.value.1 != "") && forall b :: ServingAt(m, k, b) == None
    case Ready(_, a) => a != "" && AtHome(v, k, a)
  }

  ghost predicate Inv(s: State) {
    OneHome(s.m, s.v) && forall k :: k in s.pcs ==> PcOk(s.m, s.v, k, s.pcs[k])
  }

  /** Whatever one key does, the program counters of the others stay justified. */
  lemma OthersStayOk(s: State, s': State, k: VipKey)
    requires Inv(s) && k in s.pcs && Moved(s.m, s.v, s'.m, s'.v, k, if s.pcs[k].Ready? then s.pcs[k].at else "")
    requires k in s'.pcs && s'.pcs == s.pcs[k := s'.pcs[k]] && PcOk(s'.m, s'.v, k, s'.pcs[k])
    ensures Inv(s')
  {
    forall j | j in s'.pcs ensures PcOk(s'.m, s'.v, j, s'.pcs[j]) {
      if j != k {
        assert PcOk(s.m, s.v, j, s.pcs[j]);
        assert TrackedAddress(s'.v, j) == TrackedAddress(s.v, j);
      }
    }
  }

  lemma LeftKeepsInv(s: State, s': State, k: VipKey)
    requires Inv(s) && k in s.pcs && k != "" && LeftSection(s, s', k)
    ensures Inv(s')
  {
    assert PcOk(s.m, s.v, k, s.pcs[k]);
    var Left(from, _) := s.pcs[k];
    LeaveMoves(s.m, s.v, k, from, s'.v != s.v);
    assert Leave(s.m, k, from) == s.m by {
      assert ServingAt(s.m, k, from) == None;
      assert from in s.m ==> s.m[from].serving - {k} == s.m[from].serving;
    }
    CleanupMoves(s.m, s'.v, from, k);
    MovesCompose(s.m, s.v, s.m, s'.v, s'.m, s'.v, k, "");
    OthersStayOk(s, s', k);
  }

  lemma GoalKeepsInv(s: State, s': State, k: VipKey)
    requires Inv(s) && k in s.pcs && k != "" && GoalSection(s, s', k)
    ensures Inv(s')
  {
    assert PcOk(s.m, s.v, k, s.pcs[k]);
    var Ready(goal, a) := s.pcs[k];
    if goal.Serving? {
      ServeMoves(s.m, s.v, k, a, goal.on);
      MovesCompose(s.m, s.v, s'.m, s'.v, s'.m, s'.v, k, a) by { BookkeepingMoves(s'.m, s'.v, s'.m, "", k); }
    } else if s'.v == s.v && s'.m == s.m {
      BookkeepingMoves(s.m, s.v, s.m, "", k);
      MovesCompose(s.m, s.v, s.m, s.v, s.m, s.v, k, a);
    } else {
      StartDrainMoves(s.m, s.v, k, a);
    }
    OthersStayOk(s, s', k);
  }

  lemma StepKeepsInv(s: State, s': State, k: VipKey)
    requires Inv(s) && StepOf(s, s', k)
    ensures Inv(s')
  {
    if LeftSection(s, s', k) {
      LeftKeepsInv(s, s', k);
    } else if GoalSection(s, s', k) {
      GoalKeepsInv(s, s', k);
    } else {
      assert PcOk(s.m, s.v, k, s.pcs[k]);
      if Begin(s, s', k) {
        BookkeepingMoves(s.m, s.v, s.m, "", k);
      } else if LeaveSection(s, s', k) {
        LeaveMoves(s.m, s.v, k, s.pcs[k].from, false);
      } else {
        var a :| OwnsDrain(s.m, k, a) && s' == s.(m := EndDrain(s.m, a));
        EndDrainMoves(s.m, s.v, k, a);
      }
      OthersStayOk(s, s', k);
    }
  }

  lemma {:induction false} RunKeepsInv(b: seq<State>, i: nat)
    requires Run(b) && i < |b|
    ensures Inv(b[i])
  {
    if i > 0 {
      RunKeepsInv(b, i - 1);
      var s, s' := b[i - 1], b[i];
      assert Next(b[i - 1], b[i - 1 + 1]);
      if a :| SameBookkeeping(s.m, s'.m, a) && s' == s.(m := s'.m) {
        forall k ensures Moved(s.m, s.v, s'.m, s.v, k, "") { BookkeepingMoves(s.m, s.v, s'.m, a, k); }
        forall k | k in s'.pcs ensures PcOk(s'.m, s'.v, k, s'.pcs[k]) {
          assert PcOk(s.m, s.v, k, s.pcs[k]);
          assert forall x :: ServingAt(s'.m, k, x) == ServingAt(s.m, k, x);
        }
      } else {
        var k :| StepOf(s, s', k);
        StepKeepsInv(s, s', k);
      }
    }
  }

  /** In every interleaving a VIP is listed on at most one address, the one it is tracked under. */
  lemma OneAddressPerVip(b: seq<State>, i: nat, k: VipKey, a: Address, c: Address)
    requires Run(b) && i < |b|
    requires ServingAt(b[i].m, k, a).Some? && ServingAt(b[i].m, k, c).Some?
    ensures a == c && TrackedAddress(b[i].v, k) == a && a != ""
  {
    RunKeepsInv(b, i);
    var m, v := b[i].m, b[i].v;
    assert OneHome(m, v);
    assert a in m && k in m[a].serving;
    assert v[k] == a;
    assert c in m && k in m[c].serving;
    assert v[k] == c;
  }
}
