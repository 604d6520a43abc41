/**
 Any number of coordinators racing for one rollout key over a compare-and-swap store.

 Every API call is split into the request leaving the agent, the server applying it, and the
 reply coming back. An agent may give up at any point (timeout, cancelled context, crash); the
 request it left behind is an orphan that the server may still apply later.
 */
module LeaseProtocol {
  import opened Prelude
  import opened Lease

  /** The stored Lease with its resource version. Lease names are one-to-one with keys. */
  datatype Store = Absent | Present(version: nat, spec: LeaseSpec)

  datatype Kind = Create | Claim | Renew | Release

  /**
   A write on its way to the server: `base` is the resource version it was computed from (none
   for a create), `from` the contents read at that version, `spec` what it wants stored.
   The availability test used the clock value `checkedAt`, the new times use `at`.
   */
  datatype Request = Request(
    who: Coordinator, kind: Kind, base: Option<nat>, from: LeaseSpec, spec: LeaseSpec,
    checkedAt: int, at: int)

  datatype Renewal =
    | NoRenewal
    | RenewRead(seen: Store, readAt: int)
    | RenewSent(req: Request)
    | RenewApplied(renewed: LeaseSpec)

  /** Where one coordinator's `RunExclusive` for the key stands. `Idle` includes the retry wait. */
  datatype Phase =
    | Idle
    | Inspected(seen: Store, readAt: int)
    | Claiming(req: Request)
    | Granted(claim: LeaseSpec)
    | Holding(claim: LeaseSpec, renewal: Renewal)
    | Releasing
    | ReleaseRead(seen: Store, readAt: int)
    | ReleaseSent(req: Request)

  datatype State = State(
    clock: int,
    store: Store,
    sessions: map<Coordinator, Phase>,
    orphans: set<Request>)

  // --- server ---

  predicate Matches(store: Store, r: Request) {
    match store
    case Absent => r.base.None?
    case Present(v, _) => r.base == Some(v)
  }

  function Apply(store: Store, r: Request): Store {
    if !Matches(store, r) then store
    else if store.Absent? then Present(1, r.spec) else Present(store.version + 1, r.spec)
  }

  function BaseOf(seen: Store): Option<nat> {
    if seen.Absent? then None else Some(seen.version)
  }

  // --- what a coordinator sends ---

  predicate Computed(r: Request) {
    match r.kind
    case Create => r.base.None? && r.spec == Created(r.who, r.at)
    case Claim =>
      r.base.Some? && Available(r.who, r.from, r.checkedAt) && r.spec == Claimed(r.who, r.from, r.at)
    case Renew => r.base.Some? && HolderOf(r.from) == r.who.id && r.spec == Renewed(r.who, r.from, r.at)
    case Release => r.base.Some? && HolderOf(r.from) == r.who.id && r.spec == Released(r.from, r.at)
  }

  ghost predicate Sends(s: State, c: Coordinator, seen: Store, readAt: int, r: Request) {
    && r.who == c
    && r.base == BaseOf(seen)
    && (seen.Present? ==> r.from == seen.spec)
    && readAt <= r.checkedAt <= r.at <= s.clock
    && Computed(r)
  }

  // --- steps ---

  ghost predicate Tick(s: State, s': State) {
    s.clock <= s'.clock && s' == s.(clock := s'.clock)
  }

  ghost predicate Goto(s: State, s': State, c: Coordinator, p: Phase) {
    s' == s.(sessions := s.sessions[c := p])
  }

  /** tryAcquire: Get, then leaseAvailable, then Create or Update. */
  ghost predicate AcquireStep(s: State, s': State, c: Coordinator)
    requires c in s.sessions
  {
    match s.sessions[c]
    case Idle => Goto(s, s', c, Inspected(s.store, s.clock))
    case Inspected(seen, readAt) =>
      || Goto(s, s', c, Idle)
      || (exists r :: Sends(s, c, seen, readAt, r) && r.kind in {Create, Claim} && Goto(s, s', c, Claiming(r)))
    case Claiming(r) =>
      s' == s.(store := Apply(s.store, r),
               sessions := s.sessions[c := if Matches(s.store, r) then Granted(r.spec) else Idle])
    case Granted(claim) => Goto(s, s', c, Holding(claim, NoRenewal))
    case _ => false
  }

  /** renewLoop and renew, running beside the protected function. */
  ghost predicate RenewStep(s: State, s': State, c: Coordinator)
    requires c in s.sessions
  {
    && s.sessions[c].Holding?
    && var claim := s.sessions[c].claim;
       match s.sessions[c].renewal
       case NoRenewal => Goto(s, s', c, Holding(claim, RenewRead(s.store, s.clock)))
       case RenewRead(seen, readAt) =>
         || Goto(s, s', c, Holding(claim, NoRenewal))
         || (exists r :: Sends(s, c, seen, readAt, r) && r.kind == Renew
                         && Goto(s, s', c, Holding(claim, RenewSent(r))))
       case RenewSent(r) =>
         s' == s.(store := Apply(s.store, r),
                  sessions := s.sessions[c := Holding(claim, if Matches(s.store, r)
                                                             then RenewApplied(r.spec) else NoRenewal)])
       case RenewApplied(renewed) => Goto(s, s', c, Holding(renewed, NoRenewal))
  }

  /** release: the renewal goroutine has ended, then Get and conditional Update, retried on conflict. */
  ghost predicate ReleaseStep(s: State, s': State, c: Coordinator)
    requires c in s.sessions
  {
    match s.sessions[c]
    case Holding(_, NoRenewal) => Goto(s, s', c, Releasing)
    case Releasing => Goto(s, s', c, ReleaseRead(s.store, s.clock))
    case ReleaseRead(seen, readAt) =>
      || Goto(s, s', c, Idle)
      || (exists r :: Sends(s, c, seen, readAt, r) && r.kind == Release && Goto(s, s', c, ReleaseSent(r)))
    case ReleaseSent(r) =>
      s' == s.(store := Apply(s.store, r),
               sessions := s.sessions[c := if Matches(s.store, r) then Idle else Releasing])
    case _ => false
  }

  function InFlight(p: Phase): set<Request> {
    match p
    case Claiming(r) => {r}
    case Holding(_, RenewSent(r)) => {r}
    case ReleaseSent(r) => {r}
    case _ => {}
  }

  ghost predicate Abandon(s: State, s': State, c: Coordinator, p: Phase)
    requires c in s.sessions
  {
    s' == s.(sessions := s.sessions[c := p], orphans := s.orphans + InFlight(s.sessions[c]))
  }

  /** The agent stops waiting for its call; while holding it may also lose only the renewal. */
  ghost predicate GiveUp(s: State, s': State, c: Coordinator)
    requires c in s.sessions
  {
    var p := s.sessions[c];
    || Abandon(s, s', c, Idle)
    || (p.Holding? && Abandon(s, s', c, Holding(p.claim, NoRenewal)))
  }

  ghost predicate ServeOrphan(s: State, s': State, r: Request) {
    r in s.orphans && s' == s.(store := Apply(s.store, r), orphans := s.orphans - {r})
  }

  ghost predicate Next(s: State, s': State) {
    || Tick(s, s')
    || (exists r :: ServeOrphan(s, s', r))
    || (exists c :: c in s.sessions &&
          (AcquireStep(s, s', c) || RenewStep(s, s', c) || ReleaseStep(s, s', c) || GiveUp(s, s', c)))
  }

  /** Identities are distinct and non-empty; the store may hold any lease that was not renewed in the future. */
  ghost predicate Init(s: State) {
    && (forall c :: c in s.sessions ==> c.id != "" && s.sessions[c] == Idle)
    && (forall c, d :: c in s.sessions && d in s.sessions && c.id == d.id ==> c == d)
    && s.orphans == {}
    && NotFromFuture(s.store, s.clock)
  }

  ghost predicate Run(b: seq<State>) {
    && |b| > 0
    && Init(b[0])
    && forall i :: 0 <= i < |b| - 1 ==> Next(b[i], b[i + 1])
  }

  // --- invariant ---

  ghost predicate NotFromFuture(store: Store, clock: int) {
    store.Present? && store.spec.renewTime.Some? ==> store.spec.renewTime.value <= clock
  }

  function Deadline(claim: LeaseSpec): int
    requires claim.renewTime.Some? && claim.durationSeconds.Some?
  {
    claim.renewTime.value + claim.durationSeconds.value * SECOND
  }

  /** A claim as its holder recorded it, still running on the shared clock. */
  predicate Unexpired(claim: LeaseSpec, clock: int) {
    claim.renewTime.Some? && claim.durationSeconds.Some? && clock < Deadline(claim)
  }

  function Claims(p: Phase): set<LeaseSpec> {
    match p
    case Granted(claim) => {claim}
    case Holding(claim, RenewApplied(renewed)) => {claim, renewed}
    case Holding(claim, _) => {claim}
    case _ => {}
  }

  ghost predicate SnapshotOk(store: Store, clock: int, seen: Store, readAt: int) {
    && readAt <= clock
    && NotFromFuture(seen, readAt)
    && (seen.Present? ==> store.Present? && seen.version <= store.version
                          && (seen.version == store.version ==> seen == store))
  }

  ghost predicate RequestOk(store: Store, clock: int, r: Request) {
    && Computed(r)
    && r.checkedAt <= r.at <= clock
    && (r.base.Some? ==>
          && store.Present? && r.base.value <= store.version
          && (r.base.value == store.version ==> r.from == store.spec)
          && (r.from.renewTime.Some? ==> r.from.renewTime.value <= r.at))
  }

  ghost predicate PhaseOk(store: Store, clock: int, c: Coordinator, p: Phase) {
    && (forall r :: r in InFlight(p) ==> r.who == c && RequestOk(store, clock, r))
    && (p.Claiming? ==> p.req.kind in {Create, Claim})
    && (p.ReleaseSent? ==> p.req.kind == Release)
    && (p.Holding? && p.renewal.RenewSent? ==> p.renewal.req.kind == Renew)
    && (p.Inspected? || p.ReleaseRead? ==> SnapshotOk(store, clock, p.seen, p.readAt))
    && (p.Holding? && p.renewal.RenewRead? ==> SnapshotOk(store, clock, p.renewal.seen, p.renewal.readAt))
  }

  /** An unexpired claim is what the store says, or the store says it lasts even longer. */
  ghost predicate Backed(store: Store, clock: int, c: Coordinator, claim: LeaseSpec) {
    && claim.durationSeconds == Some(DurationSeconds(c.leaseDuration))
    && (Unexpired(claim, clock) ==>
          && store.Present? && HolderOf(store.spec) == c.id
          && store.spec.durationSeconds == claim.durationSeconds
          && store.spec.renewTime.Some? && claim.renewTime.value <= store.spec.renewTime.value)
  }

  ghost predicate Inv(s: State) {
    && (forall c :: c in s.sessions ==> c.id != "")
    && (forall c, d :: c in s.sessions && d in s.sessions && c.id == d.id ==> c == d)
    && NotFromFuture(s.store, s.clock)
    && (forall r :: r in s.orphans ==> r.who in s.sessions && RequestOk(s.store, s.clock, r))
    && (forall c :: c in s.sessions ==> PhaseOk(s.store, s.clock, c, s.sessions[c]))
    && (forall c, claim :: c in s.sessions && claim in Claims(s.sessions[c]) ==> Backed(s.store, s.clock, c, claim))
    && (forall r :: r in s.orphans && r.kind == Release && Claims(s.sessions[r.who]) != {} ==> !Matches(s.store, r))
  }

  // --- one applied write ---

  /** What the server applying `r` does to the store, for every request the protocol can produce. */
  lemma ApplyEffect(s: State, r: Request)
    requires Inv(s) && r.who in s.sessions && RequestOk(s.store, s.clock, r) && Matches(s.store, r)
    ensures NotFromFuture(Apply(s.store, r), s.clock)
    ensures HolderOf(r.spec) == (if r.kind == Release then "" else r.who.id)
    ensures r.kind == Release || r.spec.durationSeconds == Some(DurationSeconds(r.who.leaseDuration))
    ensures forall c, claim ::
              c in s.sessions && claim in Claims(s.sessions[c]) && Unexpired(claim, s.clock)
              ==> r.who == c && r.kind != Create && claim.renewTime.value <= r.spec.renewTime.value
  {
    forall c, claim | c in s.sessions && claim in Claims(s.sessions[c]) && Unexpired(claim, s.clock)
      ensures r.who == c && r.kind != Create && claim.renewTime.value <= r.spec.renewTime.value
    {
      assert Backed(s.store, s.clock, c, claim);
      assert r.from == s.store.spec && HolderOf(r.from) == c.id;
      if r.who.id != c.id {
        assert false;
      }
    }
  }

  /** Once the store has moved on, no request computed before can match it any more. */
  lemma StoreAdvances(s: State, s': State)
    requires s'.clock == s.clock
    requires s'.store.Present? && (s.store.Present? ==> s.store.version < s'.store.version)
    ensures forall r :: RequestOk(s.store, s.clock, r) ==> RequestOk(s'.store, s'.clock, r) && !Matches(s'.store, r)
    ensures forall c, p :: PhaseOk(s.store, s.clock, c, p) ==> PhaseOk(s'.store, s'.clock, c, p)
  {
    assert forall seen, readAt :: SnapshotOk(s.store, s.clock, seen, readAt) ==> SnapshotOk(s'.store, s'.clock, seen, readAt);
  }

  lemma TickKeepsInv(s: State, s': State)
    requires Inv(s) && Tick(s, s')
    ensures Inv(s')
  {
    assert forall r :: RequestOk(s.store, s.clock, r) ==> RequestOk(s'.store, s'.clock, r);
    assert forall seen, readAt :: SnapshotOk(s.store, s.clock, seen, readAt) ==> SnapshotOk(s'.store, s'.clock, seen, readAt);
    assert forall c, p :: PhaseOk(s.store, s.clock, c, p) ==> PhaseOk(s'.store, s'.clock, c, p);
    assert forall c, claim :: Backed(s.store, s.clock, c, claim) ==> Backed(s'.store, s'.clock, c, claim);
  }

  /** A coordinator changes phase without the store changing and without gaining a claim. */
  lemma MoveKeepsInv(s: State, s': State, c: Coordinator, p: Phase, dropped: set<Request>)
    requires Inv(s) && c in s.sessions
    requires s' == s.(sessions := s.sessions[c := p], orphans := s.orphans + dropped)
    requires PhaseOk(s.store, s.clock, c, p) && Claims(p) <= Claims(s.sessions[c])
    requires dropped <= InFlight(s.sessions[c])
    requires forall r :: r in dropped && r.kind == Release ==> Claims(p) == {}
    ensures Inv(s')
  {
    assert s'.sessions.Keys == s.sessions.Keys;
  }

  /** After the write, the claims there were and the one it adds are backed by the store. */
  lemma ServeBacks(s: State, r: Request, d: Coordinator, claim: LeaseSpec)
    requires Inv(s) && d in s.sessions && r.who in s.sessions && RequestOk(s.store, s.clock, r) && Matches(s.store, r)
    requires claim in Claims(s.sessions[d]) || (r.kind != Release && r.who == d && claim == r.spec)
    requires r.kind == Release ==> Claims(s.sessions[r.who]) == {}
    ensures Backed(Apply(s.store, r), s.clock, d, claim)
  {
    ApplyEffect(s, r);
    if claim in Claims(s.sessions[d]) {
      assert Backed(s.store, s.clock, d, claim);
    }
  }

  /** The server applies a request; the only claim it can add is the one it wrote. */
  lemma ServeKeepsInv(s: State, s': State, r: Request, c: Coordinator, p: Phase)
    requires Inv(s) && c in s.sessions && r.who in s.sessions && RequestOk(s.store, s.clock, r) && Matches(s.store, r)
    requires s' == s.(store := Apply(s.store, r), sessions := s.sessions[c := p], orphans := s'.orphans)
    requires s'.orphans <= s.orphans
    requires InFlight(p) == {} || p == s.sessions[c]
    requires p.Inspected? || p.ReleaseRead? || (p.Holding? && p.renewal.RenewRead?) ==> p == s.sessions[c]
    requires Claims(p) <= Claims(s.sessions[c]) + (if r.kind != Release && r.who == c then {r.spec} else {})
    requires r.kind == Release ==> Claims(s.sessions[r.who]) == {}
    ensures Inv(s')
  {
    ApplyEffect(s, r);
    assert s'.sessions.Keys == s.sessions.Keys;
    StoreAdvances(s, s');
    forall d, claim | d in s'.sessions && claim in Claims(s'.sessions[d])
      ensures Backed(s'.store, s'.clock, d, claim)
    {
      assert claim in Claims(s.sessions[d]) || (d == c && claim == r.spec);
      ServeBacks(s, r, d, claim);
    }
  }

  lemma AcquireKeepsInv(s: State, s': State, c: Coordinator)
    requires Inv(s) && c in s.sessions && AcquireStep(s, s', c)
    ensures Inv(s')
  {
    var p := s.sessions[c];
    assert PhaseOk(s.store, s.clock, c, p);
    if p.Claiming? && Matches(s.store, p.req) {
      assert p.req in InFlight(p);
      ServeKeepsInv(s, s', p.req, c, Granted(p.req.spec));
    } else if p.Claiming? {
      MoveKeepsInv(s, s', c, Idle, {});
    } else {
      MoveKeepsInv(s, s', c, s'.sessions[c], {});
    }
  }

  lemma RenewKeepsInv(s: State, s': State, c: Coordinator)
    requires Inv(s) && c in s.sessions && RenewStep(s, s', c)
    ensures Inv(s')
  {
    var p := s.sessions[c];
    assert PhaseOk(s.store, s.clock, c, p);
    if p.renewal.RenewSent? && Matches(s.store, p.renewal.req) {
      assert p.renewal.req in InFlight(p);
      ServeKeepsInv(s, s', p.renewal.req, c, s'.sessions[c]);
    } else {
      MoveKeepsInv(s, s', c, s'.sessions[c], {});
    }
  }

  lemma ReleaseKeepsInv(s: State, s': State, c: Coordinator)
    requires Inv(s) && c in s.sessions && ReleaseStep(s, s', c)
    ensures Inv(s')
  {
    var p := s.sessions[c];
    assert PhaseOk(s.store, s.clock, c, p);
    if p.ReleaseSent? && Matches(s.store, p.req) {
      assert p.req in InFlight(p);
      ServeKeepsInv(s, s', p.req, c, Idle);
    } else {
      MoveKeepsInv(s, s', c, s'.sessions[c], {});
    }
  }

  lemma GiveUpKeepsInv(s: State, s': State, c: Coordinator)
    requires Inv(s) && c in s.sessions && GiveUp(s, s', c)
    ensures Inv(s')
  {
    assert PhaseOk(s.store, s.clock, c, s.sessions[c]);
    MoveKeepsInv(s, s', c, s'.sessions[c], InFlight(s.sessions[c]));
  }

  lemma OrphanKeepsInv(s: State, s': State, r: Request)
    requires Inv(s) && ServeOrphan(s, s', r)
    ensures Inv(s')
  {
    assert RequestOk(s.store, s.clock, r);
    if Matches(s.store, r) {
      assert s.sessions == s.sessions[r.who := s.sessions[r.who]];
      ServeKeepsInv(s, s', r, r.who, s.sessions[r.who]);
    }
  }

  lemma NextKeepsInv(s: State, s': State)
    requires Inv(s) && Next(s, s')
    ensures Inv(s')
  {
    if Tick(s, s') {
      TickKeepsInv(s, s');
    } else if r :| ServeOrphan(s, s', r) {
      OrphanKeepsInv(s, s', r);
    } else {
      var c :| c in s.sessions &&
        (AcquireStep(s, s', c) || RenewStep(s, s', c) || ReleaseStep(s, s', c) || GiveUp(s, s', c));
      if AcquireStep(s, s', c) {
        AcquireKeepsInv(s, s', c);
      } else if RenewStep(s, s', c) {
        RenewKeepsInv(s, s', c);
      } else if ReleaseStep(s, s', c) {
        ReleaseKeepsInv(s, s', c);
      } else {
        GiveUpKeepsInv(s, s', c);
      }
    }
  }

  lemma {:induction false} RunKeepsInv(b: seq<State>, i: nat)
    requires Run(b) && i < |b|
    ensures Inv(b[i])
  {
    if i > 0 {
      RunKeepsInv(b, i - 1);
      assert Next(b[i - 1], b[i - 1 + 1]);
      NextKeepsInv(b[i - 1], b[i]);
    }
  }

  // --- theorems over whole runs ---

  /** No two coordinators ever have unexpired claims on the key at the same instant. */
  lemma MutualExclusion(b: seq<State>, i: nat, c: Coordinator, d: Coordinator, claimC: LeaseSpec, claimD: LeaseSpec)
    requires Run(b) && i < |b|
    requires c in b[i].sessions && claimC in Claims(b[i].sessions[c]) && Unexpired(claimC, b[i].clock)
    requires d in b[i].sessions && claimD in Claims(b[i].sessions[d]) && Unexpired(claimD, b[i].clock)
    ensures c == d
  {
    RunKeepsInv(b, i);
    assert Backed(b[i].store, b[i].clock, c, claimC) && Backed(b[i].store, b[i].clock, d, claimD);
  }

  /** The write that turned `s.store` into `s'.store`. */
  ghost predicate AppliedBy(s: State, s': State, r: Request) {
    Matches(s.store, r) && s'.store == Apply(s.store, r)
  }

  /** The request that a step of `c` has the server decide, if the step changes the store. */
  lemma StepHasRequest(s: State, s': State, c: Coordinator) returns (r: Request)
    requires c in s.sessions && s'.store != s.store
    requires AcquireStep(s, s', c) || RenewStep(s, s', c) || ReleaseStep(s, s', c)
    ensures r in InFlight(s.sessions[c]) && s'.store == Apply(s.store, r)
  {
    var p := s.sessions[c];
    r := if p.Holding? then p.renewal.req else p.req;
  }

  lemma InFlightIsJustified(s: State, c: Coordinator, r: Request)
    requires Inv(s) && c in s.sessions && r in InFlight(s.sessions[c])
    ensures r.who == c && RequestOk(s.store, s.clock, r) && (r.kind == Release ==> Claims(s.sessions[c]) == {})
  {
    assert PhaseOk(s.store, s.clock, c, s.sessions[c]);
  }

  /** Everything the server may still apply: calls being waited for and calls given up on. */
  ghost predicate Outstanding(s: State, r: Request) {
    r in s.orphans || exists c :: c in s.sessions && r in InFlight(s.sessions[c])
  }

  lemma ChangeHasAuthor(s: State, s': State) returns (r: Request)
    requires Inv(s) && Next(s, s') && s'.store != s.store
    ensures r.who in s.sessions && RequestOk(s.store, s.clock, r) && AppliedBy(s, s', r) && Outstanding(s, r)
    ensures r.kind == Release ==> Claims(s.sessions[r.who]) == {}
  {
    if q :| ServeOrphan(s, s', q) {
      r := q;
    } else {
      var c :| c in s.sessions && (AcquireStep(s, s', c) || RenewStep(s, s', c) || ReleaseStep(s, s', c));
      r := StepHasRequest(s, s', c);
      InFlightIsJustified(s, c, r);
    }
  }

  /**
   The lease passes from one holder to another only at or after the recorded renew time plus the
   recorded duration. Exactly such a change counts as a transition; taking a free lease, renewing and
   releasing keep the count.
   */
  lemma HandOverOnlyAfterExpiry(b: seq<State>, i: nat)
    requires Run(b) && i + 1 < |b|
    requires b[i].store.Present? && b[i + 1].store != b[i].store
    ensures var was, now := b[i].store.spec, b[i + 1].store.spec;
            var handedOver := HolderOf(was) != "" && HolderOf(now) != "" && HolderOf(now) != HolderOf(was);
            && (handedOver && was.renewTime.Some? && was.durationSeconds.Some? && was.durationSeconds.value > 0
                ==> Deadline(was) <= b[i].clock)
            && (handedOver ==> now.acquireTime == now.renewTime)
            && (handedOver ==> now.transitions == Some(Increment32(TransitionsOf(was))))
            && (!handedOver ==> TransitionsOf(now) == TransitionsOf(was))
  {
    RunKeepsInv(b, i);
    var r := ChangeHasAuthor(b[i], b[i + 1]);
  }

  /** A renew or release of somebody who is no longer the holder never changes the lease, however late it lands. */
  lemma StaleWritersAreHarmless(b: seq<State>, i: nat, r: Request)
    requires Run(b) && i < |b| && Outstanding(b[i], r)
    requires r.kind == Renew || r.kind == Release
    requires b[i].store.Present? ==> HolderOf(b[i].store.spec) != r.who.id
    ensures Apply(b[i].store, r) == b[i].store
  {
    RunKeepsInv(b, i);
    assert RequestOk(b[i].store, b[i].clock, r);
  }

  /** While a claim is unexpired its owner stays the recorded holder and the recorded deadline never moves back. */
  lemma UnexpiredClaimIsKept(b: seq<State>, i: nat, c: Coordinator, claim: LeaseSpec)
    requires Run(b) && i + 1 < |b|
    requires c in b[i].sessions && claim in Claims(b[i].sessions[c]) && Unexpired(claim, b[i].clock)
    ensures b[i + 1].store.Present? && HolderOf(b[i + 1].store.spec) == c.id
    ensures Unexpired(b[i + 1].store.spec, b[i].clock) && Deadline(claim) <= Deadline(b[i + 1].store.spec)
  {
    RunKeepsInv(b, i);
    assert Backed(b[i].store, b[i].clock, c, claim);
    if b[i + 1].store != b[i].store {
      var r := ChangeHasAuthor(b[i], b[i + 1]);
      ApplyEffect(b[i], r);
    }
  }

  /** A request whose write is what changed the store between the two states. */
  ghost predicate Changes(s: State, s': State, r: Request) {
    Outstanding(s, r) && AppliedBy(s, s', r) && s'.store != s.store
  }

  lemma ChangeIsJustified(b: seq<State>, i: nat, r: Request)
    requires Run(b) && i + 1 < |b| && Changes(b[i], b[i + 1], r)
    ensures RequestOk(b[i].store, b[i].clock, r) && b[i + 1].store.Present? && b[i + 1].store.spec == r.spec
    ensures b[i].store.Present? ==> r.base.Some? && r.from == b[i].store.spec
    ensures b[i].store.Absent? ==> r.base.None?
  {
    RunKeepsInv(b, i);
    assert RequestOk(b[i].store, b[i].clock, r);
  }

  /**
   An accepted renewal extends the lease: it runs for the holder's whole seconds from the instant at which
   the renewal was built, and nothing else about it changes.
   */
  lemma RenewalExtends(b: seq<State>, i: nat, r: Request)
    requires Run(b) && i + 1 < |b| && Changes(b[i], b[i + 1], r) && r.kind == Renew
    ensures b[i].store.Present? && b[i + 1].store.Present?
    ensures var was, now := b[i].store.spec, b[i + 1].store.spec;
            && now.renewTime == Some(r.at)
            && now.durationSeconds == Some(DurationSeconds(r.who.leaseDuration))
            && now.holder == was.holder == Some(r.who.id)
            && now.acquireTime == was.acquireTime && now.transitions == was.transitions
            && Deadline(now) == r.at + DurationSeconds(r.who.leaseDuration) * SECOND
  {
    RunKeepsInv(b, i);
    ChangeIsJustified(b, i, r);
    OutstandingHasId(b[i], r);
  }

  lemma OutstandingHasId(s: State, r: Request)
    requires Inv(s) && Outstanding(s, r)
    ensures r.who in s.sessions && r.who.id != ""
  {
    if r !in s.orphans {
      var c :| c in s.sessions && r in InFlight(s.sessions[c]);
      InFlightIsJustified(s, c, r);
    }
  }

  /**
   An accepted create or claim starts the lease at the instant at which it was built. It keeps an earlier
   acquire time only if the same holder takes its own lease again, and counts a transition only if it takes
   the lease from somebody else.
   */
  lemma ClaimStartsLease(b: seq<State>, i: nat, r: Request)
    requires Run(b) && i + 1 < |b| && Changes(b[i], b[i + 1], r) && (r.kind == Create || r.kind == Claim)
    ensures b[i + 1].store.Present? && (r.kind == Create <==> b[i].store.Absent?)
    ensures var now := b[i + 1].store.spec;
            && now.holder == Some(r.who.id)
            && now.renewTime == Some(r.at)
            && now.durationSeconds == Some(DurationSeconds(r.who.leaseDuration))
            && Deadline(now) == r.at + DurationSeconds(r.who.leaseDuration) * SECOND
            && (b[i].store.Absent? ==> now.acquireTime == Some(r.at) && now.transitions == Some(0))
    ensures b[i].store.Present? ==>
              var was, now := b[i].store.spec, b[i + 1].store.spec;
              && now.acquireTime == (if was.holder == now.holder && was.acquireTime.Some? then was.acquireTime else Some(r.at))
              && var count := if was.transitions.Some? then was.transitions.value else 0;
                 now.transitions == Some(if was.holder in {None, Some(""), now.holder} then count else Increment32(count))
  {
    RunKeepsInv(b, i);
    ChangeIsJustified(b, i, r);
    OutstandingHasId(b[i], r);
  }

  /** An accepted release frees the lease and keeps everything but the holder and the renew time. */
  lemma ReleaseFreesLease(b: seq<State>, i: nat, r: Request)
    requires Run(b) && i + 1 < |b| && Changes(b[i], b[i + 1], r) && r.kind == Release
    ensures b[i].store.Present? && b[i + 1].store.Present?
    ensures var was, now := b[i].store.spec, b[i + 1].store.spec;
            && was.holder == Some(r.who.id) && now.holder == None && now.renewTime == Some(r.at)
            && now.durationSeconds == was.durationSeconds
            && now.acquireTime == was.acquireTime && now.transitions == was.transitions
  {
    RunKeepsInv(b, i);
    ChangeIsJustified(b, i, r);
    OutstandingHasId(b[i], r);
  }

  lemma StepKeepsOthers(s: State, s': State, d: Coordinator, c: Coordinator)
    requires c in s.sessions && d in s.sessions && c != d
    requires AcquireStep(s, s', d) || RenewStep(s, s', d) || ReleaseStep(s, s', d)
    ensures c in s'.sessions && s'.sessions[c] == s.sessions[c]
  {
  }

  /** Only its own steps change the phase of a coordinator. */
  lemma PhaseChangeIsOwn(s: State, s': State, c: Coordinator)
    requires Next(s, s') && c in s.sessions && c in s'.sessions && s.sessions[c] != s'.sessions[c]
    ensures AcquireStep(s, s', c) || RenewStep(s, s', c) || ReleaseStep(s, s', c) || GiveUp(s, s', c)
  {
    var d :| d in s.sessions && (AcquireStep(s, s', d) || RenewStep(s, s', d) || ReleaseStep(s, s', d) || GiveUp(s, s', d));
    if d != c && !GiveUp(s, s', d) {
      StepKeepsOthers(s, s', d, c);
    }
  }

  /** The claim a coordinator is granted is what the store says. */
  lemma GrantIsWhatIsStored(b: seq<State>, i: nat, c: Coordinator)
    requires Run(b) && i + 1 < |b| && c in b[i].sessions && c in b[i + 1].sessions
    requires b[i].sessions[c] != b[i + 1].sessions[c] && b[i + 1].sessions[c].Granted?
    ensures var claim := b[i + 1].sessions[c].claim;
            && b[i].sessions[c].Claiming? && b[i + 1].store.Present? && b[i + 1].store.spec == claim
            && claim.holder == Some(c.id) && claim.renewTime == Some(b[i].sessions[c].req.at)
  {
    RunKeepsInv(b, i);
    assert PhaseOk(b[i].store, b[i].clock, c, b[i].sessions[c]);
    assert Next(b[i], b[i + 1]);
    PhaseChangeIsOwn(b[i], b[i + 1], c);
  }

  /** So is the claim it holds once its renewal was accepted. */
  lemma RenewalIsWhatIsStored(b: seq<State>, i: nat, c: Coordinator)
    requires Run(b) && i + 1 < |b| && c in b[i].sessions && c in b[i + 1].sessions && b[i].sessions[c] != b[i + 1].sessions[c]
    requires b[i + 1].sessions[c].Holding? && b[i + 1].sessions[c].renewal.RenewApplied?
    ensures b[i].sessions[c].Holding? && b[i].sessions[c].renewal.RenewSent?
    ensures var claim := b[i + 1].sessions[c].renewal.renewed;
            && b[i + 1].store.Present? && b[i + 1].store.spec == claim
            && HolderOf(claim) == c.id && claim.renewTime == Some(b[i].sessions[c].renewal.req.at)
  {
    RunKeepsInv(b, i);
    assert PhaseOk(b[i].store, b[i].clock, c, b[i].sessions[c]);
    assert Next(b[i], b[i + 1]);
    PhaseChangeIsOwn(b[i], b[i + 1], c);
  }

  // --- what is free to take ---

  /** Nobody else is bound to respect `l`: it is free, one's own, timeless, or its recorded time is over. */
  predicate Free(l: LeaseSpec, c: Coordinator, now: int) {
    || l.holder in {None, Some(""), Some(c.id)}
    || (l.renewTime.None? && l.acquireTime.None?)
    || (var lasts := if l.durationSeconds.Some? && l.durationSeconds.value > 0 then l.durationSeconds.value * SECOND else c.leaseDuration;
        if l.renewTime.Some? then l.renewTime.value + lasts <= now else l.acquireTime.value + lasts <= now)
  }

  lemma FreeIsAvailable(l: LeaseSpec, c: Coordinator, now: int)
    ensures Available(c, l, now) <==> Free(l, c, now)
  {
  }

  /** The claim that a coordinator builds on the lease it read, now. */
  function ClaimNow(c: Coordinator, seen: Store, now: int): Request
    requires seen.Present?
  {
    Request(c, Claim, Some(seen.version), seen.spec, Claimed(c, seen.spec, now), now, now)
  }

  lemma ClaimerFoundItFree(s: State, s': State, c: Coordinator)
    requires Next(s, s') && c in s.sessions && s.sessions[c].Inspected? && s.sessions[c].seen.Present?
    requires c in s'.sessions && s'.sessions[c].Claiming?
    ensures Free(s.sessions[c].seen.spec, c, s.clock)
  {
    PhaseChangeIsOwn(s, s', c);
    FreeIsAvailable(s.sessions[c].seen.spec, c, s'.sessions[c].req.checkedAt);
  }

  /** A step after which `c` has a claim on its way. */
  ghost predicate SendsClaim(s: State, s': State, c: Coordinator) {
    Next(s, s') && c in s'.sessions && s'.sessions[c].Claiming?
  }

  /** A coordinator that read the lease can send a claim exactly when the lease is free to take by now. */
  lemma ClaimableIff(b: seq<State>, i: nat, c: Coordinator)
    requires Run(b) && i < |b| && c in b[i].sessions && b[i].sessions[c].Inspected? && b[i].sessions[c].seen.Present?
    ensures Free(b[i].sessions[c].seen.spec, c, b[i].clock) <==> exists s' :: SendsClaim(b[i], s', c)
  {
    var s := b[i];
    if s' :| SendsClaim(s, s', c) {
      ClaimerFoundItFree(s, s', c);
    }
    if Free(s.sessions[c].seen.spec, c, s.clock) {
      ReadBefore(b, i, c);
      var s' := ClaimIsSent(s, c);
      assert SendsClaim(s, s', c);
    }
  }

  lemma ReadBefore(b: seq<State>, i: nat, c: Coordinator)
    requires Run(b) && i < |b| && c in b[i].sessions && b[i].sessions[c].Inspected?
    ensures b[i].sessions[c].readAt <= b[i].clock
  {
    RunKeepsInv(b, i);
    assert PhaseOk(b[i].store, b[i].clock, c, b[i].sessions[c]);
  }

  lemma ClaimIsSent(s: State, c: Coordinator) returns (s': State)
    requires c in s.sessions && s.sessions[c].Inspected? && s.sessions[c].seen.Present?
    requires s.sessions[c].readAt <= s.clock && Free(s.sessions[c].seen.spec, c, s.clock)
    ensures s' == s.(sessions := s.sessions[c := Claiming(ClaimNow(c, s.sessions[c].seen, s.clock))])
    ensures Next(s, s')
  {
    var seen, readAt := s.sessions[c].seen, s.sessions[c].readAt;
    var r := ClaimNow(c, seen, s.clock);
    FreeIsAvailable(seen.spec, c, s.clock);
    s' := s.(sessions := s.sessions[c := Claiming(r)]);
    assert Sends(s, c, seen, readAt, r);
    assert AcquireStep(s, s', c);
  }

  /** If the store did not move since it was read, the claim is granted, and then held. */
  lemma FreeLeaseIsGranted(b: seq<State>, i: nat, c: Coordinator) returns (sent: State, granted: State, held: State)
    requires Run(b) && i < |b| && c in b[i].sessions && b[i].sessions[c].Inspected? && b[i].sessions[c].seen == b[i].store
    requires b[i].store.Present? && Free(b[i].store.spec, c, b[i].clock)
    ensures Next(b[i], sent) && Next(sent, granted)
    ensures granted.store.Present? && granted.store.spec.holder == Some(c.id) && granted.store.spec.renewTime == Some(b[i].clock)
    ensures granted.sessions == b[i].sessions[c := Granted(granted.store.spec)]
    ensures Next(granted, held) && held == granted.(sessions := b[i].sessions[c := Holding(granted.store.spec, NoRenewal)])
  {
    ReadBefore(b, i, c);
    sent := ClaimIsSent(b[i], c);
    var r := ClaimNow(c, b[i].store, b[i].clock);
    granted := sent.(store := Apply(sent.store, r), sessions := sent.sessions[c := Granted(r.spec)]);
    assert AcquireStep(sent, granted, c);
    held := granted.(sessions := b[i].sessions[c := Holding(r.spec, NoRenewal)]);
    assert AcquireStep(granted, held, c);
  }

  /** The renewal that a holder builds on the lease it read, now. */
  function RenewNow(c: Coordinator, seen: Store, now: int): Request
    requires seen.Present?
  {
    Request(c, Renew, Some(seen.version), seen.spec, Renewed(c, seen.spec, now), now, now)
  }

  lemma RenewalIsSent(s: State, c: Coordinator) returns (s': State)
    requires c in s.sessions && s.sessions[c].Holding? && s.sessions[c].renewal.RenewRead?
    requires s.sessions[c].renewal.readAt <= s.clock && s.sessions[c].renewal.seen == s.store
    requires s.store.Present? && HolderOf(s.store.spec) == c.id
    ensures s' == s.(sessions := s.sessions[c := Holding(s.sessions[c].claim, RenewSent(RenewNow(c, s.store, s.clock)))])
    ensures Next(s, s')
  {
    var r := RenewNow(c, s.store, s.clock);
    s' := s.(sessions := s.sessions[c := Holding(s.sessions[c].claim, RenewSent(r))]);
    assert Sends(s, c, s.store, s.sessions[c].renewal.readAt, r);
    assert RenewStep(s, s', c);
  }

  /** A holder that read its own lease can have it renewed, if the store did not move, and then holds the longer claim. */
  lemma HolderCanRenew(b: seq<State>, i: nat, c: Coordinator) returns (sent: State, renewed: State, held: State)
    requires Run(b) && i < |b| && c in b[i].sessions && b[i].sessions[c].Holding? && b[i].sessions[c].renewal.RenewRead?
    requires b[i].sessions[c].renewal.seen == b[i].store && b[i].store.Present? && HolderOf(b[i].store.spec) == c.id
    ensures Next(b[i], sent) && Next(sent, renewed) && Next(renewed, held)
    ensures renewed.store.Present? && renewed.store.spec.renewTime == Some(b[i].clock)
    ensures held == renewed.(sessions := b[i].sessions[c := Holding(renewed.store.spec, NoRenewal)])
  {
    RenewReadBefore(b, i, c);
    var claim, r := b[i].sessions[c].claim, RenewNow(c, b[i].store, b[i].clock);
    sent := RenewalIsSent(b[i], c);
    renewed := sent.(store := Apply(sent.store, r), sessions := sent.sessions[c := Holding(claim, RenewApplied(r.spec))]);
    assert RenewStep(sent, renewed, c);
    held := renewed.(sessions := b[i].sessions[c := Holding(r.spec, NoRenewal)]);
    assert RenewStep(renewed, held, c);
  }

  lemma RenewReadBefore(b: seq<State>, i: nat, c: Coordinator)
    requires Run(b) && i < |b| && c in b[i].sessions && b[i].sessions[c].Holding? && b[i].sessions[c].renewal.RenewRead?
    ensures b[i].sessions[c].renewal.readAt <= b[i].clock
  {
    RunKeepsInv(b, i);
    assert PhaseOk(b[i].store, b[i].clock, c, b[i].sessions[c]);
  }
}
