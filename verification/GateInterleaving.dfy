/**
 The gate itself, and every interleaving of the informer thread with the releasing thread. Each locked
 section is one step; deliveries happen outside the lock.
 */
module GateInterleaving {
  import opened Prelude
  import opened EventGate

  datatype Pending = Pending(order: seq<Key>, byKey: map<Key, Event>, unkeyed: seq<Event>)

  const EMPTY := Pending([], map[], [])

  function Enqueued(p: Pending, e: Event): Pending {
    var k := KeyOf(e);
    if k == Unkeyed then p.(unkeyed := p.unkeyed + [e])
    else if k in p.byKey then p.(byKey := p.byKey[k := Coalesce(p.byKey[k], e)])
    else p.(order := p.order + [k], byKey := p.byKey[k := e])
  }

  /** The pending events of the listed keys, in that order. */
  function Listed(order: seq<Key>, byKey: map<Key, Event>): seq<Event> {
    if order == [] then []
    else
      var k := order[|order| - 1];
      Listed(order[..|order| - 1], byKey) + if k in byKey then [byKey[k]] else []
  }

  function Taken(p: Pending): seq<Event> { Listed(p.order, p.byKey) + p.unkeyed }

  /** The order lists every pending key once, and events sit under their own key. */
  ghost predicate WellFormed(p: Pending) {
    && (forall i, j :: 0 <= i < j < |p.order| ==> p.order[i] != p.order[j])
    && (forall k :: k in p.order <==> k in p.byKey)
    && (forall k :: k in p.byKey ==> k != Unkeyed && KeyOf(p.byKey[k]) == k)
    && (forall e :: e in p.unkeyed ==> KeyOf(e) == Unkeyed)
  }

  /** The fields of initialSyncEventGate and its two locked sections. */
  class Gate {
    var released: bool
    var releasing: bool
    var pendingOrder: seq<Key>
    var pendingByKey: map<Key, Event>
    var pendingUnkeyed: seq<Event>

    ghost function Contents(): Pending
      reads this
    {
      Pending(pendingOrder, pendingByKey, pendingUnkeyed)
    }

    /** The locked part of enqueue; `direct` asks the caller to deliver the event itself. */
    method Enqueue(e: Event) returns (direct: bool)
      modifies this
      ensures direct == old(released) == released && releasing == old(releasing)
      ensures Contents() == if direct then old(Contents()) else Enqueued(old(Contents()), e)
    {
      if released {
        return true;
      }
      var k := KeyOf(e);
      if k == Unkeyed {
        pendingUnkeyed := pendingUnkeyed + [e];
        return false;
      }
      var merged := e;
      if k !in pendingByKey {
        pendingOrder := pendingOrder + [k];
      } else {
        merged := Coalesce(pendingByKey[k], e);
      }
      pendingByKey := pendingByKey[k := merged];
      return false;
    }

    method TakePending() returns (events: seq<Event>)
      modifies this
      ensures released == old(released) && releasing == old(releasing)
      ensures events == Taken(old(Contents())) && Contents() == EMPTY
    {
      events := [];
      var i := 0;
      while i < |pendingOrder|
        invariant 0 <= i <= |pendingOrder|
        invariant events == Listed(pendingOrder[..i], pendingByKey)
      {
        var key := pendingOrder[i];
        assert pendingOrder[..i + 1][..i] == pendingOrder[..i];
        if key in pendingByKey {
          events := events + [pendingByKey[key]];
        }
        i := i + 1;
      }
      assert pendingOrder[..i] == pendingOrder;
      events := events + pendingUnkeyed;
      pendingOrder, pendingByKey, pendingUnkeyed := [], map[], [];
    }

    /** The first locked section of Release; only one caller ever gets to deliver. */
    method BeginRelease() returns (proceed: bool, events: seq<Event>)
      modifies this
      ensures proceed == !(old(released) || old(releasing)) && released == old(released)
      ensures proceed ==> releasing && events == Taken(old(Contents())) && Contents() == EMPTY
      ensures !proceed ==> releasing == old(releasing) && Contents() == old(Contents())
    {
      if released || releasing {
        return false, [];
      }
      releasing := true;
      events := TakePending();
      return true, events;
    }

    /** The locked section between two batches: the gate opens only when nothing arrived meanwhile. */
    method NextBatchOrOpen() returns (events: seq<Event>)
      requires releasing && !released
      modifies this
      ensures events == Taken(old(Contents())) && Contents() == EMPTY
      ensures released == (events == []) && releasing == (events != [])
    {
      events := TakePending();
      if events == [] {
        released, releasing := true, false;
      }
    }
  }

  // --- interleavings ---

  /** `batch` is what the releasing thread still has to deliver, `direct` what the informer thread delivers itself. */
  datatype State = State(
    released: bool,
    releasing: bool,
    pending: Pending,
    batch: seq<Event>,
    direct: Option<Event>,
    raw: seq<Event>,
    delivered: seq<Event>)

  predicate Init(s: State) {
    s == State(false, false, EMPTY, [], None, [], [])
  }

  /** The informer hands out events one at a time. */
  predicate Receive(s: State, t: State, e: Event) {
    && s.direct == None
    && t == if s.released then s.(raw := s.raw + [e], direct := Some(e))
            else s.(raw := s.raw + [e], pending := Enqueued(s.pending, e))
  }

  predicate DeliverDirect(s: State, t: State) {
    s.direct.Some? && t == s.(direct := None, delivered := s.delivered + [s.direct.value])
  }

  predicate StartRelease(s: State, t: State) {
    && !s.released && !s.releasing
    && t == s.(releasing := true, batch := Taken(s.pending), pending := EMPTY)
  }

  predicate DeliverFromBatch(s: State, t: State) {
    s.releasing && s.batch != [] && t == s.(batch := s.batch[1..], delivered := s.delivered + [s.batch[0]])
  }

  predicate NextBatch(s: State, t: State) {
    && s.releasing && s.batch == []
    && var events := Taken(s.pending);
       t == if events == [] then s.(released := true, releasing := false, pending := EMPTY)
            else s.(batch := events, pending := EMPTY)
  }

  ghost predicate Next(s: State, t: State) {
    || (exists e :: Receive(s, t, e))
    || DeliverDirect(s, t) || StartRelease(s, t) || DeliverFromBatch(s, t) || NextBatch(s, t)
    || t == s  // a second Release returns at once
  }

  ghost predicate Run(b: seq<State>) {
    && b != [] && Init(b[0])
    && forall i :: 0 <= i < |b| - 1 ==> Next(b[i], b[i + 1])
  }

  function ForKey(events: seq<Event>, k: Key): seq<Event> {
    if events == [] then []
    else
      var last := events[|events| - 1];
      ForKey(events[..|events| - 1], k) + if KeyOf(last) == k then [last] else []
  }

  lemma {:induction false} ForKeyAppend(a: seq<Event>, b: seq<Event>, k: Key)
    ensures ForKey(a + b, k) == ForKey(a, k) + ForKey(b, k)
    decreases |b|
  {
    if b == [] {
      assert a + b == a;
    } else {
      ForKeyAppend(a, b[..|b| - 1], k);
      assert (a + b)[..|a + b| - 1] == a + b[..|b| - 1];
    }
  }

  lemma {:induction false} ForKeyOfUniform(events: seq<Event>, k: Key, j: Key)
    requires forall e :: e in events ==> KeyOf(e) == j
    ensures ForKey(events, k) == if k == j then events else []
    decreases |events|
  {
    if events != [] {
      ForKeyOfUniform(events[..|events| - 1], k, j);
      assert events == events[..|events| - 1] + [events[|events| - 1]];
    }
  }

  lemma {:induction false} ForKeyOfListed(order: seq<Key>, byKey: map<Key, Event>, k: Key)
    requires forall i, j :: 0 <= i < j < |order| ==> order[i] != order[j]
    requires forall j :: j in byKey ==> KeyOf(byKey[j]) == j
    ensures ForKey(Listed(order, byKey), k) == if k in order && k in byKey then [byKey[k]] else []
    decreases |order|
  {
    if order != [] {
      var init, last := order[..|order| - 1], order[|order| - 1];
      ForKeyOfListed(init, byKey, k);
      var tail := if last in byKey then [byKey[last]] else [];
      ForKeyAppend(Listed(init, byKey), tail, k);
      ForKeyOfUniform(tail, k, last);
      assert order == init + [last];
    }
  }

  function PendingFor(p: Pending, k: Key): seq<Event> {
    if k == Unkeyed then p.unkeyed else if k in p.byKey then [p.byKey[k]] else []
  }

  lemma ForKeyOfTaken(p: Pending, k: Key)
    requires WellFormed(p)
    ensures ForKey(Taken(p), k) == PendingFor(p, k)
  {
    ForKeyOfListed(p.order, p.byKey, k);
    ForKeyAppend(Listed(p.order, p.byKey), p.unkeyed, k);
    ForKeyOfUniform(p.unkeyed, k, Unkeyed);
  }

  function Front(s: State, k: Key): seq<Event> { ForKey(s.delivered, k) + ForKey(s.batch, k) }

  function Rest(s: State, k: Key): seq<Event> {
    PendingFor(s.pending, k) + if s.direct.Some? && KeyOf(s.direct.value) == k then [s.direct.value] else []
  }

  /** Everything the gate has delivered or still holds for a key, oldest first. */
  function Outcome(s: State, k: Key): seq<Event> { Front(s, k) + Rest(s, k) }

  /** Keyed events are delivered merged, the others one by one. */
  ghost predicate Accounted(raw: seq<Event>, out: seq<Event>, k: Key) {
    if k == Unkeyed then raw == out else Delivers(raw, out)
  }

  ghost predicate Inv(s: State) {
    && WellFormed(s.pending)
    && (s.batch != [] ==> s.releasing)
    && (s.released ==> !s.releasing && s.pending == EMPTY)
    && (s.direct.Some? ==> s.released)
    && forall k :: Accounted(ForKey(s.raw, k), Outcome(s, k), k)
  }

  lemma Appended(raw: seq<Event>, out: seq<Event>, e: Event)
    requires Delivers(raw, out)
    ensures Delivers(raw + [e], out + [e])
  {
    var r := raw + [e];
    assert r[|raw|..] == [e] && r[..|raw|] == raw;
    DeliversWithCut(r, out, e, |raw|);
  }

  lemma CollapseOfLonger(segment: seq<Event>, e: Event)
    requires segment != []
    ensures Collapse(segment + [e]) == Coalesce(Collapse(segment), e)
  {
    assert (segment + [e])[..|segment|] == segment;
  }

  lemma Merged(raw: seq<Event>, out: seq<Event>, held: Event, e: Event)
    requires Delivers(raw, out + [held])
    ensures Delivers(raw + [e], out + [Coalesce(held, e)])
  {
    var c := LastCut(raw, out, held);
    var r := raw + [e];
    assert r[..c] == raw[..c] && r[c..] == raw[c..] + [e];
    CollapseOfLonger(raw[c..], e);
    DeliversWithCut(r, out, Coalesce(held, e), c);
  }

  lemma ReceiveLeavesOthers(s: State, t: State, e: Event, k: Key)
    requires Receive(s, t, e) && KeyOf(e) != k
    ensures ForKey(t.raw, k) == ForKey(s.raw, k) && Outcome(t, k) == Outcome(s, k)
  {
    assert t.raw[..|t.raw| - 1] == s.raw;
    assert PendingFor(t.pending, k) == PendingFor(s.pending, k);
  }

  /** A new event is added to what the gate holds of its key, or merged into it. */
  lemma ReceiveRest(s: State, t: State, e: Event, k: Key)
    requires Receive(s, t, e) && KeyOf(e) == k && (s.released ==> s.pending == EMPTY)
    ensures if k != Unkeyed && k in s.pending.byKey
            then Rest(s, k) == [s.pending.byKey[k]] && Rest(t, k) == [Coalesce(s.pending.byKey[k], e)]
            else Rest(t, k) == Rest(s, k) + [e]
  {
  }

  lemma AccountGrows(raw: seq<Event>, front: seq<Event>, rest: seq<Event>, e: Event, k: Key)
    requires Accounted(raw, front + rest, k)
    ensures Accounted(raw + [e], front + (rest + [e]), k)
  {
    assert front + (rest + [e]) == front + rest + [e];
    if k != Unkeyed {
      Appended(raw, front + rest, e);
    }
  }

  lemma ReceiveRaw(s: State, t: State, e: Event, k: Key)
    requires Receive(s, t, e) && KeyOf(e) == k
    ensures ForKey(t.raw, k) == ForKey(s.raw, k) + [e] && Front(t, k) == Front(s, k)
  {
    assert t.raw[..|t.raw| - 1] == s.raw;
  }

  lemma ReceiveAccounts(s: State, t: State, e: Event, k: Key)
    requires Receive(s, t, e) && KeyOf(e) == k && (s.released ==> s.pending == EMPTY)
    requires Accounted(ForKey(s.raw, k), Outcome(s, k), k)
    ensures Accounted(ForKey(t.raw, k), Outcome(t, k), k)
  {
    ReceiveRest(s, t, e, k);
    ReceiveRaw(s, t, e, k);
    if k != Unkeyed && k in s.pending.byKey {
      Merged(ForKey(s.raw, k), Front(s, k), s.pending.byKey[k], e);
    } else {
      AccountGrows(ForKey(s.raw, k), Front(s, k), Rest(s, k), e, k);
    }
  }

  lemma EnqueuedWellFormed(p: Pending, e: Event)
    requires WellFormed(p)
    ensures WellFormed(Enqueued(p, e))
  {
    assert forall held :: held in p.byKey.Values && KeyOf(held) == KeyOf(e) ==> KeyOf(Coalesce(held, e)) == KeyOf(e);
  }

  lemma ReceiveKeepsInv(s: State, t: State, e: Event)
    requires Inv(s) && Receive(s, t, e)
    ensures Inv(t)
  {
    EnqueuedWellFormed(s.pending, e);
    forall k ensures Accounted(ForKey(t.raw, k), Outcome(t, k), k) {
      assert Accounted(ForKey(s.raw, k), Outcome(s, k), k);
      if KeyOf(e) == k {
        ReceiveAccounts(s, t, e, k);
      } else {
        ReceiveLeavesOthers(s, t, e, k);
      }
    }
  }

  lemma ForKeyOfOne(e: Event, k: Key)
    ensures ForKey([e], k) == if KeyOf(e) == k then [e] else []
  {
    assert [e][..0] == [];
  }

  lemma DirectKeepsOutcome(s: State, t: State, k: Key)
    requires DeliverDirect(s, t) && s.batch == [] && s.pending == EMPTY
    ensures Outcome(t, k) == Outcome(s, k)
  {
    var e := s.direct.value;
    ForKeyAppend(s.delivered, [e], k);
    ForKeyOfOne(e, k);
    assert PendingFor(EMPTY, k) == [];
    assert Front(s, k) == ForKey(s.delivered, k) && Front(t, k) == ForKey(t.delivered, k);
    assert Rest(s, k) == ForKey([e], k) && Rest(t, k) == [];
  }

  lemma BatchKeepsOutcome(s: State, t: State, k: Key)
    requires DeliverFromBatch(s, t)
    ensures Outcome(t, k) == Outcome(s, k)
  {
    var e := s.batch[0];
    ForKeyAppend(s.delivered, [e], k);
    assert s.batch == [e] + s.batch[1..];
    ForKeyAppend([e], s.batch[1..], k);
    assert Front(t, k) == Front(s, k);
    assert Rest(t, k) == Rest(s, k);
  }

  lemma TakeKeepsOutcome(s: State, t: State, k: Key)
    requires Inv(s) && (StartRelease(s, t) || NextBatch(s, t))
    ensures Outcome(t, k) == Outcome(s, k)
  {
    ForKeyOfTaken(s.pending, k);
    assert s.batch == [] && s.direct == None;
    assert Rest(s, k) == PendingFor(s.pending, k) && Rest(t, k) == [];
    assert Front(s, k) == ForKey(s.delivered, k) && Front(t, k) == ForKey(s.delivered, k) + PendingFor(s.pending, k);
  }

  lemma NextKeepsInv(s: State, t: State)
    requires Inv(s) && Next(s, t)
    ensures Inv(t)
  {
    if e :| Receive(s, t, e) {
      ReceiveKeepsInv(s, t, e);
    } else if DeliverDirect(s, t) {
      forall k ensures Accounted(ForKey(t.raw, k), Outcome(t, k), k) {
        assert Accounted(ForKey(s.raw, k), Outcome(s, k), k);
        DirectKeepsOutcome(s, t, k);
      }
    } else if DeliverFromBatch(s, t) {
      forall k ensures Accounted(ForKey(t.raw, k), Outcome(t, k), k) {
        assert Accounted(ForKey(s.raw, k), Outcome(s, k), k);
        BatchKeepsOutcome(s, t, k);
      }
    } else if StartRelease(s, t) || NextBatch(s, t) {
      forall k ensures Accounted(ForKey(t.raw, k), Outcome(t, k), k) {
        assert Accounted(ForKey(s.raw, k), Outcome(s, k), k);
        TakeKeepsOutcome(s, t, k);
      }
    }
  }

  lemma {:induction false} RunKeepsInv(b: seq<State>, i: nat)
    requires Run(b) && i < |b|
    ensures Inv(b[i])
    decreases i
  {
    if i > 0 {
      RunKeepsInv(b, i - 1);
      NextKeepsInv(b[i - 1], b[i]);
    }
  }

  /** Once released nothing stays behind: every event was delivered, in order per key, alone or merged. */
  lemma NothingStranded(b: seq<State>, i: nat, k: Key)
    requires Run(b) && i < |b| && b[i].released && b[i].direct == None
    ensures b[i].pending == EMPTY && b[i].batch == []
    ensures Accounted(ForKey(b[i].raw, k), ForKey(b[i].delivered, k), k)
  {
    RunKeepsInv(b, i);
    assert Accounted(ForKey(b[i].raw, k), Outcome(b[i], k), k);
    assert Outcome(b[i], k) == ForKey(b[i].delivered, k);
  }

  /** At every moment, what was delivered is a merged delivery of a prefix of what the informer sent. */
  lemma DeliveredIsAPrefix(raw: seq<Event>, out: seq<Event>, m: nat) returns (p: nat)
    requires Delivers(raw, out) && m <= |out|
    ensures p <= |raw| && Delivers(raw[..p], out[..m])
    decreases |out|
  {
    if m == |out| {
      assert raw[..|raw|] == raw && out[..m] == out;
      return |raw|;
    }
    var c :| 0 <= c < |raw| && Delivers(raw[..c], out[..|out| - 1]);
    p := DeliveredIsAPrefix(raw[..c], out[..|out| - 1], m);
    assert raw[..c][..p] == raw[..p] && out[..|out| - 1][..m] == out[..m];
  }

  /** The gate is open and the informer thread has nothing left to deliver. */
  predicate Open(s: State) { s.released && s.direct == None }

  /** Without a revival the handler serves, after release, what it would have served without the gate. */
  lemma SameAsUngated(b: seq<State>, i: nat, k: Key)
    requires Run(b) && i < |b| && Open(b[i]) && k != Unkeyed
    requires Valid(ForKey(b[i].raw, k)) && NoRevival(ForKey(b[i].raw, k))
    ensures SameServed(Desired(ForKey(b[i].delivered, k)), Desired(ForKey(b[i].raw, k)))
    ensures Matches(View(ForKey(b[i].raw, k)), Desired(ForKey(b[i].delivered, k)))
  {
    NothingStranded(b, i, k);
    MergingTracks(ForKey(b[i].raw, k), ForKey(b[i].delivered, k));
    SameAsUnmerged(ForKey(b[i].raw, k), ForKey(b[i].delivered, k));
  }

  /** At every moment of every run the handler serves what the informer's store held at some earlier point. */
  lemma ServesAnEarlierView(b: seq<State>, i: nat, k: Key) returns (p: nat)
    requires Run(b) && i < |b| && k != Unkeyed
    requires Valid(ForKey(b[i].raw, k)) && NoRevival(ForKey(b[i].raw, k))
    ensures p <= |ForKey(b[i].raw, k)|
    ensures Matches(View(ForKey(b[i].raw, k)[..p]), Desired(ForKey(b[i].delivered, k)))
  {
    RunKeepsInv(b, i);
    var raw, out, done := ForKey(b[i].raw, k), Outcome(b[i], k), ForKey(b[i].delivered, k);
    assert Accounted(raw, out, k);
    p := DeliveredIsAPrefix(raw, out, |done|);
    assert out[..|done|] == done;
    ValidPrefix(raw, p);
    NoRevivalPrefix(raw, p);
    MergingTracks(raw[..p], done);
  }
}
