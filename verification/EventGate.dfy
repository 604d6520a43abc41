/**
 The initial-sync gate in front of the VirtualIP handler: events are merged per key until the gate is
 released, and a releasing thread hands over to direct delivery while the informer keeps sending.
 */
module EventGate {
  import opened Prelude

  /** `rest` stands for what the handler does not compare: status, labels, UID. */
  datatype VirtualIp = VirtualIp(namespace: string, name: string, generation: int, spec: string, terminating: bool, rest: string)

  datatype Payload = Live(vip: VirtualIp) | Tombstone(last: Option<VirtualIp>) | Foreign

  datatype Event = Add(obj: Payload, isInInitialList: bool) | Update(oldObj: Payload, obj: Payload) | Delete(obj: Payload)

  /** "namespace/name" as a pair; neither part contains a slash. `Unkeyed` is the empty string. */
  datatype Key = Unkeyed | Key(namespace: string, name: string)

  function PayloadKey(p: Payload): Key {
    var vip := match p case Live(v) => Some(v) case Tombstone(v) => v case Foreign => None;
    if vip.None? || vip.value.namespace == "" || vip.value.name == "" then Unkeyed
    else Key(vip.value.namespace, vip.value.name)
  }

  function KeyOf(e: Event): Key { PayloadKey(e.obj) }

  /** The event is about the object of that namespace and name. */
  predicate About(e: Event, namespace: string, name: string) {
    match e.obj
    case Live(v) => v.namespace == namespace && v.name == name
    case Tombstone(last) => last.Some? && last.value.namespace == namespace && last.value.name == name
    case Foreign => false
  }

  /** Events share a key exactly when they are about the same object; without a namespace or a name there is no key. */
  lemma KeyNamesObject(e: Event, namespace: string, name: string)
    ensures KeyOf(e) == Key(namespace, name) <==> namespace != "" && name != "" && About(e, namespace, name)
    ensures KeyOf(e) == Unkeyed <==> forall n, m :: n != "" && m != "" ==> !About(e, n, m)
  {
    if KeyOf(e) != Unkeyed {
      assert About(e, KeyOf(e).namespace, KeyOf(e).name);
    }
  }

  /** coalescePendingEvent, for an event that is pending. */
  function Coalesce(existing: Event, next: Event): Event {
    if existing.Add? && next.Update? then Add(next.obj, existing.isInInitialList)
    else if existing.Update? && next.Update? then Update(existing.oldObj, next.obj)
    else next
  }

  /** sameObservedSpec: the update that the handler ignores. */
  predicate SameObserved(a: VirtualIp, b: VirtualIp) {
    a.generation == b.generation && a.spec == b.spec
  }

  /** The VIP the agent should serve after the handler saw one more event. */
  function Handle(desired: Option<VirtualIp>, e: Event): Option<VirtualIp> {
    match e
    case Add(Live(v), _) => if v.terminating then None else Some(v)
    case Update(was, Live(v)) =>
      if v.terminating then None
      else if was.Live? && SameObserved(was.vip, v) then desired
      else Some(v)
    case Delete(Live(_)) => None
    case Delete(Tombstone(Some(_))) => None
    case _ => desired
  }

  function Desired(events: seq<Event>): Option<VirtualIp> {
    if events == [] then None else Handle(Desired(events[..|events| - 1]), events[|events| - 1])
  }

  // --- what the informer promises about the events of one key ---

  /** The object the informer's store holds after the events. */
  function View(events: seq<Event>): Option<VirtualIp> {
    if events == [] then None
    else
      match events[|events| - 1]
      case Add(Live(v), _) => Some(v)
      case Update(_, Live(v)) => Some(v)
      case _ => None
  }

  predicate ValidNext(view: Option<VirtualIp>, e: Event) {
    match e
    case Add(obj, _) => obj.Live?
    case Update(was, obj) => obj.Live? && was.Live? && view == Some(was.vip)
    case Delete(obj) => obj.Live? || (obj.Tombstone? && obj.last.Some?)
  }

  /** Every update starts from the stored object. */
  ghost predicate Valid(events: seq<Event>) {
    forall i :: 0 <= i < |events| ==> ValidNext(View(events[..i]), events[i])
  }

  /** The handler would serve the generation and spec of the stored object, and nothing if that is being deleted. */
  predicate Matches(view: Option<VirtualIp>, desired: Option<VirtualIp>) {
    if view.None? || view.value.terminating then desired.None?
    else desired.Some? && desired.value.generation == view.value.generation && desired.value.spec == view.value.spec
  }

  ghost predicate Updates(events: seq<Event>, i: nat, j: nat) {
    i <= j < |events| && forall m :: i <= m <= j ==> events[m].Update? && events[m].oldObj.Live? && events[m].obj.Live?
  }

  /** Updates i to j lead from a terminating object to a live one with the same generation and spec. */
  ghost predicate Revives(events: seq<Event>, i: nat, j: nat) {
    && Updates(events, i, j)
    && events[i].oldObj.vip.terminating && !events[j].obj.vip.terminating
    && events[i].oldObj.vip.generation == events[j].obj.vip.generation && events[i].oldObj.vip.spec == events[j].obj.vip.spec
  }

  ghost predicate NoRevival(events: seq<Event>) {
    forall i: nat, j: nat :: !Revives(events, i, j)
  }

  // --- merged deliveries ---

  /** What pending events become when they are merged one after the other. */
  function Collapse(segment: seq<Event>): Event
    requires segment != []
  {
    var last := segment[|segment| - 1];
    if |segment| == 1 then last else Coalesce(Collapse(segment[..|segment| - 1]), last)
  }

  /** `out` is `raw` cut into consecutive non-empty segments, in order, each merged into one event. */
  ghost predicate Delivers(raw: seq<Event>, out: seq<Event>)
    decreases |out|
  {
    if out == [] then raw == []
    else exists c :: 0 <= c < |raw| && out[|out| - 1] == Collapse(raw[c..]) && Delivers(raw[..c], out[..|out| - 1])
  }

  lemma DeliversWithCut(raw: seq<Event>, out: seq<Event>, last: Event, c: nat)
    requires c < |raw| && last == Collapse(raw[c..]) && Delivers(raw[..c], out)
    ensures Delivers(raw, out + [last])
  {
    assert (out + [last])[..|out|] == out;
  }

  lemma LastCut(raw: seq<Event>, out: seq<Event>, last: Event) returns (c: nat)
    requires Delivers(raw, out + [last])
    ensures c < |raw| && last == Collapse(raw[c..]) && Delivers(raw[..c], out)
  {
    assert (out + [last])[..|out|] == out;
    c :| 0 <= c < |raw| && last == Collapse(raw[c..]) && Delivers(raw[..c], out);
  }

  lemma CollapseExtends(s: seq<Event>, i: nat, j: nat)
    requires i < j < |s|
    ensures Collapse(s[i..j + 1]) == Coalesce(Collapse(s[i..j]), s[j])
  {
    assert s[i..j + 1][..j - i] == s[i..j];
  }

  lemma UpdateFollowsObject(s: seq<Event>, j: nat)
    requires Valid(s) && j < |s| && s[j].Update?
    ensures j > 0 && !s[j - 1].Delete? && s[j].oldObj.Live? && s[j].obj.Live?
  {
    assert ValidNext(View(s[..j]), s[j]);
    assert j > 0 ==> s[..j][j - 1] == s[j - 1];
  }

  lemma UpdatesExtend(s: seq<Event>, i: nat, j: nat)
    requires i < j < |s| && Updates(s, i, j - 1) && s[j].Update? && s[j].oldObj.Live? && s[j].obj.Live?
    ensures Updates(s, i, j)
  {
  }

  lemma {:induction false} CollapseOf(s: seq<Event>, i: nat, j: nat)
    requires Valid(s) && i <= j < |s|
    ensures var c := Collapse(s[i..j + 1]);
            && c.obj == s[j].obj
            && (c.Delete? <==> s[j].Delete?)
            && (c.Update? ==> Updates(s, i, j) && c.oldObj == s[i].oldObj)
    decreases j
  {
    if s[j].Update? {
      UpdateFollowsObject(s, j);
    }
    if i == j {
      assert s[i..j + 1] == [s[j]];
    } else {
      CollapseOf(s, i, j - 1);
      CollapseExtends(s, i, j);
      if s[j].Update? && Collapse(s[i..j]).Update? {
        UpdatesExtend(s, i, j);
      }
    }
  }

  /** One merged delivery moves the handler to the informer's view, if it was there before. */
  lemma MergedStepTracks(s: seq<Event>, i: nat, j: nat, desired: Option<VirtualIp>)
    requires Valid(s) && i <= j < |s| && !Revives(s, i, j)
    requires Matches(View(s[..i]), desired)
    ensures Matches(View(s[..j + 1]), Handle(desired, Collapse(s[i..j + 1])))
  {
    CollapseOf(s, i, j);
    assert s[..j + 1][j] == s[j];
    assert ValidNext(View(s[..j]), s[j]);
    assert ValidNext(View(s[..i]), s[i]);
  }

  lemma ValidPrefix(s: seq<Event>, p: nat)
    requires Valid(s) && p <= |s|
    ensures Valid(s[..p])
  {
    forall i | 0 <= i < p ensures ValidNext(View(s[..p][..i]), s[..p][i]) {
      assert s[..p][..i] == s[..i];
      assert ValidNext(View(s[..i]), s[i]);
    }
  }

  lemma NoRevivalPrefix(s: seq<Event>, p: nat)
    requires NoRevival(s) && p <= |s|
    ensures NoRevival(s[..p])
  {
    forall i: nat, j: nat ensures !Revives(s[..p], i, j) {
      if Revives(s[..p], i, j) {
        assert forall m :: i <= m <= j ==> s[..p][m] == s[m];
        assert Revives(s, i, j);
      }
    }
  }

  lemma LastStepTracks(raw: seq<Event>, c: nat, desired: Option<VirtualIp>)
    requires Valid(raw) && c < |raw| && NoRevival(raw)
    requires Matches(View(raw[..c]), desired)
    ensures Matches(View(raw), Handle(desired, Collapse(raw[c..])))
  {
    var j := |raw| - 1;
    assert !Revives(raw, c, j);
    MergedStepTracks(raw, c, j, desired);
    assert raw[..j + 1] == raw && raw[c..j + 1] == raw[c..];
  }

  /** However the events of one key are cut and merged, the handler ends where the informer is. */
  lemma {:induction false} MergingTracks(raw: seq<Event>, out: seq<Event>)
    requires Valid(raw) && NoRevival(raw) && Delivers(raw, out)
    ensures Matches(View(raw), Desired(out))
    decreases |out|
  {
    if out != [] {
      var before := out[..|out| - 1];
      var c :| 0 <= c < |raw| && out[|out| - 1] == Collapse(raw[c..]) && Delivers(raw[..c], before);
      ValidPrefix(raw, c);
      NoRevivalPrefix(raw, c);
      MergingTracks(raw[..c], before);
      LastStepTracks(raw, c, Desired(before));
    }
  }

  lemma {:induction false} UnmergedDelivers(raw: seq<Event>)
    ensures Delivers(raw, raw)
    decreases |raw|
  {
    if raw != [] {
      var c := |raw| - 1;
      UnmergedDelivers(raw[..c]);
      assert raw[c..] == [raw[c]];
    }
  }

  lemma {:induction false} CollapseUpdates(s: seq<Event>, i: nat, j: nat)
    requires Updates(s, i, j)
    ensures Collapse(s[i..j + 1]) == Update(s[i].oldObj, s[j].obj)
    decreases j
  {
    if i < j {
      assert s[i..j + 1][..|s[i..j + 1]| - 1] == s[i..j];
      CollapseUpdates(s, i, j - 1);
    }
  }

  lemma RevivalSkipsUpdate(raw: seq<Event>, i: nat, j: nat, desired: Option<VirtualIp>)
    requires Valid(raw) && Revives(raw, i, j) && Matches(View(raw[..i]), desired)
    ensures !Matches(View(raw[..j + 1]), Handle(desired, Collapse(raw[i..j + 1])))
  {
    CollapseUpdates(raw, i, j);
    assert ValidNext(View(raw[..i]), raw[i]);
    assert raw[..j + 1][j] == raw[j];
  }

  /** All but the events from `c` to `j` delivered one by one. */
  function MergedAt(raw: seq<Event>, c: nat, j: nat): seq<Event>
    requires c <= j < |raw|
  {
    raw[..c] + [Collapse(raw[c..j + 1])]
  }

  lemma MergedAtDelivers(raw: seq<Event>, c: nat, j: nat)
    requires c <= j < |raw|
    ensures Delivers(raw[..j + 1], MergedAt(raw, c, j))
    ensures Desired(MergedAt(raw, c, j)) == Handle(Desired(raw[..c]), Collapse(raw[c..j + 1]))
  {
    var p := raw[..j + 1];
    assert p[c..] == raw[c..j + 1] && p[..c] == raw[..c];
    UnmergedDelivers(raw[..c]);
    DeliversWithCut(p, raw[..c], Collapse(raw[c..j + 1]), c);
    assert MergedAt(raw, c, j)[..c] == raw[..c];
  }

  /** A revival leaves the handler behind for some cut of some prefix. */
  lemma RevivalIsMissed(raw: seq<Event>, i: nat, j: nat) returns (p: nat, out: seq<Event>)
    requires Valid(raw) && Revives(raw, i, j)
    ensures p <= |raw| && Delivers(raw[..p], out) && !Matches(View(raw[..p]), Desired(out))
  {
    if !Matches(View(raw[..i]), Desired(raw[..i])) {
      UnmergedDelivers(raw[..i]);
      p, out := i, raw[..i];
    } else {
      MergedAtDelivers(raw, i, j);
      RevivalSkipsUpdate(raw, i, j, Desired(raw[..i]));
      p, out := j + 1, MergedAt(raw, i, j);
    }
  }

  /** Merging is harmless, at every moment and for every timing, exactly for streams without a revival. */
  lemma HarmlessIff(raw: seq<Event>)
    requires Valid(raw)
    ensures NoRevival(raw) <==>
            forall p: nat, out :: p <= |raw| && Delivers(raw[..p], out) ==> Matches(View(raw[..p]), Desired(out))
  {
    if NoRevival(raw) {
      forall p: nat, out | p <= |raw| && Delivers(raw[..p], out) ensures Matches(View(raw[..p]), Desired(out)) {
        ValidPrefix(raw, p);
        NoRevivalPrefix(raw, p);
        MergingTracks(raw[..p], out);
      }
    } else {
      var i: nat, j: nat :| Revives(raw, i, j);
      var p, out := RevivalIsMissed(raw, i, j);
    }
  }

  // --- compared with delivery one by one ---

  /** The same generation and spec are served, or nothing. */
  predicate SameServed(a: Option<VirtualIp>, b: Option<VirtualIp>) {
    (a.Some? <==> b.Some?) && (a.Some? ==> a.value.generation == b.value.generation && a.value.spec == b.value.spec)
  }

  /** The revival that ends first, and of those the one that starts first. */
  ghost predicate FirstRevival(events: seq<Event>, i: nat, j: nat) {
    && Revives(events, i, j)
    && (forall m: nat, n: nat :: n < j ==> !Revives(events, m, n))
    && forall m: nat :: m < i ==> !Revives(events, m, j)
  }

  lemma {:induction false} SomeRevivalIsFirst(events: seq<Event>, m: nat, n: nat) returns (i: nat, j: nat)
    requires Revives(events, m, n)
    ensures FirstRevival(events, i, j)
    decreases n, m
  {
    if k: nat, l: nat :| l < n && Revives(events, k, l) {
      i, j := SomeRevivalIsFirst(events, k, l);
    } else if k: nat :| k < m && Revives(events, k, n) {
      i, j := SomeRevivalIsFirst(events, k, n);
    } else {
      i, j := m, n;
    }
  }

  lemma NoRevivalBefore(events: seq<Event>, i: nat, j: nat)
    requires FirstRevival(events, i, j)
    ensures NoRevival(events[..j])
  {
    forall m: nat, n: nat ensures !Revives(events[..j], m, n) {
      if Revives(events[..j], m, n) {
        assert forall k :: m <= k <= n ==> events[..j][k] == events[k];
        assert Revives(events, m, n);
      }
    }
  }

  /** Merged from the start of a revival on, the handler serves nothing. */
  lemma MergedRevivalServesNothing(raw: seq<Event>, i: nat, j: nat, desired: Option<VirtualIp>)
    requires Valid(raw) && Revives(raw, i, j) && Matches(View(raw[..i]), desired)
    ensures Handle(desired, Collapse(raw[i..j + 1])) == None
  {
    CollapseUpdates(raw, i, j);
    assert ValidNext(View(raw[..i]), raw[i]);
  }

  /** Merged from one event earlier on, it serves the revived object. */
  lemma MergedWithPreviousServes(raw: seq<Event>, i: nat, j: nat, desired: Option<VirtualIp>)
    requires Valid(raw) && FirstRevival(raw, i, j) && i > 0 && Matches(View(raw[..i - 1]), desired)
    ensures Handle(desired, Collapse(raw[i - 1..j + 1])).Some?
  {
    CollapseOf(raw, i - 1, j);
    assert ValidNext(View(raw[..i - 1]), raw[i - 1]) && ValidNext(View(raw[..j]), raw[j]);
    assert !Revives(raw, i - 1, j);
  }

  lemma RevivalHasPrevious(raw: seq<Event>, i: nat, j: nat)
    requires Valid(raw) && Revives(raw, i, j)
    ensures i > 0
  {
    assert ValidNext(View(raw[..i]), raw[i]);
  }

  lemma UnmergedTracks(raw: seq<Event>, i: nat, j: nat, c: nat)
    requires Valid(raw) && FirstRevival(raw, i, j) && c <= j
    ensures Matches(View(raw[..c]), Desired(raw[..c]))
  {
    NoRevivalBefore(raw, i, j);
    NoRevivalPrefix(raw[..j], c);
    assert raw[..j][..c] == raw[..c];
    ValidPrefix(raw, c);
    UnmergedDelivers(raw[..c]);
    MergingTracks(raw[..c], raw[..c]);
  }

  /** `out` delivers the first `p` events and ends elsewhere than delivering them one by one. */
  ghost predicate Divides(raw: seq<Event>, p: nat, out: seq<Event>) {
    p <= |raw| && Delivers(raw[..p], out) && !SameServed(Desired(out), Desired(raw[..p]))
  }

  /** Where one by one delivery serves something, merging the revival ends elsewhere. */
  lemma MergedAtStart(raw: seq<Event>, i: nat, j: nat)
    requires Valid(raw) && FirstRevival(raw, i, j) && Desired(raw[..j + 1]).Some?
    ensures Divides(raw, j + 1, MergedAt(raw, i, j))
  {
    UnmergedTracks(raw, i, j, i);
    MergedRevivalServesNothing(raw, i, j, Desired(raw[..i]));
    MergedAtDelivers(raw, i, j);
  }

  /** Where it serves nothing, merging from one event earlier on does. */
  lemma MergedBeforeStart(raw: seq<Event>, i: nat, j: nat)
    requires Valid(raw) && FirstRevival(raw, i, j) && i > 0 && Desired(raw[..j + 1]).None?
    ensures Divides(raw, j + 1, MergedAt(raw, i - 1, j))
  {
    UnmergedTracks(raw, i, j, i - 1);
    MergedWithPreviousServes(raw, i, j, Desired(raw[..i - 1]));
    MergedAtDelivers(raw, i - 1, j);
  }

  lemma FirstRevivalDivides(raw: seq<Event>, i: nat, j: nat) returns (out: seq<Event>)
    requires Valid(raw) && FirstRevival(raw, i, j) && i > 0
    ensures Divides(raw, j + 1, out)
  {
    var served := Desired(raw[..j + 1]);
    if served.Some? {
      MergedAtStart(raw, i, j);
      out := MergedAt(raw, i, j);
    } else {
      MergedBeforeStart(raw, i, j);
      out := MergedAt(raw, i - 1, j);
    }
  }

  /** A revival has a cut that ends elsewhere than one by one delivery. */
  lemma RevivalDivides(raw: seq<Event>, m: nat, n: nat) returns (p: nat, out: seq<Event>)
    requires Valid(raw) && Revives(raw, m, n)
    ensures Divides(raw, p, out)
  {
    var i, j := SomeRevivalIsFirst(raw, m, n);
    RevivalHasPrevious(raw, i, j);
    p := j + 1;
    out := FirstRevivalDivides(raw, i, j);
  }

  lemma SameAsUnmerged(raw: seq<Event>, out: seq<Event>)
    requires Valid(raw) && NoRevival(raw) && Delivers(raw, out)
    ensures SameServed(Desired(out), Desired(raw))
  {
    MergingTracks(raw, out);
    UnmergedDelivers(raw);
    MergingTracks(raw, raw);
  }

  lemma NothingDivides(raw: seq<Event>, p: nat, out: seq<Event>)
    requires Valid(raw) && NoRevival(raw)
    ensures !Divides(raw, p, out)
  {
    if p <= |raw| && Delivers(raw[..p], out) {
      ValidPrefix(raw, p);
      NoRevivalPrefix(raw, p);
      SameAsUnmerged(raw[..p], out);
    }
  }

  /** Merged and unmerged delivery serve the same, at every moment and for every timing, exactly without a revival. */
  lemma SameAsUnmergedIff(raw: seq<Event>)
    requires Valid(raw)
    ensures NoRevival(raw) <==> forall p: nat, out :: !Divides(raw, p, out)
  {
    if NoRevival(raw) {
      forall p: nat, out ensures !Divides(raw, p, out) {
        NothingDivides(raw, p, out);
      }
    } else {
      var m: nat, n: nat :| Revives(raw, m, n);
      var p, out := RevivalDivides(raw, m, n);
    }
  }

  /** A VIP deleted and created again between two listings, with the same generation and spec, is never served. */
  lemma RecreationCanBeMissed() returns (raw: seq<Event>, served: VirtualIp)
    ensures Valid(raw) && View(raw) == Some(served) && !served.terminating
    ensures Desired(raw) == None && raw != [] && Desired([Collapse(raw)]) == Some(served)
  {
    var gone := VirtualIp("ns", "vip", 2, "spec", true, "uid-1");
    served := VirtualIp("ns", "vip", 2, "spec", false, "uid-2");
    var first, second := Add(Live(gone), true), Update(Live(gone), Live(served));
    raw := [first, second];
    assert raw[..0] == [] && raw[..1] == [first] && [first][..0] == [];
    assert Desired([first]) == None;
    CollapseExtends(raw, 0, 1);
    assert raw[0..2] == raw && raw[0..1] == [first];
    var merged := [Add(Live(served), true)];
    assert merged == [Collapse(raw)] && merged[..0] == [];
    assert Desired(merged) == Handle(Desired([]), merged[0]);
  }
}
