/**
 Every way of cutting the events of a key into merged deliveries is the timing of some run of the gate:
 the releasing thread is between two batches while the events of one segment arrive.
 */
module GateTimings {
  import opened Prelude
  import opened EventGate
  import opened GateInterleaving

  ghost predicate Uniform(events: seq<Event>, k: Key) { forall e :: e in events ==> KeyOf(e) == k }

  function Last(b: seq<State>): State
    requires b != []
  {
    b[|b| - 1]
  }

  /** Releasing, with nothing pending and everything received so far delivered as `out`. */
  function Between(raw: seq<Event>, out: seq<Event>): State { State(false, true, EMPTY, [], None, raw, out) }

  /** The same with one merged event pending. */
  function Holding(raw: seq<Event>, out: seq<Event>, k: Key, e: Event): State {
    State(false, true, Pending([k], map[k := e], []), [], None, raw, out)
  }

  lemma RunExtends(b: seq<State>, s: State)
    requires Run(b) && Next(Last(b), s)
    ensures Run(b + [s]) && Last(b + [s]) == s
  {
    var c := b + [s];
    forall i | 0 <= i < |c| - 1 ensures Next(c[i], c[i + 1]) {
      assert i < |b| - 1 ==> Next(b[i], b[i + 1]);
    }
  }

  lemma ReceiveFirst(raw: seq<Event>, out: seq<Event>, e: Event, k: Key)
    requires KeyOf(e) == k && k != Unkeyed
    ensures Next(Between(raw, out), Holding(raw + [e], out, k, e))
  {
    assert Receive(Between(raw, out), Holding(raw + [e], out, k, e), e);
  }

  lemma ReceiveMore(raw: seq<Event>, out: seq<Event>, held: Event, e: Event, k: Key)
    requires KeyOf(e) == k && k != Unkeyed
    ensures Next(Holding(raw, out, k, held), Holding(raw + [e], out, k, Coalesce(held, e)))
  {
    assert Receive(Holding(raw, out, k, held), Holding(raw + [e], out, k, Coalesce(held, e)), e);
  }

  /** The events of a segment arrive and are merged. */
  lemma {:induction false} ReceiveSegment(b: seq<State>, raw: seq<Event>, out: seq<Event>, segment: seq<Event>, k: Key)
      returns (c: seq<State>)
    requires Run(b) && Last(b) == Between(raw, out) && segment != [] && Uniform(segment, k) && k != Unkeyed
    ensures Run(c) && Last(c) == Holding(raw + segment, out, k, Collapse(segment))
    decreases |segment|
  {
    var n := |segment| - 1;
    var e := segment[n];
    if n == 0 {
      assert segment == [e];
      ReceiveFirst(raw, out, e, k);
      c := b + [Holding(raw + [e], out, k, e)];
      RunExtends(b, Last(c));
    } else {
      var init := segment[..n];
      assert segment == init + [e] && raw + segment == raw + init + [e];
      var d := ReceiveSegment(b, raw, out, init, k);
      ReceiveMore(raw + init, out, Collapse(init), e, k);
      c := d + [Holding(raw + init + [e], out, k, Coalesce(Collapse(init), e))];
      RunExtends(d, Last(c));
    }
  }

  lemma DeliverHeld(b: seq<State>, raw: seq<Event>, out: seq<Event>, k: Key, e: Event) returns (c: seq<State>)
    requires Run(b) && Last(b) == Holding(raw, out, k, e)
    ensures Run(c) && Last(c) == Between(raw, out + [e])
  {
    var taken := State(false, true, EMPTY, [e], None, raw, out);
    var held := map[k := e];
    assert [k][..0] == [] && Listed([], held) == [];
    assert Listed([k], held) == Listed([k][..0], held) + [e] == [e];
    assert Taken(Last(b).pending) == [e] + [] == [e];
    assert NextBatch(Last(b), taken);
    RunExtends(b, taken);
    assert DeliverFromBatch(taken, Between(raw, out + [e]));
    RunExtends(b + [taken], Between(raw, out + [e]));
    c := b + [taken] + [Between(raw, out + [e])];
  }

  lemma {:induction false} CutHasRun(raw: seq<Event>, out: seq<Event>, k: Key) returns (b: seq<State>)
    requires Delivers(raw, out) && Uniform(raw, k) && k != Unkeyed
    ensures Run(b) && Last(b) == Between(raw, out)
    decreases |out|
  {
    if out == [] {
      var s := State(false, false, EMPTY, [], None, [], []);
      assert StartRelease(s, Between([], []));
      assert Run([s]);
      RunExtends([s], Between([], []));
      b := [s] + [Between([], [])];
    } else {
      var before, last := out[..|out| - 1], out[|out| - 1];
      assert out == before + [last];
      var c := LastCut(raw, before, last);
      assert raw == raw[..c] + raw[c..];
      var d := CutHasRun(raw[..c], before, k);
      d := ReceiveSegment(d, raw[..c], before, raw[c..], k);
      b := DeliverHeld(d, raw, before, k, last);
    }
  }

  /** After that the gate opens. */
  lemma TimingExists(raw: seq<Event>, out: seq<Event>, k: Key) returns (b: seq<State>)
    requires Delivers(raw, out) && Uniform(raw, k) && k != Unkeyed
    ensures Run(b) && Last(b) == State(true, false, EMPTY, [], None, raw, out)
  {
    var c := CutHasRun(raw, out, k);
    var open := State(true, false, EMPTY, [], None, raw, out);
    assert Taken(EMPTY) == [];
    assert NextBatch(Last(c), open);
    RunExtends(c, open);
    b := c + [open];
  }

  lemma {:induction false} CollapseKeepsKey(segment: seq<Event>, k: Key)
    requires segment != [] && Uniform(segment, k)
    ensures KeyOf(Collapse(segment)) == k
    decreases |segment|
  {
    assert segment[|segment| - 1] in segment;
    if |segment| > 1 {
      CollapseKeepsKey(segment[..|segment| - 1], k);
    }
  }

  lemma {:induction false} DeliveriesKeepKey(raw: seq<Event>, out: seq<Event>, k: Key)
    requires Delivers(raw, out) && Uniform(raw, k)
    ensures Uniform(out, k)
    decreases |out|
  {
    if out != [] {
      var before, last := out[..|out| - 1], out[|out| - 1];
      assert out == before + [last];
      var c := LastCut(raw, before, last);
      DeliveriesKeepKey(raw[..c], before, k);
      CollapseKeepsKey(raw[c..], k);
    }
  }

  /** The events of `k` that were received are `raw`, and the handler ended elsewhere than without the gate. */
  ghost predicate Diverges(b: seq<State>, raw: seq<Event>, k: Key) {
    && Run(b) && Open(Last(b)) && ForKey(Last(b).raw, k) == raw
    && !SameServed(Desired(ForKey(Last(b).delivered, k)), Desired(raw))
  }

  lemma RevivalDiverges(raw: seq<Event>, k: Key, i: nat, j: nat) returns (p: nat, b: seq<State>)
    requires Valid(raw) && Uniform(raw, k) && k != Unkeyed && Revives(raw, i, j)
    ensures p <= |raw| && Diverges(b, raw[..p], k)
  {
    var out;
    p, out := RevivalDivides(raw, i, j);
    b := TimingExists(raw[..p], out, k);
    DeliveriesKeepKey(raw[..p], out, k);
    ForKeyOfUniform(raw[..p], k, k);
    ForKeyOfUniform(out, k, k);
  }

  /**
   The events of a key fold to the same served VIP with the gate and without it, in every interleaving
   with whatever events of other keys and at whatever point the gate opens, if and only if no run of
   updates revives a terminating object with the same generation and spec.
   */
  lemma SameAsUngatedIff(raw: seq<Event>, k: Key)
    requires Valid(raw) && Uniform(raw, k) && k != Unkeyed
    ensures NoRevival(raw) <==> forall p: nat, b :: p <= |raw| ==> !Diverges(b, raw[..p], k)
  {
    if NoRevival(raw) {
      forall p: nat, b | p <= |raw| ensures !Diverges(b, raw[..p], k) {
        ValidPrefix(raw, p);
        NoRevivalPrefix(raw, p);
        if Run(b) && Open(Last(b)) && ForKey(Last(b).raw, k) == raw[..p] {
          SameAsUngated(b, |b| - 1, k);
        }
      }
    } else {
      var i: nat, j: nat :| Revives(raw, i, j);
      var p, b := RevivalDiverges(raw, k, i, j);
    }
  }
}
