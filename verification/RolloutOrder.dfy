/**
 Which rollout keys a disruptive change takes, and why taking them one inside the other cannot deadlock.
 */
module RolloutOrder {

  import opened StringOrder

  ghost predicate Ascending(keys: seq<string>) {
    forall i, j :: 0 <= i < j < |keys| ==> Less(keys[i], keys[j])
  }

  function Insert(keys: seq<string>, k: string): (r: seq<string>)
    ensures forall x :: x in r <==> x == k || x in keys
  {
    if keys == [] then [k]
    else if Less(k, keys[0]) then [k] + keys
    else
      assert keys == [keys[0]] + keys[1..];
      [keys[0]] + Insert(keys[1..], k)
  }

  lemma {:induction false} InsertKeepsAscending(keys: seq<string>, k: string)
    requires Ascending(keys) && k !in keys
    ensures Ascending(Insert(keys, k))
  {
    if keys != [] {
      LessIsTotal(k, keys[0]);
      if Less(k, keys[0]) {
        forall j | 0 <= j < |keys| ensures Less(k, keys[j]) {
          if j > 0 { LessIsTransitive(k, keys[0], keys[j]); }
        }
      } else {
        InsertKeepsAscending(keys[1..], k);
        forall x | x in Insert(keys[1..], k) ensures Less(keys[0], x) {
          if x != k {
            var j :| 0 <= j < |keys[1..]| && keys[1..][j] == x;
            assert keys[j + 1] == x;
          }
        }
      }
    }
  }

  function RolloutKey(address: string): string { "vip-address/" + address }

  lemma RolloutKeyIsInjective(a: string, b: string)
    ensures RolloutKey(a) == RolloutKey(b) <==> a == b
  {
    var n := |"vip-address/"|;
    assert RolloutKey(a)[n..] == a && RolloutKey(b)[n..] == b;
  }

  function NonEmpty(addresses: seq<string>): set<string> {
    set a | a in addresses && a != ""
  }

  /** The keys of the non-empty addresses. */
  function KeysOf(addresses: seq<string>): set<string> {
    set a | a in NonEmpty(addresses) :: RolloutKey(a)
  }

  lemma {:induction false} SizeOfKeys(addresses: set<string>)
    ensures |set a | a in addresses :: RolloutKey(a)| == |addresses|
    decreases addresses
  {
    if addresses != {} {
      var a :| a in addresses;
      var rest := addresses - {a};
      SizeOfKeys(rest);
      forall b | b in rest ensures RolloutKey(b) != RolloutKey(a) {
        RolloutKeyIsInjective(a, b);
      }
      assert (set b | b in addresses :: RolloutKey(b)) == (set b | b in rest :: RolloutKey(b)) + {RolloutKey(a)};
    }
  }

  lemma KeysOfStep(addresses: seq<string>, n: nat)
    requires n < |addresses|
    ensures KeysOf(addresses[..n + 1])
            == KeysOf(addresses[..n]) + if addresses[n] == "" then {} else {RolloutKey(addresses[n])}
  {
    assert addresses[..n + 1] == addresses[..n] + [addresses[n]];
  }

  ghost predicate NoRepeats(keys: seq<string>) { forall i, j :: 0 <= i < j < |keys| ==> keys[i] != keys[j] }

  /** `keys` lists `seen`, each once. */
  ghost predicate Lists(keys: seq<string>, seen: set<string>) {
    NoRepeats(keys) && |keys| == |seen| && forall k :: k in keys <==> k in seen
  }

  lemma ListsOneMore(keys: seq<string>, seen: set<string>, key: string)
    requires Lists(keys, seen) && key !in seen
    ensures Lists(keys + [key], seen + {key})
  {
  }

  /** rolloutKeysForAddresses: skip empty addresses and repeats, then sort. */
  method RolloutKeysForAddresses(addresses: seq<string>) returns (keys: seq<string>)
    ensures Ascending(keys)
    ensures forall k :: k in keys <==> k in KeysOf(addresses)
    ensures |keys| == |NonEmpty(addresses)|
  {
    var seen: set<string> := {};
    keys := [];
    for n := 0 to |addresses|
      invariant Lists(keys, seen) && seen == KeysOf(addresses[..n])
    {
      KeysOfStep(addresses, n);
      if addresses[n] == "" {
        continue;
      }
      var key := RolloutKey(addresses[n]);
      if key in seen {
        continue;
      }
      ListsOneMore(keys, seen, key);
      seen := seen + {key};
      keys := keys + [key];
    }
    assert addresses[..|addresses|] == addresses;
    SizeOfKeys(NonEmpty(addresses));
    keys := SortKeys(keys);
  }

  /** sort.Strings on a list without repeats. */
  method SortKeys(unsorted: seq<string>) returns (keys: seq<string>)
    requires NoRepeats(unsorted)
    ensures Ascending(keys) && |keys| == |unsorted|
    ensures forall k :: k in keys <==> k in unsorted
  {
    keys := [];
    for n := 0 to |unsorted|
      invariant Ascending(keys) && |keys| == n
      invariant forall k :: k in keys <==> k in unsorted[..n]
    {
      InsertKeepsAscending(keys, unsorted[n]);
      InsertGrows(keys, unsorted[n]);
      keys := Insert(keys, unsorted[n]);
      assert unsorted[..n + 1] == unsorted[..n] + [unsorted[n]];
    }
    assert unsorted[..|unsorted|] == unsorted;
  }

  lemma {:induction false} InsertGrows(keys: seq<string>, k: string)
    ensures |Insert(keys, k)| == |keys| + 1
  {
    if keys != [] && !Less(k, keys[0]) {
      InsertGrows(keys[1..], k);
    }
  }

  // --- nested exclusive sections ---

  /** What RunExclusive blocks on: the process-local lock of a key, then the cluster-wide Lease of that key. */
  datatype Resource = Local(agent: string, key: string) | Lease(key: string)

  /**
   One goroutine inside runExclusiveRollouts. It has acquired the first `held` of its resources and
   is either going deeper or, when `unwinding`, giving them back innermost first.
   */
  datatype Rollout = Rollout(agent: string, keys: seq<string>, held: nat, unwinding: bool)

  function ResourceAt(r: Rollout, n: nat): Resource
    requires n < 2 * |r.keys|
  {
    if n % 2 == 0 then Local(r.agent, r.keys[n / 2]) else Lease(r.keys[n / 2])
  }

  type Rollouts = map<nat, Rollout>

  ghost predicate Valid(r: Rollout) { Ascending(r.keys) && r.held <= 2 * |r.keys| }

  ghost predicate Holds(r: Rollout, x: Resource) {
    exists n :: 0 <= n < r.held && n < 2 * |r.keys| && ResourceAt(r, n) == x
  }

  predicate Wanting(r: Rollout) { !r.unwinding && r.held < 2 * |r.keys| }

  function Wanted(r: Rollout): Resource
    requires Wanting(r)
  {
    ResourceAt(r, r.held)
  }

  /** An edge of the hold/wait graph. */
  ghost predicate WaitsFor(s: Rollouts, i: nat, j: nat) {
    i in s && j in s && Wanting(s[i]) && Holds(s[j], Wanted(s[i]))
  }

  /**
   A rollout goes one level deeper, turns around (done, failed or cancelled), or gives one level back.
   Going deeper is not tied to the resource being free: an expired Lease is taken over from its holder.
   */
  ghost predicate Step(s: Rollouts, s': Rollouts, i: nat) {
    && i in s
    && var r := s[i];
       || (Wanting(r) && s' == s[i := r.(held := r.held + 1)])
       || (!r.unwinding && s' == s[i := r.(unwinding := true)])
       || (r.unwinding && r.held > 0 && s' == s[i := r.(held := r.held - 1)])
  }

  ghost predicate Next(s: Rollouts, s': Rollouts) { exists i :: Step(s, s', i) }

  ghost predicate Run(b: seq<Rollouts>) {
    && |b| > 0
    && (forall i :: i in b[0] ==> Ascending(b[0][i].keys) && b[0][i].held == 0)
    && forall n :: 0 <= n < |b| - 1 ==> Next(b[n], b[n + 1])
  }

  lemma {:induction false} RunKeepsValid(b: seq<Rollouts>, n: nat)
    requires Run(b) && n < |b|
    ensures forall i :: i in b[n] ==> Valid(b[n][i])
  {
    if n > 0 {
      RunKeepsValid(b, n - 1);
      assert Next(b[n - 1], b[n - 1 + 1]);
    }
  }

  predicate ResourceLess(x: Resource, y: Resource) {
    Less(x.key, y.key) || (x.key == y.key && x.Local? && y.Lease?)
  }

  lemma ResourceOrder(x: Resource, y: Resource, z: Resource)
    ensures !ResourceLess(x, x)
    ensures ResourceLess(x, y) && ResourceLess(y, z) ==> ResourceLess(x, z)
  {
    LessIsTotal(x.key, x.key);
    if Less(x.key, y.key) && Less(y.key, z.key) {
      LessIsTransitive(x.key, y.key, z.key);
    }
  }

  /** Along every edge of the hold/wait graph whose target also waits, the wanted resource grows. */
  lemma WaitingClimbs(s: Rollouts, i: nat, j: nat)
    requires WaitsFor(s, i, j) && Valid(s[j]) && Wanting(s[j])
    ensures ResourceLess(Wanted(s[i]), Wanted(s[j]))
  {
    var r := s[j];
    var n :| 0 <= n < r.held && n < 2 * |r.keys| && ResourceAt(r, n) == Wanted(s[i]);
    if n / 2 != r.held / 2 {
      assert Less(r.keys[n / 2], r.keys[r.held / 2]);
    }
  }

  ghost predicate Cycle(s: Rollouts, c: seq<nat>) {
    |c| >= 2 && c[0] == c[|c| - 1] && forall n :: 0 <= n < |c| - 1 ==> WaitsFor(s, c[n], c[n + 1])
  }

  lemma {:induction false} PathClimbs(s: Rollouts, c: seq<nat>, n: nat)
    requires forall i :: i in s ==> Valid(s[i])
    requires Cycle(s, c) && 1 <= n < |c|
    ensures c[0] in s && c[n] in s && Wanting(s[c[0]]) && Wanting(s[c[n]])
    ensures ResourceLess(Wanted(s[c[0]]), Wanted(s[c[n]]))
  {
    assert WaitsFor(s, c[0], c[0 + 1]) && WaitsFor(s, c[n - 1], c[n - 1 + 1]);
    assert n < |c| - 1 ==> WaitsFor(s, c[n], c[n + 1]);
    WaitingClimbs(s, c[n - 1], c[n]);
    if n > 1 {
      PathClimbs(s, c, n - 1);
      ResourceOrder(Wanted(s[c[0]]), Wanted(s[c[n - 1]]), Wanted(s[c[n]]));
    }
  }

  /** No reachable hold/wait graph, over any number of agents and goroutines, has a cycle. */
  lemma NoWaitCycle(b: seq<Rollouts>, n: nat, c: seq<nat>)
    requires Run(b) && n < |b|
    ensures !Cycle(b[n], c)
  {
    RunKeepsValid(b, n);
    if Cycle(b[n], c) {
      PathClimbs(b[n], c, |c| - 1);
      ResourceOrder(Wanted(b[n][c[0]]), Wanted(b[n][c[0]]), Wanted(b[n][c[0]]));
    }
  }

  lemma {:induction false} HighestWanted(s: Rollouts, of: set<nat>) returns (i: nat)
    requires of != {} && forall j :: j in of ==> j in s && Wanting(s[j])
    ensures i in of && forall j :: j in of ==> !ResourceLess(Wanted(s[i]), Wanted(s[j]))
    decreases of
  {
    var k :| k in of;
    ResourceOrder(Wanted(s[k]), Wanted(s[k]), Wanted(s[k]));
    if of == {k} {
      i := k;
    } else {
      i := HighestWanted(s, of - {k});
      if ResourceLess(Wanted(s[i]), Wanted(s[k])) {
        forall j | j in of ensures !ResourceLess(Wanted(s[k]), Wanted(s[j])) {
          ResourceOrder(Wanted(s[i]), Wanted(s[k]), Wanted(s[j]));
        }
        i := k;
      }
    }
  }

  predicate Finished(r: Rollout) { r.unwinding && r.held == 0 }

  /** As long as somebody is unfinished, some unfinished rollout is not waiting for anybody. */
  lemma SomebodyCanMove(b: seq<Rollouts>, n: nat, unfinished: nat)
    requires Run(b) && n < |b| && unfinished in b[n] && !Finished(b[n][unfinished])
    ensures exists i :: i in b[n] && !Finished(b[n][i]) && forall j :: j in b[n] ==> !WaitsFor(b[n], i, j)
  {
    RunKeepsValid(b, n);
    var s := b[n];
    var pending := set i | i in s && !Finished(s[i]);
    if i :| i in pending && !Wanting(s[i]) {
      assert forall j :: j in s ==> !WaitsFor(s, i, j);
    } else {
      assert unfinished in pending;
      var i := HighestWanted(s, pending);
      forall j | j in s ensures !WaitsFor(s, i, j) {
        if WaitsFor(s, i, j) {
          assert j in pending;
          WaitingClimbs(s, i, j);
        }
      }
    }
  }
}
