/** The Lease record that agents exchange, and what one coordinator does to a copy of it. */
module Lease {
  import opened Prelude

  /** Instants and durations are microseconds, the resolution in which a Lease stores its times. */
  const SECOND := 1_000_000
  const MAX_INT32 := 0x7fff_ffff

  datatype LeaseSpec = LeaseSpec(
    holder: Option<string>,
    durationSeconds: Option<int>,
    acquireTime: Option<int>,
    renewTime: Option<int>,
    transitions: Option<int>)

  /** One agent process: its holder identity and its configured lease duration. */
  datatype Coordinator = Coordinator(id: string, leaseDuration: int)

  function HolderOf(l: LeaseSpec): string {
    if l.holder.Some? then l.holder.value else ""
  }

  function DurationSeconds(d: int): (s: int)
    ensures 1 <= s <= MAX_INT32
    ensures s < MAX_INT32 ==> d <= s * SECOND
    ensures s > 1 ==> d > (s - 1) * SECOND
  {
    var ceil := (d + SECOND - 1) / SECOND;
    if ceil < 1 then 1 else if ceil > MAX_INT32 then MAX_INT32 else ceil
  }

  /** The instant a lease stops binding others: nothing when it records no time at all. */
  function ExpiresAt(l: LeaseSpec, fallback: int): Option<int> {
    var since := if l.renewTime.Some? then l.renewTime else l.acquireTime;
    var lasts := if l.durationSeconds.Some? && l.durationSeconds.value > 0
                 then l.durationSeconds.value * SECOND else fallback;
    if since.Some? then Some(since.value + lasts) else None
  }

  predicate Available(c: Coordinator, l: LeaseSpec, now: int) {
    || HolderOf(l) == ""
    || HolderOf(l) == c.id
    || var expiry := ExpiresAt(l, c.leaseDuration);
       expiry.None? || expiry.value <= now
  }

  /** int32 increment, with Go's wrap-around. */
  function Increment32(n: int): (r: int)
    ensures -0x8000_0000 <= n < 0x8000_0000 ==> -0x8000_0000 <= r < 0x8000_0000 && (r - n) % 0x1_0000_0000 == 1
  {
    if n == MAX_INT32 then -MAX_INT32 - 1 else n + 1
  }

  /** An absent counter counts as zero. */
  function TransitionsOf(l: LeaseSpec): int { if l.transitions.Some? then l.transitions.value else 0 }

  predicate TakesOver(c: Coordinator, l: LeaseSpec) {
    HolderOf(l) != "" && HolderOf(l) != c.id
  }

  function Created(c: Coordinator, now: int): LeaseSpec {
    LeaseSpec(Some(c.id), Some(DurationSeconds(c.leaseDuration)), Some(now), Some(now), Some(0))
  }

  function Claimed(c: Coordinator, l: LeaseSpec, now: int): LeaseSpec {
    var before := TransitionsOf(l);
    LeaseSpec(
      Some(c.id),
      Some(DurationSeconds(c.leaseDuration)),
      if l.acquireTime.None? || HolderOf(l) != c.id then Some(now) else l.acquireTime,
      Some(now),
      Some(if TakesOver(c, l) then Increment32(before) else before))
  }

  function Renewed(c: Coordinator, l: LeaseSpec, now: int): LeaseSpec {
    l.(renewTime := Some(now), durationSeconds := Some(DurationSeconds(c.leaseDuration)))
  }

  function Released(l: LeaseSpec, now: int): LeaseSpec {
    l.(holder := None, renewTime := Some(now))
  }
}
