/**
 How an agent reports which of the configured backends are healthy, and how the reports of several
 agents are put together again: a trimmed bitmap in hexadecimal, next to a detail list that is cut off.
 */
module HealthyBitmap {
  import opened Prelude

  type Address = string

  // --- bits and hexadecimal digits ---

  /** 1 << n, for the bit numbers of a byte. */
  function Mask(n: nat): bv8 {
    match n
    case 0 => 0x01 case 1 => 0x02 case 2 => 0x04 case 3 => 0x08
    case 4 => 0x10 case 5 => 0x20 case 6 => 0x40 case _ => 0x80
  }

  /** Bit `r` of byte `q`. */
  predicate BitAt(bytes: seq<bv8>, q: nat, r: nat) { q < |bytes| && bytes[q] & Mask(r) != 0 }

  predicate Bit(bytes: seq<bv8>, i: nat) { BitAt(bytes, i / 8, i % 8) }

  lemma MaskSetsOneBit(b: bv8, i: nat, j: nat)
    requires i < 8 && j < 8
    ensures (b | Mask(i)) & Mask(j) != 0 <==> i == j || b & Mask(j) != 0
  {
  }

  /** Bit n counts from the least significant one. */
  lemma MaskIsPower(n: nat)
    requires n < 8
    ensures Mask(n) == 1 << n
  {
  }

  function HexDigit(n: bv8): char {
    match n
    case 0 => '0' case 1 => '1' case 2 => '2' case 3 => '3' case 4 => '4' case 5 => '5' case 6 => '6' case 7 => '7'
    case 8 => '8' case 9 => '9' case 10 => 'a' case 11 => 'b' case 12 => 'c' case 13 => 'd' case 14 => 'e' case _ => 'f'
  }

  function HexValue(c: char): Option<bv8> {
    match c
    case '0' => Some(0) case '1' => Some(1) case '2' => Some(2) case '3' => Some(3)
    case '4' => Some(4) case '5' => Some(5) case '6' => Some(6) case '7' => Some(7)
    case '8' => Some(8) case '9' => Some(9)
    case 'a' => Some(10) case 'b' => Some(11) case 'c' => Some(12) case 'd' => Some(13) case 'e' => Some(14) case 'f' => Some(15)
    case 'A' => Some(10) case 'B' => Some(11) case 'C' => Some(12) case 'D' => Some(13) case 'E' => Some(14) case 'F' => Some(15)
    case _ => None
  }

  function EncodeHex(bytes: seq<bv8>): string {
    if bytes == [] then "" else [HexDigit(bytes[0] >> 4), HexDigit(bytes[0] & 15)] + EncodeHex(bytes[1..])
  }

  /** Fails on an odd length and on any other character. */
  function DecodeHex(s: string): Option<seq<bv8>> {
    if s == "" then Some([])
    else if |s| == 1 then None
    else
      var high, low, rest := HexValue(s[0]), HexValue(s[1]), DecodeHex(s[2..]);
      if high.None? || low.None? || rest.None? then None
      else Some([(high.value << 4) | low.value] + rest.value)
  }

  lemma DigitRoundTrip(n: bv8)
    requires n < 16
    ensures HexValue(HexDigit(n)) == Some(n)
  {
    if n < 8 {
      assert n == 0 || n == 1 || n == 2 || n == 3 || n == 4 || n == 5 || n == 6 || n == 7;
    } else {
      assert n == 8 || n == 9 || n == 10 || n == 11 || n == 12 || n == 13 || n == 14 || n == 15;
    }
  }

  lemma {:induction false} HexRoundTrip(bytes: seq<bv8>)
    ensures DecodeHex(EncodeHex(bytes)) == Some(bytes)
    ensures EncodeHex(bytes) == "" <==> bytes == []
    decreases |bytes|
  {
    if bytes != [] {
      var b, s := bytes[0], EncodeHex(bytes);
      HexRoundTrip(bytes[1..]);
      DigitRoundTrip(b >> 4);
      DigitRoundTrip(b & 15);
      assert ((b >> 4) << 4) | (b & 15) == b;
      assert s[2..] == EncodeHex(bytes[1..]);
      assert bytes == [b] + bytes[1..];
    }
  }

  /** Two lower-case digits per byte, the high one first. */
  lemma {:induction false} HexDigits(bytes: seq<bv8>, i: nat)
    requires i < |bytes|
    ensures |EncodeHex(bytes)| == 2 * |bytes|
    ensures EncodeHex(bytes)[2 * i] == "0123456789abcdef"[(bytes[i] / 16) as int]
    ensures EncodeHex(bytes)[2 * i + 1] == "0123456789abcdef"[(bytes[i] % 16) as int]
    decreases |bytes|
  {
    var rest := EncodeHex(bytes[1..]);
    if i == 0 {
      DigitMeans(bytes[0]);
      if |bytes| > 1 {
        HexDigits(bytes[1..], 0);
      }
    } else {
      HexDigits(bytes[1..], i - 1);
    }
  }

  lemma DigitMeans(b: bv8)
    ensures HexDigit(b >> 4) == "0123456789abcdef"[(b / 16) as int]
    ensures HexDigit(b & 15) == "0123456789abcdef"[(b % 16) as int]
  {
    assert b >> 4 == b / 16 && b & 15 == b % 16;
    NibbleMeans(b / 16);
    NibbleMeans(b % 16);
  }

  lemma NibbleMeans(n: bv8)
    requires n < 16
    ensures HexDigit(n) == "0123456789abcdef"[n as int]
  {
  }

  // --- one agent's report ---

  const MAX_STATUS_BACKENDS := 1024

  datatype BackendStatus = BackendStatus(address: Address, healthy: bool)

  /** The healthy ones among the configured addresses. */
  function Configured(backends: seq<Address>, healthy: set<Address>): set<Address> {
    set a | a in backends && a in healthy
  }

  method CountConfiguredHealthy(backends: seq<Address>, healthy: set<Address>) returns (count: nat)
    ensures count == |Configured(backends, healthy)|
  {
    count := 0;
    var seen: set<Address> := {};
    for i := 0 to |backends|
      invariant seen == set a | a in backends[..i]
      invariant count == |Configured(backends[..i], healthy)|
    {
      var a := backends[i];
      assert backends[..i + 1] == backends[..i] + [a];
      if a in seen {
        assert Configured(backends[..i + 1], healthy) == Configured(backends[..i], healthy);
        continue;
      }
      seen := seen + {a};
      if a in healthy {
        assert Configured(backends[..i + 1], healthy) == Configured(backends[..i], healthy) + {a};
        count := count + 1;
      } else {
        assert Configured(backends[..i + 1], healthy) == Configured(backends[..i], healthy);
      }
    }
    assert backends[..|backends|] == backends;
  }

  method BuildBackendStatuses(backends: seq<Address>, healthy: set<Address>) returns (statuses: seq<BackendStatus>)
    ensures |statuses| == if |backends| > MAX_STATUS_BACKENDS then MAX_STATUS_BACKENDS else |backends|
    ensures forall i :: 0 <= i < |statuses| ==> statuses[i] == BackendStatus(backends[i], backends[i] in healthy)
  {
    var limit := |backends|;
    if limit > MAX_STATUS_BACKENDS {
      limit := MAX_STATUS_BACKENDS;
    }
    statuses := [];
    for i := 0 to |backends|
      invariant |statuses| == if i < limit then i else limit
      invariant forall j :: 0 <= j < |statuses| ==> statuses[j] == BackendStatus(backends[j], backends[j] in healthy)
    {
      if |statuses| == limit {
        break;
      }
      statuses := statuses + [BackendStatus(backends[i], backends[i] in healthy)];
    }
  }

  function WithBitAt(bytes: seq<bv8>, q: nat, r: nat): seq<bv8>
    requires q < |bytes|
  {
    bytes[q := bytes[q] | Mask(r)]
  }

  lemma SameIndex(i: nat, j: nat)
    ensures i == j <==> i / 8 == j / 8 && i % 8 == j % 8
  {
  }

  lemma ByteAfterSet(bytes: seq<bv8>, q: nat, r: nat, qj: nat, rj: nat)
    requires q < |bytes| && qj < |bytes| && r < 8 && rj < 8
    ensures WithBitAt(bytes, q, r)[qj] & Mask(rj) != 0 <==> (q == qj && r == rj) || bytes[qj] & Mask(rj) != 0
  {
    if q == qj {
      MaskSetsOneBit(bytes[q], r, rj);
    }
  }

  lemma BitAtAfterSet(bytes: seq<bv8>, q: nat, r: nat, qj: nat, rj: nat)
    requires q < |bytes| && r < 8 && rj < 8
    ensures BitAt(WithBitAt(bytes, q, r), qj, rj) <==> (q == qj && r == rj) || BitAt(bytes, qj, rj)
  {
    if qj < |bytes| {
      ByteAfterSet(bytes, q, r, qj, rj);
    }
  }

  /** Setting one bit of the buffer changes that bit only. */
  lemma BitAfterSet(bytes: seq<bv8>, i: nat, j: nat)
    requires i / 8 < |bytes|
    ensures Bit(WithBitAt(bytes, i / 8, i % 8), j) <==> j == i || Bit(bytes, j)
  {
    SameIndex(i, j);
    BitAtAfterSet(bytes, i / 8, i % 8, j / 8, j % 8);
  }

  /** Bit i of the report says whether backend i is healthy, and nothing is healthy exactly for the empty report. */
  ghost predicate ReportsBits(report: string, backends: seq<Address>, healthy: set<Address>) {
    && DecodeHex(report).Some?
    && (forall i: nat :: Bit(DecodeHex(report).value, i) <==> i < |backends| && backends[i] in healthy)
    && (report == "" <==> Configured(backends, healthy) == {})
  }

  lemma ZeroHasNoBits(bytes: seq<bv8>, i: nat)
    requires i / 8 < |bytes| && bytes[i / 8] == 0
    ensures !Bit(bytes, i)
  {
    assert 0 & Mask(i % 8) == 0;
  }

  lemma NonZeroHasABit(b: bv8) returns (n: nat)
    requires b != 0
    ensures n < 8 && b & Mask(n) != 0
  {
    n := if b & 0x01 != 0 then 0 else if b & 0x02 != 0 then 1 else if b & 0x04 != 0 then 2 else if b & 0x08 != 0 then 3
         else if b & 0x10 != 0 then 4 else if b & 0x20 != 0 then 5 else if b & 0x40 != 0 then 6 else 7;
  }

  method FillBits(bitmap: array<bv8>, backends: seq<Address>, healthy: set<Address>)
    requires bitmap.Length == (|backends| + 7) / 8
    requires forall i :: 0 <= i < bitmap.Length ==> bitmap[i] == 0
    modifies bitmap
    ensures forall i: nat :: Bit(bitmap[..], i) <==> i < |backends| && backends[i] in healthy
  {
    forall i: nat ensures !Bit(bitmap[..], i) {
      if i / 8 < bitmap.Length {
        ZeroHasNoBits(bitmap[..], i);
      }
    }
    for i := 0 to |backends|
      invariant forall j: nat :: Bit(bitmap[..], j) <==> j < i && backends[j] in healthy
    {
      if backends[i] in healthy {
        ghost var before := bitmap[..];
        bitmap[i / 8] := bitmap[i / 8] | Mask(i % 8);
        assert bitmap[..] == WithBitAt(before, i / 8, i % 8);
        forall j: nat ensures Bit(bitmap[..], j) <==> j == i || Bit(before, j) {
          BitAfterSet(before, i, j);
        }
      }
    }
  }

  /** Dropping zero bytes at the end loses no bit, and leaves nothing only if there was no bit. */
  method TrimZeros(bitmap: array<bv8>) returns (length: nat)
    ensures length <= bitmap.Length
    ensures forall i: nat :: Bit(bitmap[..length], i) <==> Bit(bitmap[..], i)
    ensures length > 0 ==> exists i: nat :: Bit(bitmap[..], i)
  {
    length := bitmap.Length;
    while length > 0 && bitmap[length - 1] == 0
      invariant length <= bitmap.Length
      invariant forall i: nat :: Bit(bitmap[..length], i) <==> Bit(bitmap[..], i)
    {
      forall i: nat ensures Bit(bitmap[..length - 1], i) <==> Bit(bitmap[..length], i) {
        if i / 8 == length - 1 {
          ZeroHasNoBits(bitmap[..length], i);
        }
      }
      length := length - 1;
    }
    if length > 0 {
      var n := NonZeroHasABit(bitmap[length - 1]);
      assert Bit(bitmap[..], 8 * (length - 1) + n);
    }
  }

  method BuildHealthyBackendBitmap(backends: seq<Address>, healthy: set<Address>) returns (report: string)
    ensures ReportsBits(report, backends, healthy)
  {
    if |backends| == 0 || healthy == {} {
      return "";
    }
    var bitmap := new bv8[(|backends| + 7) / 8](_ => 0);
    FillBits(bitmap, backends, healthy);
    var length := TrimZeros(bitmap);
    HexRoundTrip(bitmap[..length]);
    if length > 0 {
      ghost var i: nat :| Bit(bitmap[..], i);
      assert backends[i] in Configured(backends, healthy);
    } else {
      assert forall i: nat :: i < |backends| && backends[i] in healthy ==> Bit(bitmap[..], i);
    }
    report := EncodeHex(bitmap[..length]);
  }
}
