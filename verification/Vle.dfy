/** The variable-length integer of section 2.2.3 of MQTT 3.1.1. */
module Vle {
  import opened Prelude

  const MAX_REMAINING: nat := 268_435_455

  /** The result of a parser: finished with some input left, short of input, or failed. */
  datatype IResult<+T> = Done(rest: Bytes, value: T) | Incomplete | Error | Panic

  function VleBytes(n: nat): (r: Bytes)
    ensures r != []
  {
    if n < 128 then [n] else [n % 128 + 128] + VleBytes(n / 128)
  }

  /** The number that seven-bit groups stand for, lowest group first. */
  function Value(bs: Bytes): nat {
    if bs == [] then 0 else bs[0] % 128 + 128 * Value(bs[1..])
  }

  function Pow128(k: nat): (r: nat)
    ensures r > 0
  {
    if k == 0 then 1 else 128 * Pow128(k - 1)
  }

  /** Reads on from byte `k`; the group ends at the first byte without the top bit. */
  function VleFrom(input: Bytes, k: nat): IResult<nat>
    decreases 4 - k
  {
    if k > 3 then Error
    else if k >= |input| then Incomplete
    else if input[k] < 128 then Done(input[k + 1..], Value(input[..k + 1]))
    else VleFrom(input, k + 1)
  }

  lemma VleUnfold(before: Bytes, n: nat)
    ensures before + VleBytes(n) ==
      if n / 128 > 0 then before + [n % 128 + 128] + VleBytes(n / 128) else before + [n % 128]
  {
  }

  method EncodeVle(num: nat) returns (r: Option<Bytes>)
    ensures r == if num > MAX_REMAINING then None else Some(VleBytes(num))
  {
    var collect: Bytes, val := [], num;
    if num > MAX_REMAINING {
      return None;
    }
    while true
      invariant collect + VleBytes(val) == VleBytes(num)
      decreases val
    {
      VleUnfold(collect, val);
      var encByte: u8 := val % 128;
      val := val / 128;
      if val > 0 {
        encByte := encByte + 128;
      }
      collect := collect + [encByte];
      if val <= 0 {
        break;
      }
    }
    r := Some(collect);
  }

  lemma Distribute(x: nat, low: nat, p: nat)
    ensures 128 * (x + low * p) == 128 * x + low * (128 * p)
  {
  }

  lemma {:induction false} ValueAppend(bs: Bytes, b: u8)
    ensures Value(bs + [b]) == Value(bs) + b % 128 * Pow128(|bs|)
  {
    if bs != [] {
      ValueAppend(bs[1..], b);
      assert (bs + [b])[1..] == bs[1..] + [b];
      Distribute(Value(bs[1..]), b % 128, Pow128(|bs| - 1));
    } else {
      assert [b][1..] == [];
    }
  }

  method DecodeVle(input: Bytes) returns (r: IResult<nat>)
    ensures r == VleFrom(input, 0)
  {
    var multiplier: nat, value: nat, encByteIndex: nat := 1, 0, 0;
    while true
      invariant 0 <= encByteIndex <= 4 && encByteIndex <= |input|
      invariant multiplier == Pow128(encByteIndex) && value == Value(input[..encByteIndex])
      invariant VleFrom(input, 0) == VleFrom(input, encByteIndex)
      decreases 4 - encByteIndex
    {
      if encByteIndex > 3 {
        return Error;
      }
      if encByteIndex < |input| {
        var encByte := input[encByteIndex];
        ValueAppend(input[..encByteIndex], encByte);
        assert input[..encByteIndex + 1] == input[..encByteIndex] + [encByte];
        value := value + encByte % 128 * multiplier;
        multiplier := multiplier * 128;
        if encByte < 128 {
          break;
        }
        encByteIndex := encByteIndex + 1;
      } else {
        return Incomplete;
      }
    }
    r := Done(input[encByteIndex + 1..], value);
  }

  // ------------------------------------------------------------ main results

  /** An encoding is as short as its value allows. */
  lemma {:induction false} VleShortest(n: nat)
    ensures var k := |VleBytes(n)|;
      n < Pow128(k) && (k > 1 ==> n >= Pow128(k - 1))
  {
    if n >= 128 { VleShortest(n / 128); }
  }

  lemma VleAtMostFour(n: nat)
    requires n <= MAX_REMAINING
    ensures |VleBytes(n)| <= 4
  {
    VleShortest(n);
    var k := |VleBytes(n)|;
    assert Pow128(4) == MAX_REMAINING + 1 by {
      assert Pow128(1) == 128 && Pow128(2) == 128 * 128 && Pow128(3) == 128 * 128 * 128;
    }
    if k > 4 { Pow128Grows(4, k - 1); }
  }

  lemma {:induction false} Pow128Grows(i: nat, j: nat)
    requires i <= j
    ensures Pow128(i) <= Pow128(j)
  {
    if i < j { Pow128Grows(i, j - 1); }
  }

  /** All groups but the last carry the top bit, and the value is the number. */
  lemma {:induction false} VleGroups(n: nat)
    ensures var bs := VleBytes(n);
      Value(bs) == n && bs[|bs| - 1] < 128 && forall i | 0 <= i < |bs| - 1 :: bs[i] >= 128
  {
    var bs := VleBytes(n);
    if n >= 128 {
      VleGroups(n / 128);
      assert bs[1..] == VleBytes(n / 128);
      forall i | 0 <= i < |bs| - 1 ensures bs[i] >= 128 {
        if i > 0 { assert bs[i] == bs[1..][i - 1]; }
      }
    } else {
      assert bs[1..] == [];
    }
  }

  /** A group of at most four bytes is read as a whole, whatever follows it. */
  lemma {:induction false} VleReads(bs: Bytes, tail: Bytes, k: nat)
    requires k < |bs| <= 4 && bs[|bs| - 1] < 128
    requires forall i | 0 <= i < |bs| - 1 :: bs[i] >= 128
    ensures VleFrom(bs + tail, k) == Done(tail, Value(bs))
    decreases |bs| - k
  {
    var input := bs + tail;
    assert input[k] == bs[k];
    if k == |bs| - 1 {
      assert input[..k + 1] == bs && input[k + 1..] == tail;
    } else {
      VleReads(bs, tail, k + 1);
    }
  }

  /** Decoding undoes encoding. */
  lemma VleRoundTrip(n: nat, tail: Bytes)
    requires n <= MAX_REMAINING
    ensures VleFrom(VleBytes(n) + tail, 0) == Done(tail, n)
  {
    VleGroups(n);
    VleAtMostFour(n);
    VleReads(VleBytes(n), tail, 0);
  }

  /** What a decoder consumes is a group. */
  lemma {:induction false} VleConsumes(input: Bytes, k: nat)
    requires k <= |input| && forall i | 0 <= i < k :: input[i] >= 128
    requires VleFrom(input, k).Done?
    ensures var rest := VleFrom(input, k).rest; var n := |input| - |rest|;
      && k < n <= 4 && n <= |input| && rest == input[n..] && input[n - 1] < 128
      && VleFrom(input, k).value == Value(input[..n])
      && forall i | 0 <= i < n - 1 :: input[i] >= 128
    decreases 4 - k
  {
    if input[k] >= 128 { VleConsumes(input, k + 1); }
  }

  lemma VleOfGroups(low: nat, high: nat)
    requires low < 128
    ensures VleBytes(low + 128 * high) == if high > 0 then [low + 128] + VleBytes(high) else [low]
  {
  }

  lemma {:induction false} ValueBound(bs: Bytes)
    ensures Value(bs) < Pow128(|bs|)
  {
    if bs != [] { ValueBound(bs[1..]); }
  }

  /** One more low group in front. */
  lemma OneMoreGroup(b: u8, r: Bytes)
    requires b >= 128
    ensures Value([b] + r) == b - 128 + 128 * Value(r)
    ensures VleBytes(Value([b] + r)) == [b] + r <==> Value(r) > 0 && VleBytes(Value(r)) == r
  {
    var v := Value(r);
    assert ([b] + r)[1..] == r;
    VleOfGroups(b - 128, v);
    if v > 0 { assert ([b] + VleBytes(v))[1..] == VleBytes(v); }
  }

  /** The property for the group `bs`. */
  predicate Canonical(bs: Bytes)
    requires bs != []
  {
    && (VleBytes(Value(bs)) == bs <==> |bs| == 1 || bs[|bs| - 1] != 0)
    && (Value(bs) == 0 ==> bs[|bs| - 1] == 0)
  }

  lemma CanonicalMore(b: u8, r: Bytes)
    requires b >= 128 && r != [] && Canonical(r) && (|r| == 1 ==> r[0] < 128)
    ensures Canonical([b] + r)
  {
    OneMoreGroup(b, r);
    assert ([b] + r)[|r|] == r[|r| - 1];
    if |r| == 1 { assert r[1..] == []; }
  }

  lemma {:induction false} CanonicalIff(bs: Bytes)
    requires bs != [] && bs[|bs| - 1] < 128
    requires forall i | 0 <= i < |bs| - 1 :: bs[i] >= 128
    ensures Canonical(bs)
  {
    if |bs| == 1 {
      assert bs[1..] == [];
    } else {
      CanonicalIff(bs[1..]);
      assert bs == [bs[0]] + bs[1..];
      CanonicalMore(bs[0], bs[1..]);
    }
  }

  /** Re-encoding a decoded number gives the bytes read exactly if they held no empty top group. */
  lemma VleReencodes(input: Bytes)
    requires VleFrom(input, 0).Done?
    ensures var Done(rest, n) := VleFrom(input, 0); var used := input[..|input| - |rest|];
      && n <= MAX_REMAINING
      && (VleBytes(n) == used <==> |used| == 1 || used[|used| - 1] != 0)
  {
    VleConsumes(input, 0);
    var used := input[..|input| - |VleFrom(input, 0).rest|];
    CanonicalIff(used);
    ValueBound(used);
    Pow128Grows(|used|, 4);
    assert Pow128(4) == MAX_REMAINING + 1 by {
      assert Pow128(1) == 128 && Pow128(2) == 128 * 128 && Pow128(3) == 128 * 128 * 128;
    }
  }
}
