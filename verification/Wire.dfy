/** Bytes, fixed-width integers, base-128 varints and the group-skipping routine. */
module Wire {

  type Byte = b: int | 0 <= b < 256

  const U64 := 0x1_0000_0000_0000_0000
  const I64 := 0x8000_0000_0000_0000
  const U32 := 0x1_0000_0000
  const I32 := 0x8000_0000

  /** A buffer whose length is an `int`; four bytes of head room keep `iNdEx + 4` from wrapping. */
  const MAX_LEN := 0x7FFF_FFFF_FFFF_FFFB

  type Bytes = s: seq<Byte> | |s| <= MAX_LEN witness []

  datatype Option<+T> = None | Some(value: T)

  datatype Error =
    | IntOverflow
    | UnexpectedEOF
    | InvalidLength
    | UnexpectedEndOfGroup
    | IllegalWireType
    | IllegalTag
    | EndGroup
    | WrongWireType
    | RequiredNotSet

  datatype Result<+T> = Ok(value: T) | Err(error: Error) {
    predicate IsFailure() {
      Err?
    }

    function PropagateFailure<U>(): Result<U>
      requires Err?
    {
      Err(error)
    }

    function Extract(): T
      requires Ok?
    {
      value
    }
  }

  // ---------------------------------------------------------------- integers

  /** A uint64, or the exact sum of two non-negative int64, as an int64: wraps past the top. */
  function ToInt64(u: nat): (r: int)
    requires u < U64
    ensures -I64 <= r < I64
  {
    if u < I64 then u else u - U64
  }

  /** `int32(u)`: the low 32 bits, read as two's complement. */
  function ToInt32(u: nat): (r: int)
    ensures -I32 <= r < I32
  {
    var t := u % U32;
    if t < I32 then t else t - U32
  }

  function Pow2(n: nat): (p: nat)
    ensures p > 0
  {
    if n == 0 then 1 else 2 * Pow2(n - 1)
  }

  lemma {:induction false} Pow2Add(a: nat, b: nat)
    ensures Pow2(a + b) == Pow2(a) * Pow2(b)
  {
    if b > 0 {
      Pow2Add(a, b - 1);
      assert Pow2(a + b) == 2 * Pow2(a + b - 1);
      assert Pow2(a) * Pow2(b) == 2 * (Pow2(a) * Pow2(b - 1));
    }
  }

  lemma {:induction false} Pow2Of32()
    ensures Pow2(32) == U32
  {
    assert Pow2(8) == 0x100;
    Pow2Add(8, 8);
    Pow2Add(16, 16);
  }

  lemma {:induction false} Pow2Of64()
    ensures Pow2(64) == U64
  {
    Pow2Of32();
    Pow2Add(32, 32);
  }

  lemma {:induction false} Pow2Monotone(a: nat, b: nat)
    requires a <= b
    ensures Pow2(a) <= Pow2(b)
    decreases b - a
  {
    if a < b { Pow2Monotone(a + 1, b); }
  }

  // ----------------------------------------------------------------- varints

  /** Base 128 varint: seven bits a byte, low group first, high bit set on all but the last. */
  function VarintBytes(v: nat): (e: seq<Byte>)
    ensures |e| >= 1
  {
    if v < 128 then [v] else [v % 128 + 128] + VarintBytes(v / 128)
  }

  /** Number of bits needed for x, as in `bits.Len64`. */
  function BitLen(x: nat): nat {
    if x == 0 then 0 else 1 + BitLen(x / 2)
  }

  /** The closed form of the encoded length: `(Len64(x|1) + 6) / 7`. */
  function Sov(x: nat): nat {
    (BitLen(if x % 2 == 0 then x + 1 else x) + 6) / 7
  }

  lemma {:induction false} BitLenBy128(x: nat)
    requires x >= 128
    ensures BitLen(x) == 7 + BitLen(x / 128)
  {
    assert x / 2 / 2 / 2 / 2 / 2 / 2 / 2 == x / 128;
    assert BitLen(x) == 1 + BitLen(x / 2) == 2 + BitLen(x / 2 / 2) == 3 + BitLen(x / 2 / 2 / 2);
    var y := x / 2 / 2 / 2;
    assert BitLen(y) == 1 + BitLen(y / 2) == 2 + BitLen(y / 2 / 2) == 3 + BitLen(y / 2 / 2 / 2);
    var z := y / 2 / 2 / 2;
    assert BitLen(z) == 1 + BitLen(z / 2);
  }

  lemma {:induction false} BitLenSmall(x: nat)
    requires 0 < x < 128
    ensures 1 <= BitLen(x) <= 7
  {
    var y := x / 2 / 2 / 2 / 2;
    assert y < 8;
    assert BitLen(y) <= 3 by {
      assert y / 2 / 2 / 2 == 0;
      assert BitLen(y / 2 / 2) <= 1;
    }
    assert BitLen(x) <= 1 + BitLen(x / 2) <= 2 + BitLen(x / 2 / 2) <= 3 + BitLen(x / 2 / 2 / 2) <= 4 + BitLen(y);
  }

  lemma {:induction false} BitLenEven(w: nat)
    requires w > 0 && w % 2 == 0
    ensures BitLen(w + 1) == BitLen(w)
  {
    assert (w + 1) / 2 == w / 2;
  }

  /** `|1` matters for zero only. */
  lemma {:induction false} SovOfPositive(x: nat)
    requires x > 0
    ensures Sov(x) == (BitLen(x) + 6) / 7
  {
    if x % 2 == 0 { BitLenEven(x); }
  }

  /** sovLog's closed form is the number of bytes encodeVarintLog's loop produces. */
  lemma {:induction false} SovIsVarintLength(v: nat)
    ensures Sov(v) == |VarintBytes(v)|
  {
    if v >= 128 {
      SovOfPositive(v);
      SovOfPositive(v / 128);
      BitLenBy128(v);
      SovIsVarintLength(v / 128);
    } else if v > 0 {
      SovOfPositive(v);
      BitLenSmall(v);
    }
  }

  lemma {:induction false} VarintLengthMonotone(v: nat, w: nat)
    requires v <= w
    ensures |VarintBytes(v)| <= |VarintBytes(w)|
  {
    if v >= 128 { VarintLengthMonotone(v / 128, w / 128); }
  }

  datatype Read = Read(v: nat, next: nat)

  /** `acc | (b & 0x7F) << shift` in 64 bits, the groups already in acc lying below the shift. */
  function Accumulate(acc: nat, b: Byte, shift: nat): (sum: nat)
    ensures sum < U64
  {
    (acc + b % 128 * Pow2(shift)) % U64
  }

  /** The shift loop: at most ten bytes, bits above the 64th lost. */
  function ReadFrom(s: Bytes, i: nat, shift: nat, acc: nat): (r: Result<Read>)
    requires i <= |s| && acc < U64
    ensures r.Ok? ==> i < r.value.next <= |s| && r.value.v < U64
    decreases |s| - i
  {
    if shift >= 64 then Err(IntOverflow)
    else if i >= |s| then Err(UnexpectedEOF)
    else
      var sum := Accumulate(acc, s[i], shift);
      if s[i] < 128 then Ok(Read(sum, i + 1)) else ReadFrom(s, i + 1, shift + 7, sum)
  }

  function ReadVarint(s: Bytes, i: nat): (r: Result<Read>)
    requires i <= |s|
    ensures r.Ok? ==> i < r.value.next <= |s| && r.value.v < U64
  {
    ReadFrom(s, i, 0, 0)
  }

  /** The bytes e stand in s at index i. */
  predicate At(s: seq<Byte>, i: nat, e: seq<Byte>) {
    i + |e| <= |s| && s[i..i + |e|] == e
  }

  lemma {:induction false} AtConcat(s: seq<Byte>, i: nat, a: seq<Byte>, b: seq<Byte>)
    requires At(s, i, a + b)
    ensures At(s, i, a) && At(s, i + |a|, b)
  {
    assert s[i..i + |a|] == s[i..i + |a + b|][..|a|];
    assert s[i + |a|..i + |a| + |b|] == s[i..i + |a + b|][|a|..];
  }

  /** A copy of s[i..n] is a copy of s[i..m] followed by one of s[m..n]. */
  lemma {:induction false} AtSplit(s: seq<Byte>, i: nat, m: nat, n: nat, t: seq<Byte>, j: nat)
    requires i <= m <= n <= |s| && At(t, j, s[i..n])
    ensures At(t, j, s[i..m]) && At(t, j + m - i, s[m..n])
  {
    assert s[i..n] == s[i..m] + s[m..n];
    AtConcat(t, j, s[i..m], s[m..n]);
  }

  lemma {:induction false} Distribute(q: nat, r: nat, p: nat)
    ensures (r + 128 * q) * p == r * p + q * (128 * p)
  {
  }

  lemma {:induction false} BoundProduct(r: nat, p: nat)
    requires r < 128
    ensures r * p <= 127 * p
  {
  }

  lemma {:induction false} ScaledUp(q: nat, p: nat)
    requires q > 0
    ensures q * p >= p
  {
  }

  lemma {:induction false} Shift7(shift: nat)
    ensures Pow2(shift + 7) == 128 * Pow2(shift)
  {
    Pow2Add(shift, 7);
    assert Pow2(7) == 128;
  }

  lemma {:induction false} AccumulateExact(acc: nat, b: Byte, shift: nat)
    requires acc + b % 128 * Pow2(shift) < U64
    ensures Accumulate(acc, b, shift) == acc + b % 128 * Pow2(shift)
  {
    hide Pow2;
  }

  /** Where v >= 128, the next group still fits below bit 64. */
  lemma {:induction false} NextGroup(v: nat, shift: nat, acc: nat)
    requires v >= 128 && acc + v * Pow2(shift) < U64
    ensures shift + 7 < 64
    ensures acc + v * Pow2(shift) == acc + v % 128 * Pow2(shift) + v / 128 * Pow2(shift + 7)
  {
    Distribute(v / 128, v % 128, Pow2(shift));
    Shift7(shift);
    ScaledUp(v / 128, Pow2(shift + 7));
    if shift + 7 >= 64 { Pow2Monotone(64, shift + 7); Pow2Of64(); }
  }

  lemma {:induction false} ReadBack(s: Bytes, i: nat, v: nat, shift: nat, acc: nat, total: nat)
    requires At(s, i, VarintBytes(v))
    requires total == acc + v * Pow2(shift)
    requires acc <= total < U64 && shift < 64
    ensures ReadFrom(s, i, shift, acc) == Ok(Read(total, i + |VarintBytes(v)|))
    decreases v
  {
    hide Pow2, Accumulate;
    var e := VarintBytes(v);
    assert s[i] == s[i..i + |e|][0] == e[0];
    assert s[i] % 128 == v % 128;
    if v < 128 {
      AccumulateExact(acc, s[i], shift);
    } else {
      NextGroup(v, shift, acc);
      AccumulateExact(acc, s[i], shift);
      AtConcat(s, i, [v % 128 + 128], VarintBytes(v / 128));
      ReadBack(s, i + 1, v / 128, shift + 7, acc + v % 128 * Pow2(shift), total);
    }
  }

  /** Every uint64 written as a varint is read back, wherever it stands. */
  lemma {:induction false} VarintRoundTrip(s: Bytes, i: nat, v: nat)
    requires v < U64 && At(s, i, VarintBytes(v))
    ensures ReadVarint(s, i) == Ok(Read(v, i + |VarintBytes(v)|))
  {
    ReadBack(s, i, v, 0, 0, v);
  }

  /** A successful read depends only on the bytes it consumes. */
  lemma {:induction false} ReadLocal(s: Bytes, i: nat, t: Bytes, j: nat, shift: nat, acc: nat, r: Read)
    requires i <= |s| && acc < U64
    requires ReadFrom(s, i, shift, acc) == Ok(r)
    requires At(t, j, s[i..r.next])
    ensures ReadFrom(t, j, shift, acc) == Ok(Read(r.v, j + r.next - i))
    decreases |s| - i
  {
    assert t[j] == t[j..j + r.next - i][0] == s[i..r.next][0] == s[i];
    if s[i] >= 128 {
      AtSplit(s, i, i + 1, r.next, t, j);
      ReadLocal(s, i + 1, t, j + 1, shift + 7, Accumulate(acc, s[i], shift), r);
    }
  }

  lemma {:induction false} ModBelow(x: nat, bound: nat)
    requires x < bound
    ensures x % U64 < bound
  {
  }

  lemma {:induction false} AccumulateBound(acc: nat, b: Byte, shift: nat)
    requires acc < Pow2(shift)
    ensures Accumulate(acc, b, shift) < Pow2(shift + 7)
  {
    hide Pow2;
    var x := acc + b % 128 * Pow2(shift);
    assert x < Pow2(shift + 7) by {
      BoundProduct(b % 128, Pow2(shift));
      Shift7(shift);
    }
    ModBelow(x, Pow2(shift + 7));
  }

  lemma {:induction false} ReadVarintLocal(s: Bytes, i: nat, t: Bytes, j: nat, r: Read)
    requires i <= |s| && ReadVarint(s, i) == Ok(r)
    requires At(t, j, s[i..r.next])
    ensures ReadVarint(t, j) == Ok(Read(r.v, j + r.next - i))
  {
    ReadLocal(s, i, t, j, 0, 0, r);
  }

  /** Reading n bytes yields a value of at most 7n bits. */
  lemma {:induction false} ReadIsSmall(s: Bytes, i: nat, shift: nat, acc: nat, r: Read)
    requires i <= |s| && acc < U64 && acc < Pow2(shift)
    requires ReadFrom(s, i, shift, acc) == Ok(r)
    ensures r.v < Pow2(shift + 7 * (r.next - i))
    decreases |s| - i
  {
    AccumulateBound(acc, s[i], shift);
    if s[i] >= 128 {
      ReadIsSmall(s, i + 1, shift + 7, Accumulate(acc, s[i], shift), r);
      assert shift + 7 + 7 * (r.next - (i + 1)) == shift + 7 * (r.next - i);
    }
  }

  lemma {:induction false} ShortValueShortVarint(v: nat, n: nat)
    requires n > 0 && v < Pow2(7 * n)
    ensures |VarintBytes(v)| <= n
  {
    if v >= 128 {
      assert Pow2(7 * n) == Pow2(7 * (n - 1)) * 128 by { Pow2Add(7 * (n - 1), 7); assert Pow2(7) == 128; }
      ShortValueShortVarint(v / 128, n - 1);
    }
  }

  /** No encoding of a value is shorter than the canonical one. */
  lemma {:induction false} CanonicalIsShortest(s: Bytes, i: nat, r: Read)
    requires i <= |s| && ReadVarint(s, i) == Ok(r)
    ensures |VarintBytes(r.v)| <= r.next - i
  {
    ReadIsSmall(s, i, 0, 0, r);
    ShortValueShortVarint(r.v, r.next - i);
  }

  // ---------------------------------------------------------- unknown fields

  datatype Skip = Skip(next: int, depth: nat)

  /** What follows a tag of the given wire type, in skipLog. */
  function SkipPayload(s: Bytes, j: nat, wireType: nat, depth: nat): (r: Result<Skip>)
    requires j <= |s|
    ensures r.Ok? ==> (r.value.next < 0 || r.value.next >= j) && r.value.next < I64
  {
    match wireType
    case 0 => var v :- ReadVarint(s, j); Ok(Skip(v.next, depth))
    case 1 => Ok(Skip(ToInt64(j + 8), depth))
    case 2 =>
      var len :- ReadVarint(s, j);
      if ToInt64(len.v) < 0 then Err(InvalidLength)
      else Ok(Skip(ToInt64(len.next + ToInt64(len.v)), depth))
    case 3 => Ok(Skip(j, depth + 1))
    case 4 => if depth == 0 then Err(UnexpectedEndOfGroup) else Ok(Skip(j, depth - 1))
    case 5 => Ok(Skip(ToInt64(j + 4), depth))
    case _ => Err(IllegalWireType)
  }

  /** One round of skipLog's loop. */
  function SkipStep(s: Bytes, i: nat, depth: nat): (r: Result<Skip>)
    requires i < |s|
    ensures r.Ok? ==> i < r.value.next < I64
  {
    var tag :- ReadVarint(s, i);
    var k :- SkipPayload(s, tag.next, tag.v % 8, depth);
    if k.next < 0 then Err(InvalidLength) else Ok(k)
  }

  /** skipLog's loop: leave one field, or one whole group, behind. */
  function SkipFrom(s: Bytes, i: nat, depth: nat): (r: Result<nat>)
    ensures r.Ok? ==> i < r.value < I64
    decreases if i < |s| then |s| - i else 0
  {
    if i >= |s| then Err(UnexpectedEOF)
    else
      var k :- SkipStep(s, i, depth);
      if k.depth == 0 then Ok(k.next) else SkipFrom(s, k.next, k.depth)
  }

  function SkipField(s: Bytes): (r: Result<nat>)
    ensures r.Ok? ==> 1 <= r.value < I64
  {
    SkipFrom(s, 0, 0)
  }

  lemma {:induction false} SkipPayloadLocal(s: Bytes, j: nat, t: Bytes, k: nat, wireType: nat, depth: nat, r: Skip)
    requires j <= |s| && k <= |t|
    requires SkipPayload(s, j, wireType, depth) == Ok(r) && 0 <= r.next <= |s|
    requires At(t, k, s[j..r.next])
    ensures SkipPayload(t, k, wireType, depth) == Ok(Skip(k + r.next - j, r.depth))
  {
    hide ReadVarint;
    if wireType == 0 || wireType == 2 {
      var v := ReadVarint(s, j).value;
      AtSplit(s, j, v.next, r.next, t, k);
      ReadVarintLocal(s, j, t, k, v);
    }
  }

  lemma {:induction false} SkipStepLocal(s: Bytes, i: nat, t: Bytes, j: nat, depth: nat, r: Skip)
    requires i < |s| && j < |t|
    requires SkipStep(s, i, depth) == Ok(r) && r.next <= |s|
    requires At(t, j, s[i..r.next])
    ensures SkipStep(t, j, depth) == Ok(Skip(j + r.next - i, r.depth))
  {
    hide ReadVarint, SkipPayload;
    var tag := ReadVarint(s, i).value;
    AtSplit(s, i, tag.next, r.next, t, j);
    ReadVarintLocal(s, i, t, j, tag);
    SkipPayloadLocal(s, tag.next, t, j + tag.next - i, tag.v % 8, depth, r);
  }

  lemma {:induction false} SkipUnfold(s: Bytes, i: nat, depth: nat)
    ensures SkipFrom(s, i, depth)
         == if i >= |s| then Err(UnexpectedEOF)
            else if SkipStep(s, i, depth).Err? then SkipStep(s, i, depth).PropagateFailure()
            else if SkipStep(s, i, depth).value.depth == 0 then Ok(SkipStep(s, i, depth).value.next)
            else SkipFrom(s, SkipStep(s, i, depth).value.next, SkipStep(s, i, depth).value.depth)
  {
  }

  /** Skipping depends only on the bytes skipped. */
  lemma {:induction false} SkipLocal(s: Bytes, i: nat, t: Bytes, j: nat, depth: nat, n: nat)
    requires i <= |s| && j <= |t|
    requires SkipFrom(s, i, depth) == Ok(n) && n <= |s|
    requires At(t, j, s[i..n])
    ensures SkipFrom(t, j, depth) == Ok(j + n - i)
    decreases |s| - i
  {
    hide SkipStep, SkipFrom;
    SkipUnfold(s, i, depth);
    SkipUnfold(t, j, depth);
    var k := SkipStep(s, i, depth).value;
    AtSplit(s, i, k.next, n, t, j);
    SkipStepLocal(s, i, t, j, depth, k);
    if k.depth > 0 {
      SkipLocal(s, k.next, t, j + k.next - i, k.depth, n);
    }
  }
}
