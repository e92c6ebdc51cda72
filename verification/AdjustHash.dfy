/** Shard hash adjustment: keep the top bits of a 128-bit digest, so that keys share a few hash ranges. */
module ShardHash {
  import opened Wire

  /** An MD5 sum: 16 bytes, most significant first. The digest itself is an input. */
  type Digest = d: seq<bv8> | |d| == 16 witness seq(16, _ => 0)

  const ZERO_32 := "00000000000000000000000000000000"

  function ToHex(x: bv8): char
    requires x < 16
  {
    if x < 10 then ('0' as int + x as int) as char else ('a' as int - 10 + x as int) as char
  }

  function GetBitValue(val: bv8, bits: int): bv8 {
    if bits >= 16 then val
    else if bits >= 8 then val & (0xf - 1)
    else if bits >= 4 then val & (0xf - 3)
    else if bits >= 2 then val & (0xf - 7)
    else val & (0xf - 15)
  }

  // ------------------------------------------------------ what the strings denote

  predicate IsHex(c: char) {
    '0' <= c <= '9' || 'a' <= c <= 'f'
  }

  function Digit(c: char): nat {
    if '0' <= c <= '9' then c as int - '0' as int
    else if 'a' <= c <= 'f' then c as int - 'a' as int + 10
    else 0
  }

  function HexValue(s: string): nat {
    if s == "" then 0 else 16 * HexValue(s[..|s| - 1]) + Digit(s[|s| - 1])
  }

  function BigEndian(d: seq<bv8>): nat {
    if d == [] then 0 else 256 * BigEndian(d[..|d| - 1]) + d[|d| - 1] as int
  }

  /** x with everything below a multiple of m cleared. */
  function Floor(x: nat, m: nat): nat
    requires m > 0
  {
    x / m * m
  }

  function Log2(b: nat): (k: nat)
    requires b > 0
    ensures Pow2(k) <= b < 2 * Pow2(k)
  {
    if b == 1 then 0 else 1 + Log2(b / 2)
  }

  /** All but the top floor(log2 b) of the 128 bits cleared. */
  function Truncate(h: nat, b: int): nat {
    if b <= 0 || Log2(b) > 128 then 0 else Floor(h, Pow2(128 - Log2(b)))
  }

  // ------------------------------------------------------------------- nibbles

  function Nibble(d: seq<bv8>, i: nat): (n: bv8)
    requires i < 2 * |d|
    ensures n < 16
  {
    if i % 2 == 0 then d[i / 2] >> 4 else d[i / 2] & 0xF
  }

  /** The number the first i nibbles denote. */
  function Prefix(d: seq<bv8>, i: nat): nat
    requires i <= 2 * |d|
  {
    if i == 0 then 0 else 16 * Prefix(d, i - 1) + Nibble(d, i - 1) as int
  }

  lemma {:induction false} ByteNibbles(b: bv8)
    ensures 16 * ((b >> 4) as int) + (b & 0xF) as int == b as int
  {
    assert b == 16 * (b >> 4) + (b & 0xF);
  }

  lemma {:induction false} Mask(val: bv8)
    requires val < 16
    ensures (val & 14) as int == val as int / 2 * 2
    ensures (val & 12) as int == val as int / 4 * 4
    ensures (val & 8) as int == val as int / 8 * 8
    ensures (val & 0) as int == val as int / 16 * 16
  {
    assert (val & 14) == val / 2 * 2 && (val & 12) == val / 4 * 4 && (val & 8) == val / 8 * 8 && val & 0 == 0;
  }

  lemma {:induction false} SmallLog2(bits: nat)
    requires 0 < bits < 16
    ensures Log2(bits) == if bits >= 8 then 3 else if bits >= 4 then 2 else if bits >= 2 then 1 else 0
  {
    if bits >= 8 { assert Log2(bits / 2) == 1 + Log2(bits / 2 / 2); }
  }

  /** Masking a nibble rounds it down to a multiple. */
  lemma {:induction false} MaskRounds(val: bv8, bits: int)
    requires val < 16 && 0 < bits < 16
    ensures Log2(bits) <= 3 && GetBitValue(val, bits) < 16
    ensures GetBitValue(val, bits) as int == Floor(val as int, Pow2(4 - Log2(bits)))
  {
    SmallLog2(bits);
    Mask(val);
    assert Pow2(1) == 2 && Pow2(2) == 4 && Pow2(3) == 8 && Pow2(4) == 16;
  }

  lemma {:induction false} Log2Sixteenth(b: nat)
    requires b >= 16
    ensures Log2(b) == 4 + Log2(b / 16)
  {
    var c := b / 2 / 2;
    assert c / 2 / 2 == b / 16;
    assert Log2(b) == 1 + Log2(b / 2) == 2 + Log2(c);
    assert Log2(c) == 1 + Log2(c / 2) == 2 + Log2(c / 2 / 2);
  }

  lemma {:induction false} TimesOrder(a: nat, b: nat, m: nat)
    requires a < b
    ensures a * m + m <= b * m
  {
    assert b * m == (a + 1) * m + (b - a - 1) * m;
  }

  /** Rounding down is finding the multiple just below. */
  lemma {:induction false} FloorIs(x: nat, m: nat, q: nat)
    requires m > 0 && q * m <= x < q * m + m
    ensures Floor(x, m) == q * m
  {
    var p := x / m;
    assert p * m + x % m == x;
    if p < q { TimesOrder(p, q, m); } else if q < p { TimesOrder(q, p, m); }
  }

  /** h is p followed by k more bits. */
  predicate Leads(h: nat, p: nat, k: nat) {
    p * Pow2(k) <= h < (p + 1) * Pow2(k)
  }

  lemma {:induction false} PrefixNext(d: seq<bv8>, i: nat)
    requires i < 2 * |d|
    ensures Prefix(d, i + 1) == 16 * Prefix(d, i) + Nibble(d, i) as int
    ensures 0 <= Nibble(d, i) as int < 16
  {
  }

  /** The first i nibbles of the digest are its leading digits. */
  lemma {:induction false} PrefixLeads(d: seq<bv8>, i: nat)
    requires i <= 2 * |d|
    ensures Leads(BigEndian(d), Prefix(d, i), 4 * (2 * |d| - i))
    decreases 2 * |d| - i
  {
    hide BigEndian, Prefix, Nibble;
    if i == 2 * |d| {
      PrefixWhole(d);
    } else {
      PrefixLeads(d, i + 1);
      var j := 4 * (2 * |d| - i - 1);
      var p, n, m := Prefix(d, i), Nibble(d, i) as int, Pow2(j);
      PrefixNext(d, i);
      Times16(j);
      Coarser(BigEndian(d), p, n, m);
    }
  }

  lemma {:induction false} Coarser(h: nat, p: nat, n: nat, m: nat)
    requires n < 16 && (16 * p + n) * m <= h < (16 * p + n + 1) * m
    ensures p * (16 * m) <= h < (p + 1) * (16 * m)
  {
    Distribute3(16 * p, n, m);
    Distribute3(16 * p, n + 1, m);
    TimesMonotone(n + 1, 16, m);
    assert 16 * p * m == p * (16 * m) && (p + 1) * (16 * m) == p * (16 * m) + 16 * m;
    assert 0 <= n * m;
  }

  lemma {:induction false} Distribute3(a: nat, b: nat, m: nat)
    ensures (a + b) * m == a * m + b * m
  {
  }

  lemma {:induction false} Times16(j: nat)
    ensures Pow2(j + 4) == 16 * Pow2(j)
  {
    Pow2Add(j, 4);
    assert Pow2(4) == 16;
  }

  lemma {:induction false} PrefixWhole(d: seq<bv8>)
    ensures Prefix(d, 2 * |d|) == BigEndian(d)
  {
    if d != [] {
      var n, c := |d| - 1, d[..|d| - 1];
      PrefixWhole(c);
      PrefixLocal(d, c, 2 * n);
      LastByte(d, 2 * n);
    }
  }

  lemma {:induction false} LastByte(d: seq<bv8>, i: nat)
    requires i % 2 == 0 && i < 2 * |d|
    ensures Prefix(d, i + 2) == 256 * Prefix(d, i) + d[i / 2] as int
  {
    ByteNibbles(d[i / 2]);
    assert Prefix(d, i + 2) == 16 * Prefix(d, i + 1) + Nibble(d, i + 1) as int;
    assert Prefix(d, i + 1) == 16 * Prefix(d, i) + Nibble(d, i) as int;
  }

  lemma {:induction false} PrefixLocal(d: seq<bv8>, c: seq<bv8>, i: nat)
    requires c <= d && i <= 2 * |c|
    ensures Prefix(d, i) == Prefix(c, i)
  {
    if i > 0 { PrefixLocal(d, c, i - 1); }
  }

  // ------------------------------------------------------------- the adjusted hash

  predicate HexString(s: string) {
    forall c :: c in s ==> IsHex(c)
  }

  lemma {:induction false} HexAppend(s: string, x: bv8)
    requires x < 16 && HexString(s)
    ensures HexString(s + [ToHex(x)]) && HexValue(s + [ToHex(x)]) == 16 * HexValue(s) + x as int
  {
    assert (s + [ToHex(x)])[..|s|] == s;
  }

  /** `zero32Str[0:n]` */
  function Zeros(n: nat): (z: string)
    requires n <= 32
    ensures |z| == n
  {
    ZERO_32[..n]
  }

  /** The value of digits followed by n zeros. */
  function Shifted(x: nat, n: nat): nat {
    x * Pow2(4 * n)
  }

  lemma {:induction false} ShiftedZero(n: nat)
    ensures Shifted(0, n) == 0
  {
  }

  lemma {:induction false} ShiftedStep(x: nat, n: nat)
    requires n > 0
    ensures Shifted(x, n) == 16 * Shifted(x, n - 1)
  {
    Times16(4 * (n - 1));
    hide Pow2;
    var m := Pow2(4 * (n - 1));
    assert x * (16 * m) == 16 * (x * m);
  }

  lemma {:induction false} HexZeros(s: string, n: nat)
    requires n <= 32 && HexString(s)
    ensures HexString(s + Zeros(n)) && HexValue(s + Zeros(n)) == Shifted(HexValue(s), n)
  {
    assert s + Zeros(0) == s && Shifted(HexValue(s), 0) == HexValue(s);
    hide Zeros, Shifted, HexString, HexValue;
    if n > 0 {
      HexZeros(s, n - 1);
      var t := s + Zeros(n - 1);
      HexAppend(t, 0);
      OneMoreZero(s, n);
      ShiftedStep(HexValue(s), n);
    }
  }

  lemma {:induction false} OneMoreZero(s: string, n: nat)
    requires 0 < n <= 32
    ensures s + Zeros(n) == s + Zeros(n - 1) + [ToHex(0)]
  {
    assert forall k :: 0 <= k < 32 ==> ZERO_32[k] == '0';
  }

  /** While buckets > 0 whole nibbles are copied; the last one, when buckets < 16, is masked. */
  ghost predicate Written(d: Digest, b: int, s: string, i: nat, buckets: int) {
    && |s| == i <= 16 && HexString(s)
    && (buckets > 0 ==> 0 < b && HexValue(s) == Prefix(d, i)
                        && Log2(b) == 4 * i + Log2(buckets))
    && (buckets <= 0 < b ==> i > 0 && 4 * (i - 1) <= Log2(b) < 4 * i
                             && HexValue(s) == Floor(Prefix(d, i), Pow2(4 * i - Log2(b))))
    && (b <= 0 ==> i == 0 && buckets <= 0)
  }

  lemma {:induction false} WriteDigit(d: Digest, b: int, s: string, i: nat, buckets: int)
    requires Written(d, b, s, i, buckets) && buckets > 0 && i < 16
    ensures Written(d, b, s + [ToHex(GetBitValue(Nibble(d, i), buckets))], i + 1, buckets / 16)
  {
    if buckets >= 16 { WriteWhole(d, b, s, i, buckets); } else { WriteLast(d, b, s, i, buckets); }
  }

  lemma {:induction false} WriteWhole(d: Digest, b: int, s: string, i: nat, buckets: int)
    requires Written(d, b, s, i, buckets) && buckets >= 16 && i < 16
    ensures Written(d, b, s + [ToHex(GetBitValue(Nibble(d, i), buckets))], i + 1, buckets / 16)
  {
    HexAppend(s, Nibble(d, i));
    Log2Sixteenth(buckets);
    hide Pow2, Log2, HexValue, HexString, ToHex;
  }

  lemma {:induction false} WriteLast(d: Digest, b: int, s: string, i: nat, buckets: int)
    requires Written(d, b, s, i, buckets) && 0 < buckets < 16 && i < 16
    ensures Written(d, b, s + [ToHex(GetBitValue(Nibble(d, i), buckets))], i + 1, buckets / 16)
  {
    assert Prefix(d, i + 1) == 16 * Prefix(d, i) + Nibble(d, i) as int;
    hide Pow2, Log2, HexValue, HexString, ToHex, Floor, GetBitValue, Nibble, Prefix;
    var n := Nibble(d, i);
    MaskRounds(n, buckets);
    HexAppend(s, GetBitValue(n, buckets));
    RoundLastDigit(Prefix(d, i), n as int, 4 - Log2(buckets));
  }

  lemma {:induction false} TimesMonotone(a: nat, b: nat, m: nat)
    requires a <= b
    ensures m * a <= m * b
  {
  }

  lemma {:induction false} RoundLastDigit(p: nat, n: nat, k: nat)
    requires n < 16 && 1 <= k <= 4
    ensures 16 * p + Floor(n, Pow2(k)) == Floor(16 * p + n, Pow2(k))
  {
    assert Pow2(1) == 2 && Pow2(2) == 4 && Pow2(3) == 8 && Pow2(4) == 16;
    match k
    case 1 => FloorIs(16 * p + n, 2, 8 * p + n / 2);
    case 2 => FloorIs(16 * p + n, 4, 4 * p + n / 4);
    case 3 => FloorIs(16 * p + n, 8, 2 * p + n / 8);
    case 4 => FloorIs(16 * p + n, 16, p);
  }

  lemma {:induction false} Log2Below(b: nat, k: nat)
    requires 0 < b < Pow2(k)
    ensures Log2(b) < k
  {
    if k <= Log2(b) { Pow2Monotone(k, Log2(b)); }
  }

  /** Truncating a number is truncating its leading digits. */
  lemma {:induction false} TruncateLeading(h: nat, p: nat, i: nat, b: nat)
    requires 0 < b && 0 < i <= 16 && Log2(b) < 4 * i
    requires Leads(h, p, 4 * (32 - i))
    ensures Truncate(h, b) == Shifted(Floor(p, Pow2(4 * i - Log2(b))), 32 - i)
  {
    var k, z := 4 * i - Log2(b), 4 * (32 - i);
    hide Pow2, Log2, Floor;
    Pow2Add(k, z);
    ShiftedFloor(h, p, Pow2(k), Pow2(z));
    assert k + z == 128 - Log2(b);
  }

  /** The last digit written, zeros follow. */
  lemma {:induction false} FinishSome(d: Digest, b: int, s: string, i: nat)
    requires Written(d, b, s, i, 0) && b > 0
    ensures HexString(s + Zeros(32 - i)) && HexValue(s + Zeros(32 - i)) == Truncate(BigEndian(d), b)
  {
    hide Pow2, HexValue, Prefix, BigEndian, HexString, Zeros, Floor, Shifted, Truncate, Leads;
    HexZeros(s, 32 - i);
    PrefixLeads(d, i);
    TruncateLeading(BigEndian(d), Prefix(d, i), i, b);
  }

  /** No digit is written for a bucket count that is not positive. */
  lemma {:induction false} FinishNone(h: nat, b: int)
    requires b <= 0
    ensures HexString("" + Zeros(32)) && HexValue("" + Zeros(32)) == Truncate(h, b)
  {
    hide Zeros, Pow2;
    assert HexString("") && HexValue("") == 0;
    HexZeros("", 32);
    ShiftedZero(32);
  }

  lemma {:induction false} Finish(d: Digest, b: int, s: string, i: nat, buckets: int)
    requires Written(d, b, s, i, buckets) && buckets <= 0
    ensures HexString(s + Zeros(32 - i)) && HexValue(s + Zeros(32 - i)) == Truncate(BigEndian(d), b)
  {
    hide Pow2, HexValue, Prefix, BigEndian, HexString, Zeros, Floor, Truncate;
    if b > 0 {
      FinishSome(d, b, s, i);
    } else {
      assert s == "";
      FinishNone(BigEndian(d), b);
    }
  }

  lemma {:induction false} ShiftedFloor(h: nat, p: nat, a: nat, m: nat)
    requires a > 0 && m > 0 && p * m <= h < (p + 1) * m
    ensures a * m > 0 && Floor(h, a * m) == Floor(p, a) * m
  {
    var q, r := p / a, p % a;
    assert p == q * a + r;
    assert p * m == q * (a * m) + r * m;
    TimesOrder(r, a, m);
    assert (p + 1) * m == p * m + m;
    FloorIs(h, a * m, q);
    assert q * a * m == q * (a * m);
  }

  method AdjustHash(cipherStr: Digest, b: int) returns (dest: string)
    requires -I64 <= b < I64
    ensures |dest| == 32 && HexString(dest)
    ensures HexValue(dest) == Truncate(BigEndian(cipherStr), b) && (b <= 0 ==> HexValue(dest) == 0)
  {
    var buckets, i: nat := b, 0;
    dest := "";
    Pow2Of64();
    if b > 0 { Log2Below(b, 64); }
    while buckets > 0 && i < |cipherStr|
      invariant Written(cipherStr, b, dest, i, buckets)
      decreases |cipherStr| - i
    {
      WriteDigit(cipherStr, b, dest, i, buckets);
      if i % 2 == 0 {
        dest := dest + [ToHex(GetBitValue(cipherStr[i / 2] >> 4, buckets))];
      } else {
        dest := dest + [ToHex(GetBitValue(cipherStr[i / 2] & 0xF, buckets))];
      }
      buckets := buckets / 16;
      i := i + 1;
    }
    Finish(cipherStr, b, dest, i, buckets);
    dest := dest + Zeros(32 - i);
  }

  // ---------------------------------------------------- what the adjustment is for

  const BITS_128 := Pow2(128)

  /** The number of digests that share one adjusted hash. */
  function Width(b: nat): (w: nat)
    requires 0 < b < I64
    ensures w > 0
  {
    if Log2(b) > 128 then 1 else Pow2(128 - Log2(b))
  }

  lemma {:induction false} FloorMonotone(x: nat, y: nat, m: nat)
    requires x <= y && m > 0
    ensures Floor(x, m) <= Floor(y, m)
  {
    var p, q := x / m, y / m;
    assert p * m <= x <= y < q * m + m;
    if q < p { TimesOrder(q, p, m); }
  }

  lemma {:induction false} FloorCount(x: nat, m: nat, n: nat)
    requires m > 0 && x < m * n
    ensures x / m < n
  {
    var q := x / m;
    assert q * m <= x < n * m;
    if n < q { TimesOrder(n, q, m); }
  }

  lemma {:induction false} TruncateIsFloor(h: nat, b: nat)
    requires 0 < b < I64
    ensures Log2(b) < 64 && Width(b) * Pow2(Log2(b)) == BITS_128 && Truncate(h, b) == Floor(h, Width(b))
  {
    Pow2Of64();
    Log2Below(b, 64);
    Pow2Add(128 - Log2(b), Log2(b));
  }

  /** Adjusted hashes come in the order of their digests. */
  lemma {:induction false} OrderPreserved(h1: nat, h2: nat, b: nat)
    requires h1 <= h2 && 0 < b < I64
    ensures Truncate(h1, b) <= Truncate(h2, b)
  {
    TruncateIsFloor(h1, b);
    TruncateIsFloor(h2, b);
    hide *;
    FloorMonotone(h1, h2, Width(b));
  }

  /** At most b adjusted hashes occur: each is k widths, for a k below b. */
  lemma {:induction false} AtMostBuckets(h: nat, b: nat)
    requires h < BITS_128 && 0 < b < I64
    ensures h / Width(b) < Pow2(Log2(b)) <= b && Truncate(h, b) == h / Width(b) * Width(b)
  {
    TruncateIsFloor(h, b);
    hide Truncate, Width, Pow2;
    FloorCount(h, Width(b), Pow2(Log2(b)));
  }

  lemma {:induction false} FloorTwice(h: nat, a: nat, c: nat)
    requires a > 0 && c > 0
    ensures c * a > 0 && Floor(Floor(h, a), c * a) == Floor(h, c * a)
  {
    var q := h / a;
    assert Floor(h, a) == q * a <= h < (q + 1) * a;
    ShiftedFloor(q * a, q, c, a);
    ShiftedFloor(h, q, c, a);
  }

  /** More buckets only split groups: what is together with c buckets is together with b <= c. */
  lemma {:induction false} MoreBucketsRefine(h1: nat, h2: nat, b: nat, c: nat)
    requires 0 < b <= c < I64
    ensures Truncate(Truncate(h1, c), b) == Truncate(h1, b)
    ensures Truncate(h1, c) == Truncate(h2, c) ==> Truncate(h1, b) == Truncate(h2, b)
  {
    TruncateNested(h1, b, c);
    TruncateNested(h2, b, c);
  }

  lemma {:induction false} TruncateNested(h: nat, b: nat, c: nat)
    requires 0 < b <= c < I64
    ensures Truncate(Truncate(h, c), b) == Truncate(h, b)
  {
    hide Truncate, Pow2, Floor, Log2;
    Log2Order(b, c);
    TruncateIsFloor(h, c);
    TruncateIsFloor(h, b);
    TruncateIsFloor(Truncate(h, c), b);
    var k := Log2(c) - Log2(b);
    Pow2Add(k, 128 - Log2(c));
    FloorTwice(h, Width(c), Pow2(k));
  }

  lemma {:induction false} Log2Order(b: nat, c: nat)
    requires 0 < b <= c
    ensures Log2(b) <= Log2(c)
    decreases c
  {
    if b > 1 { Log2Order(b / 2, c / 2); }
  }

  /** Byte-wise comparison of strings of one length. */
  predicate Precedes(s: string, t: string)
    requires |s| == |t|
  {
    s != "" && (Precedes(s[..|s| - 1], t[..|t| - 1])
                || (s[..|s| - 1] == t[..|t| - 1] && s[|s| - 1] < t[|t| - 1]))
  }

  /** Hex strings of one length compare as the numbers they denote, so equal numbers are equal strings. */
  lemma {:induction false} HexOrder(s: string, t: string)
    requires |s| == |t| && HexString(s) && HexString(t)
    ensures Precedes(s, t) <==> HexValue(s) < HexValue(t)
    ensures s == t <==> HexValue(s) == HexValue(t)
  {
    if s != "" {
      var n := |s| - 1;
      HexOrder(s[..n], t[..n]);
      assert s[n] in s && t[n] in t;
      assert s == s[..n] + [s[n]] && t == t[..n] + [t[n]];
    }
  }

  /** Every multiple of the width below 2^128 is an adjusted hash, so more than b / 2 occur. */
  lemma {:induction false} EveryBucketOccurs(k: nat, b: nat)
    requires 0 < b < I64 && k < Pow2(Log2(b))
    ensures k * Width(b) < BITS_128 && Truncate(k * Width(b), b) == k * Width(b)
    ensures b < 2 * Pow2(Log2(b))
  {
    var w := Width(b);
    TruncateIsFloor(k * w, b);
    hide Truncate, Width, Pow2;
    TimesOrder(k, Pow2(Log2(b)), w);
    FloorIs(k * w, w, k);
  }
}
