/**
 * The wire format as a grammar, without a reader: what a varint is, how long each kind of field is, what a group
 * holds. The skipping loop leaves exactly one such field behind.
 */
module WireFormat {
  import opened Wire

  // ----------------------------------------------------------------- varints

  /** One to ten bytes, the high bit set on all but the last. */
  predicate IsVarint(e: seq<Byte>) {
    1 <= |e| <= 10 && e[|e| - 1] < 128 && forall k :: 0 <= k < |e| - 1 ==> e[k] >= 128
  }

  /** The low seven bits of each byte, the first the least significant. */
  function Groups(e: seq<Byte>): nat {
    if e == [] then 0 else e[0] % 128 + 128 * Groups(e[1..])
  }

  /** Ten bytes hold six bits more than a uint64; those are lost. */
  function VarintValue(e: seq<Byte>): (v: nat)
    ensures v < U64
  {
    Groups(e) % U64
  }

  lemma {:induction false} ModSum(x: nat, y: nat)
    ensures (x % U64 + y) % U64 == (x + y) % U64
  {
  }

  lemma {:induction false} NextGroup(acc: nat, b: nat, g: nat, p: nat)
    ensures ((acc + b * p) % U64 + g * (128 * p)) % U64 == (acc + (b + 128 * g) * p) % U64
  {
    ModSum(acc + b * p, g * (128 * p));
    assert (b + 128 * g) * p == b * p + g * (128 * p);
  }

  /** The bytes of a varint from some byte on: the last one ends it. */
  predicate Ends(e: seq<Byte>) {
    e != [] && e[|e| - 1] < 128 && forall k :: 0 <= k < |e| - 1 ==> e[k] >= 128
  }

  lemma {:induction false} ReadsGroups(s: Bytes, i: nat, n: nat, acc: nat, e: seq<Byte>)
    requires acc < U64 && Ends(e) && n + |e| <= 10 && At(s, i, e)
    ensures ReadFrom(s, i, 7 * n, acc) == Ok(Read((acc + Groups(e) * Pow2(7 * n)) % U64, i + |e|))
    decreases |e|
  {
    hide Pow2;
    assert s[i] == s[i..i + |e|][0] == e[0];
    var p := Pow2(7 * n);
    if |e| == 1 {
      assert Groups(e) == e[0] by { assert Groups(e[1..]) == 0; }
    } else {
      var sum := Accumulate(acc, s[i], 7 * n);
      assert e == [e[0]] + e[1..];
      AtConcat(s, i, [e[0]], e[1..]);
      ReadsGroups(s, i + 1, n + 1, sum, e[1..]);
      Shift7(7 * n);
      NextGroup(acc, e[0] % 128, Groups(e[1..]), p);
      assert 7 * (n + 1) == 7 * n + 7;
    }
  }

  lemma {:induction false} ReadEnds(s: Bytes, i: nat, n: nat, acc: nat, r: Read)
    requires i <= |s| && acc < U64 && ReadFrom(s, i, 7 * n, acc) == Ok(r)
    ensures Ends(s[i..r.next]) && n + r.next - i <= 10
    decreases |s| - i
  {
    hide Accumulate;
    if s[i] >= 128 {
      assert 7 * (n + 1) == 7 * n + 7;
      ReadEnds(s, i + 1, n + 1, Accumulate(acc, s[i], 7 * n), r);
      assert s[i..r.next] == [s[i]] + s[i + 1..r.next];
    } else {
      assert s[i..r.next] == [s[i]];
    }
  }

  /** Reading a varint succeeds exactly where one stands, with its value and the index behind it. */
  lemma {:induction false} ReadsVarint(s: Bytes, i: nat, r: Read)
    requires i <= |s|
    ensures ReadVarint(s, i) == Ok(r)
       <==> i <= r.next <= |s| && IsVarint(s[i..r.next]) && r.v == VarintValue(s[i..r.next])
  {
    assert Pow2(0) == 1;
    if ReadVarint(s, i).Ok? {
      var n := ReadVarint(s, i).value.next;
      ReadEnds(s, i, 0, 0, ReadVarint(s, i).value);
      ReadsGroups(s, i, 0, 0, s[i..n]);
    }
    if i <= r.next <= |s| && IsVarint(s[i..r.next]) {
      ReadsGroups(s, i, 0, 0, s[i..r.next]);
    }
  }

  lemma {:induction false} ReadsAt(s: Bytes, i: nat, e: seq<Byte>)
    requires IsVarint(e) && At(s, i, e)
    ensures ReadVarint(s, i) == Ok(Read(VarintValue(e), i + |e|))
  {
    ReadsVarint(s, i, Read(VarintValue(e), i + |e|));
  }

  lemma {:induction false} ReadIs(s: Bytes, i: nat, r: Read)
    requires i <= |s| && ReadVarint(s, i) == Ok(r)
    ensures IsVarint(s[i..r.next]) && r.v == VarintValue(s[i..r.next])
  {
    ReadsVarint(s, i, r);
  }

  // ------------------------------------------------------------------ fields

  /** A field with the bytes it consists of; tags and lengths are varints, padded ones included. */
  datatype Field =
    | Varint(tag: seq<Byte>, value: seq<Byte>)
    | Fixed64(tag: seq<Byte>, data: seq<Byte>)
    | Delimited(tag: seq<Byte>, len: seq<Byte>, data: seq<Byte>)
    | Group(tag: seq<Byte>, fields: seq<Field>, end: seq<Byte>)
    | Fixed32(tag: seq<Byte>, data: seq<Byte>)

  function WireType(f: Field): nat {
    match f
    case Varint(_, _) => 0
    case Fixed64(_, _) => 1
    case Delimited(_, _, _) => 2
    case Group(_, _, _) => 3
    case Fixed32(_, _) => 5
  }

  predicate IsTag(e: seq<Byte>, wireType: nat) {
    IsVarint(e) && VarintValue(e) % 8 == wireType
  }

  /** Each kind of field, with the size of what follows its tag. */
  predicate IsField(f: Field) {
    && IsTag(f.tag, WireType(f))
    && match f
       case Varint(_, value) => IsVarint(value)
       case Fixed64(_, data) => |data| == 8
       case Delimited(_, len, data) => IsVarint(len) && VarintValue(len) == |data|
       case Group(_, fields, end) => AreFields(fields) && IsTag(end, 4)
       case Fixed32(_, data) => |data| == 4
  }

  predicate AreFields(fs: seq<Field>) {
    forall f :: f in fs ==> IsField(f)
  }

  function Encoded(f: Field): seq<Byte> {
    match f
    case Varint(tag, value) => tag + value
    case Fixed64(tag, data) => tag + data
    case Delimited(tag, len, data) => tag + (len + data)
    case Group(tag, fields, end) => tag + (EncodedAll(fields) + end)
    case Fixed32(tag, data) => tag + data
  }

  /** The bytes of a run of fields. */
  function EncodedAll(fs: seq<Field>): seq<Byte> {
    if fs == [] then [] else Encoded(fs[0]) + EncodedAll(fs[1..])
  }

  lemma {:induction false} EncodedCons(f: Field, fs: seq<Field>)
    ensures EncodedAll([f] + fs) == Encoded(f) + EncodedAll(fs)
  {
    assert ([f] + fs)[1..] == fs;
  }

  // ------------------------------------------- every field is skipped as a whole

  /** Where the skipping loop is once a field at some depth is behind it. */
  function Past(s: Bytes, n: nat, depth: nat): Result<nat> {
    if depth == 0 then Ok(n) else SkipFrom(s, n, depth)
  }

  /** One round of the loop, for a tag and what follows it. */
  lemma {:induction false} SkipRound(s: Bytes, i: nat, depth: nat, tag: seq<Byte>, wireType: nat, k: Skip)
    requires IsTag(tag, wireType) && At(s, i, tag)
    requires SkipPayload(s, i + |tag|, wireType, depth) == Ok(k) && k.next >= 0
    ensures SkipFrom(s, i, depth) == Past(s, k.next, k.depth)
  {
    hide ReadVarint, SkipPayload, IsVarint, VarintValue;
    ReadsAt(s, i, tag);
    assert |tag| >= 1 by { TagNotEmpty(tag); }
  }

  lemma {:induction false} TagNotEmpty(e: seq<Byte>)
    requires IsVarint(e)
    ensures |e| >= 1
  {
  }

  lemma {:induction false} SkipsFlat(s: Bytes, i: nat, depth: nat, f: Field)
    requires IsField(f) && !f.Group? && At(s, i, Encoded(f))
    ensures IsTag(f.tag, WireType(f)) && At(s, i, f.tag)
    ensures SkipPayload(s, i + |f.tag|, WireType(f), depth) == Ok(Skip(i + |Encoded(f)|, depth))
  {
    hide ReadVarint, IsVarint, VarintValue;
    match f
    case Varint(tag, value) =>
      AtConcat(s, i, tag, value);
      ReadsAt(s, i + |tag|, value);
    case Fixed64(tag, data) => AtConcat(s, i, tag, data);
    case Delimited(tag, len, data) =>
      AtConcat(s, i, tag, len + data);
      AtConcat(s, i + |tag|, len, data);
      ReadsAt(s, i + |tag|, len);
    case Fixed32(tag, data) => AtConcat(s, i, tag, data);
  }

  lemma {:induction false} SkipsOne(s: Bytes, i: nat, depth: nat, f: Field)
    requires IsField(f) && At(s, i, Encoded(f))
    ensures SkipFrom(s, i, depth) == Past(s, i + |Encoded(f)|, depth)
    decreases f, 1
  {
    hide SkipFrom, SkipPayload, IsField, Encoded, IsTag;
    if f.Group? {
      SkipsGroup(s, i, depth, f);
    } else {
      SkipsFlat(s, i, depth, f);
      SkipRound(s, i, depth, f.tag, WireType(f), Skip(i + |Encoded(f)|, depth));
    }
  }

  lemma {:induction false} SkipsGroup(s: Bytes, i: nat, depth: nat, f: Field)
    requires IsField(f) && f.Group? && At(s, i, Encoded(f))
    ensures SkipFrom(s, i, depth) == Past(s, i + |Encoded(f)|, depth)
    decreases f, 0
  {
    hide SkipFrom, SkipPayload, IsTag;
    var fields := EncodedAll(f.fields);
    var n := i + |f.tag| + |fields|;
    AtConcat(s, i, f.tag, fields + f.end);
    AtConcat(s, i + |f.tag|, fields, f.end);
    GroupEnds(s, i + |f.tag|, depth);
    SkipRound(s, i, depth, f.tag, 3, Skip(i + |f.tag|, depth + 1));
    SkipsAll(s, i + |f.tag|, depth + 1, f.fields);
    GroupEnds(s, n + |f.end|, depth);
    SkipRound(s, n, depth + 1, f.end, 4, Skip(n + |f.end|, depth));
  }

  lemma {:induction false} GroupEnds(s: Bytes, j: nat, depth: nat)
    requires j <= |s|
    ensures SkipPayload(s, j, 3, depth) == Ok(Skip(j, depth + 1))
    ensures SkipPayload(s, j, 4, depth + 1) == Ok(Skip(j, depth))
    ensures SkipPayload(s, j, 4, 0) == Err(UnexpectedEndOfGroup)
  {
  }

  /** Inside a group. */
  lemma {:induction false} SkipsAll(s: Bytes, i: nat, depth: nat, fs: seq<Field>)
    requires AreFields(fs) && depth > 0 && At(s, i, EncodedAll(fs))
    ensures SkipFrom(s, i, depth) == SkipFrom(s, i + |EncodedAll(fs)|, depth)
    decreases fs
  {
    hide SkipFrom, Encoded, IsField;
    if fs != [] {
      AtConcat(s, i, Encoded(fs[0]), EncodedAll(fs[1..]));
      SkipsOne(s, i, depth, fs[0]);
      SkipsAll(s, i + |Encoded(fs[0])|, depth, fs[1..]);
    }
  }

  // --------------------------------------------- whatever is skipped is a field

  /** A round that neither opens nor closes a group has left a field behind. */
  lemma {:induction false} FlatBack(s: Bytes, i: nat, depth: nat, tag: Read, k: Skip) returns (f: Field)
    requires i <= |s| && ReadVarint(s, i) == Ok(tag) && tag.v % 8 != 3 && tag.v % 8 != 4
    requires SkipPayload(s, tag.next, tag.v % 8, depth) == Ok(k) && 0 <= k.next <= |s|
    ensures k.depth == depth && i <= k.next && IsField(f) && !f.Group? && Encoded(f) == s[i..k.next]
    ensures f.tag == s[i..tag.next]
  {
    hide ReadVarint, IsVarint, VarintValue;
    ReadIs(s, i, tag);
    var t, j := s[i..tag.next], tag.next;
    match tag.v % 8 {
      case 0 =>
        ReadIs(s, j, ReadVarint(s, j).value);
        f := Varint(t, s[j..k.next]);
      case 1 => f := Fixed64(t, s[j..k.next]);
      case 2 =>
        var len := ReadVarint(s, j).value;
        ReadIs(s, j, len);
        f := Delimited(t, s[j..len.next], s[len.next..k.next]);
        assert s[j..len.next] + s[len.next..k.next] == s[j..k.next];
      case 5 => f := Fixed32(t, s[j..k.next]);
    }
    assert t + s[j..k.next] == s[i..k.next];
  }

  /** The first round of the loop, taken apart. */
  lemma {:induction false} FirstRound(s: Bytes, i: nat, depth: nat, n: nat) returns (tag: Read, k: Skip)
    requires SkipFrom(s, i, depth) == Ok(n) && n <= |s|
    ensures i < |s| && ReadVarint(s, i) == Ok(tag) && SkipPayload(s, tag.next, tag.v % 8, depth) == Ok(k)
    ensures IsTag(s[i..tag.next], tag.v % 8) && i < tag.next <= k.next <= n && Past(s, k.next, k.depth) == Ok(n)
  {
    tag := ReadVarint(s, i).value;
    k := SkipPayload(s, tag.next, tag.v % 8, depth).value;
    ReadIs(s, i, tag);
    hide ReadVarint, SkipPayload, IsVarint, VarintValue;
  }

  /** What is skipped from inside a group on: some fields and the tag that ends the group, then what is outside. */
  lemma {:induction false} GroupBack(s: Bytes, i: nat, depth: nat, n: nat)
    returns (fs: seq<Field>, end: seq<Byte>, m: nat)
    requires depth > 0 && SkipFrom(s, i, depth) == Ok(n) && n <= |s|
    ensures i < m <= n && AreFields(fs) && IsTag(end, 4) && EncodedAll(fs) + end == s[i..m]
    ensures Past(s, m, depth - 1) == Ok(n)
    decreases |s| - i, 0
  {
    hide ReadVarint, SkipFrom, SkipPayload, IsTag, IsField, Encoded;
    var tag, k := FirstRound(s, i, depth, n);
    GroupEnds(s, tag.next, depth - 1);
    GroupEnds(s, tag.next, depth);
    if tag.v % 8 == 4 {
      fs, end, m := [], s[i..tag.next], tag.next;
      assert [] + end == end;
    } else {
      var f: Field;
      if tag.v % 8 == 3 {
        f := NestedBack(s, i, depth, n, tag);
      } else {
        f := FlatBack(s, i, depth, tag, k);
      }
      var p := i + |Encoded(f)|;
      var rest;
      rest, end, m := GroupBack(s, p, depth, n);
      fs := [f] + rest;
      EncodedCons(f, rest);
      assert Encoded(f) + EncodedAll(rest) + end == s[i..p] + s[p..m] == s[i..m];
    }
  }

  /** A group, from its start tag on. */
  lemma {:induction false} NestedBack(s: Bytes, i: nat, depth: nat, n: nat, tag: Read) returns (f: Field)
    requires i < tag.next <= n <= |s| && IsTag(s[i..tag.next], 3) && SkipFrom(s, tag.next, depth + 1) == Ok(n)
    ensures IsField(f) && f.Group? && f.tag == s[i..tag.next]
    ensures i + |Encoded(f)| <= n && Encoded(f) == s[i..i + |Encoded(f)|] && |Encoded(f)| > 0
    ensures Past(s, i + |Encoded(f)|, depth) == Ok(n)
    decreases |s| - tag.next, 1
  {
    hide SkipFrom, IsTag;
    var fs, end, m := GroupBack(s, tag.next, depth + 1, n);
    f := Group(s[i..tag.next], fs, end);
    assert Encoded(f) == s[i..tag.next] + s[tag.next..m] == s[i..m];
  }

  /**
   * Skipping gets to n, within the buffer, exactly if a field ends there: eight bytes behind a fixed64 tag, as many
   * as the length prefix says, a group up to its end tag, and so on.
   */
  lemma {:induction false} SkipsExactly(s: Bytes, n: nat)
    requires n <= |s|
    ensures SkipField(s) == Ok(n) <==> exists f :: IsField(f) && Encoded(f) == s[..n]
  {
    hide IsField, Encoded;
    if SkipField(s) == Ok(n) {
      var f := FieldBack(s, n);
    }
    forall f | IsField(f) && Encoded(f) == s[..n] ensures SkipField(s) == Ok(n) {
      assert s[0..0 + n] == s[..n];
      SkipsOne(s, 0, 0, f);
    }
  }

  lemma {:induction false} FieldBack(s: Bytes, n: nat) returns (f: Field)
    requires SkipField(s) == Ok(n) && n <= |s|
    ensures IsField(f) && Encoded(f) == s[..n]
    ensures ReadVarint(s, 0) == Ok(Read(VarintValue(f.tag), |f.tag|))
  {
    hide ReadVarint, SkipFrom, SkipPayload, IsField, Encoded;
    var tag, k := FirstRound(s, 0, 0, n);
    GroupEnds(s, tag.next, 0);
    ReadIs(s, 0, tag);
    if tag.v % 8 == 3 {
      f := NestedBack(s, 0, 0, n, tag);
    } else {
      f := FlatBack(s, 0, 0, tag, k);
    }
  }
}
