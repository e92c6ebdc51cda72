/** The parsing loops: indices move forward, fields are set as they arrive. Each refines its function. */
module Reader {
  import opened Wire
  import opened Schema
  import opened Messages

  /** The inlined shift loop that reads a tag, a length or a uint64. */
  method ReadUint64(dAtA: Bytes, i: nat) returns (r: Result<Read>)
    requires i <= |dAtA|
    ensures r == ReadVarint(dAtA, i)
  {
    var iNdEx: nat, shift: nat, wire: nat := i, 0, 0;
    while true
      invariant i <= iNdEx <= |dAtA| && wire < U64
      invariant ReadVarint(dAtA, i) == ReadFrom(dAtA, iNdEx, shift, wire)
      decreases |dAtA| - iNdEx
    {
      if shift >= 64 { return Err(IntOverflow); }
      if iNdEx >= |dAtA| { return Err(UnexpectedEOF); }
      var b := dAtA[iNdEx];
      iNdEx := iNdEx + 1;
      wire := Accumulate(wire, b, shift);
      if b < 0x80 { return Ok(Read(wire, iNdEx)); }
      shift := shift + 7;
    }
  }

  /** `v |= uint32(b&0x7F) << shift`: bits from 32 on are lost. */
  function Accumulate32(acc: nat, b: Byte, shift: nat): (sum: nat)
    ensures sum < U32
  {
    (acc + b % 128 * Pow2(shift)) % U32
  }

  lemma {:induction false} ModMod(x: nat)
    ensures x % U64 % U32 == x % U32
  {
    var q := x / U64;
    assert x == q * U64 + x % U64;
    assert x == q * U32 * U32 + x % U64;
    ModSkip(q * U32, x % U64);
  }

  lemma {:induction false} ModSkip(k: nat, y: nat)
    ensures (k * U32 + y) % U32 == y % U32
  {
    if k > 0 {
      ModSkip(k - 1, y);
      assert (k * U32 + y) == ((k - 1) * U32 + y) + U32;
    }
  }

  lemma {:induction false} ModSum(a: nat, b: nat)
    ensures (a + b) % U32 == (a % U32 + b) % U32
  {
    var q := a / U32;
    assert a == q * U32 + a % U32;
    ModSkip(q, a % U32 + b);
  }

  lemma {:induction false} LowHalf(x: nat)
    ensures ToInt32(x % U32) == ToInt32(x)
  {
  }

  /** Accumulating in 32 bits is accumulating in 64 and keeping the low half. */
  lemma {:induction false} NarrowAccumulate(acc: nat, b: Byte, shift: nat)
    ensures Accumulate(acc, b, shift) % U32 == Accumulate32(acc % U32, b, shift)
  {
    var y := b % 128 * Pow2(shift);
    ModMod(acc + y);
    ModSum(acc, y);
  }

  /** The shift loop that reads into a 32-bit variable. */
  method ReadUint32(dAtA: Bytes, i: nat) returns (r: Result<Read>)
    requires i <= |dAtA|
    ensures r == match ReadVarint(dAtA, i)
                 case Ok(w) => Ok(Read(w.v % U32, w.next))
                 case Err(e) => Err(e)
  {
    var iNdEx: nat, shift: nat, v: nat := i, 0, 0;
    ghost var wide: nat := 0;
    hide Accumulate, Accumulate32;
    while true
      invariant i <= iNdEx <= |dAtA| && wide < U64 && v == wide % U32
      invariant ReadVarint(dAtA, i) == ReadFrom(dAtA, iNdEx, shift, wide)
      decreases |dAtA| - iNdEx
    {
      if shift >= 64 { return Err(IntOverflow); }
      if iNdEx >= |dAtA| { return Err(UnexpectedEOF); }
      var b := dAtA[iNdEx];
      iNdEx := iNdEx + 1;
      NarrowAccumulate(wide, b, shift);
      v := Accumulate32(v, b, shift);
      wide := Accumulate(wide, b, shift);
      if b < 0x80 { return Ok(Read(v, iNdEx)); }
      shift := shift + 7;
    }
  }

  /** One round of the skipping loop. */
  lemma {:induction false} SkipRound(s: Bytes, i: nat, depth: nat)
    ensures SkipFrom(s, i, depth)
         == if i >= |s| then Err(UnexpectedEOF)
            else match SkipStep(s, i, depth)
              case Err(e) => Err(e)
              case Ok(k) => if k.depth == 0 then Ok(k.next) else SkipFrom(s, k.next, k.depth)
  {
  }

  method SkipLog(dAtA: Bytes) returns (r: Result<nat>)
    ensures r == SkipField(dAtA)
    ensures r.Ok? ==> r.value >= 1
  {
    hide SkipFrom, ReadVarint;
    var iNdEx, depth := 0, 0;
    while iNdEx < |dAtA|
      invariant 0 <= iNdEx && 0 <= depth
      invariant SkipField(dAtA) == SkipFrom(dAtA, iNdEx, depth)
      decreases |dAtA| - iNdEx
    {
      SkipRound(dAtA, iNdEx, depth);
      var wire :- ReadUint64(dAtA, iNdEx);
      iNdEx := wire.next;
      match wire.v % 8 {
        case 0 =>
          var v :- ReadUint64(dAtA, iNdEx);
          iNdEx := v.next;
        case 1 =>
          iNdEx := ToInt64(iNdEx + 8);
        case 2 =>
          var length :- ReadUint64(dAtA, iNdEx);
          if ToInt64(length.v) < 0 { return Err(InvalidLength); }
          iNdEx := ToInt64(length.next + ToInt64(length.v));
        case 3 =>
          depth := depth + 1;
        case 4 =>
          if depth == 0 { return Err(UnexpectedEndOfGroup); }
          depth := depth - 1;
        case 5 =>
          iNdEx := ToInt64(iNdEx + 4);
        case _ =>
          return Err(IllegalWireType);
      }
      if iNdEx < 0 { return Err(InvalidLength); }
      if depth == 0 { return Ok(iNdEx); }
    }
    SkipRound(dAtA, iNdEx, depth);
    return Err(UnexpectedEOF);
  }

  /** Length, bounds checks and slice of a string, bytes or message field. */
  method ReadBytes(dAtA: Bytes, i: nat) returns (r: Result<Took>)
    requires i <= |dAtA|
    ensures r == TakePayload(dAtA, i, 2)
    ensures r.Ok? ==> r.value.p.BytesP? && r.value.next <= |dAtA|
  {
    var len :- ReadUint64(dAtA, i);
    var n := ToInt64(len.v);
    if n < 0 { return Err(InvalidLength); }
    var postIndex := ToInt64(len.next + n);
    if postIndex < 0 { return Err(InvalidLength); }
    if postIndex > |dAtA| { return Err(UnexpectedEOF); }
    return Ok(Took(BytesP(dAtA[len.next..postIndex]), postIndex));
  }

  /** The default case of every switch. */
  method ReadUnknown(dAtA: Bytes, preIndex: nat) returns (r: Result<nat>)
    requires preIndex < |dAtA|
    ensures r == TakeUnknown(dAtA, preIndex)
  {
    var skippy :- SkipLog(dAtA[preIndex..]);
    if ToInt64(preIndex + skippy) < 0 { return Err(InvalidLength); }
    if preIndex + skippy > |dAtA| { return Err(UnexpectedEOF); }
    return Ok(preIndex + skippy);
  }

  /** hasFields, as the set of required field numbers whose bit is on. */
  ghost function Flags(bit1: bool, bit2: bool): set<int> {
    if bit1 && bit2 then {1, 2} else if bit1 then {1} else if bit2 then {2} else {}
  }

  /** Setting the bit of a field number that has one. */
  lemma {:induction false} Seen(bit1: bool, bit2: bool, num: int, required: set<int>)
    requires required <= {1, 2}
    ensures Flags(bit1, bit2) + {num} * required
         == Flags(bit1 || (num == 1 && 1 in required), bit2 || (num == 2 && 2 in required))
  {
  }

  lemma {:induction false} NoFlags()
    ensures Flags(false, false) == {}
  {
  }

  lemma {:induction false} SeenAll(bit1: bool, bit2: bool, required: set<int>)
    requires required <= {1, 2}
    ensures required <= Flags(bit1, bit2) <==> (1 in required ==> bit1) && (2 in required ==> bit2)
  {
  }

  // ------------------------------------------------ one round, as the loops see it

  /** A bad tag ends the parse. */
  lemma {:induction false} AtTag<F>(sc: Schema<F>, s: Bytes, i: nat, m: Message<F>, has: set<int>)
    requires i < |s|
    ensures match ReadVarint(s, i)
            case Err(e) => Parse(sc, s, i, m, has) == Err(e)
            case Ok(tag) =>
              && (tag.v % 8 == 4 ==> Parse(sc, s, i, m, has) == Err(EndGroup))
              && (tag.v % 8 != 4 && ToInt32(tag.v / 8) <= 0 ==> Parse(sc, s, i, m, has) == Err(IllegalTag))
  {
    hide ReadVarint, TakePayload, TakeUnknown;
  }

  lemma {:induction false} AtUnknown<F>(sc: Schema<F>, s: Bytes, i: nat, m: Message<F>, has: set<int>, tag: Read)
    requires i < |s| && ReadVarint(s, i) == Ok(tag) && tag.v % 8 != 4 && ToInt32(tag.v / 8) > 0
    requires sc.wire(ToInt32(tag.v / 8)) == None
    ensures Parse(sc, s, i, m, has)
         == match TakeUnknown(s, i)
            case Err(e) => Err(e)
            case Ok(next) => Parse(sc, s, next, m.(unrecognized := m.unrecognized + s[i..next]), has)
  {
    hide ReadVarint, TakePayload, TakeUnknown;
  }

  /** What is left to do once the tag of a declared field has been read. */
  function Stored<F>(
    sc: Schema<F>, s: Bytes, m: Message<F>, has: set<int>, tag: Read, wireType: nat): Result<Message<F>>
    requires tag.next <= |s|
  {
    var num := ToInt32(tag.v / 8);
    var took :- TakePayload(s, tag.next, wireType);
    var fields :- sc.put(m.fields, num, took.p);
    Parse(sc, s, took.next, m.(fields := fields), has + {num} * sc.required)
  }

  lemma {:induction false} AtKnown<F>(
    sc: Schema<F>, s: Bytes, i: nat, m: Message<F>, has: set<int>, tag: Read, expected: nat)
    requires i < |s| && ReadVarint(s, i) == Ok(tag) && tag.v % 8 != 4 && ToInt32(tag.v / 8) > 0
    requires sc.wire(ToInt32(tag.v / 8)) == Some(expected)
    ensures tag.v % 8 != expected ==> Parse(sc, s, i, m, has) == Err(WrongWireType)
    ensures tag.v % 8 == expected ==> Parse(sc, s, i, m, has) == Stored(sc, s, m, has, tag, expected)
  {
    hide ReadVarint, TakePayload, TakeUnknown;
  }

  lemma {:induction false} AtEnd<F>(sc: Schema<F>, s: Bytes, m: Message<F>, has: set<int>)
    ensures Parse(sc, s, |s|, m, has) == if sc.required <= has then Ok(m) else Err(RequiredNotSet)
  {
  }

  // -------------------------------------------------------- LogContent and LogTag

  /** `m.Unmarshal(dAtA)`: m0 is what the message held before, so a reused message keeps its fields. */
  method ReadPair(m0: LogContent, dAtA: Bytes) returns (r: Result<LogContent>)
    ensures r == Parse(PAIR, dAtA, 0, m0, {})
  {
    hide Parse, Step, ReadVarint, ReadFrom, TakeUnknown, TakeBytes, SkipField, LittleEndian32, Flags, ToInt32;
    var m, iNdEx: nat, has1, has2 := m0, 0, false, false;
    NoFlags();
    while iNdEx < |dAtA|
      invariant iNdEx <= |dAtA|
      invariant Parse(PAIR, dAtA, 0, m0, {}) == Parse(PAIR, dAtA, iNdEx, m, Flags(has1, has2))
    {
      var preIndex := iNdEx;
      AtTag(PAIR, dAtA, iNdEx, m, Flags(has1, has2));
      var wire :- ReadUint64(dAtA, iNdEx);
      iNdEx := wire.next;
      var fieldNum, wireType := ToInt32(wire.v / 8), wire.v % 8;
      if wireType == 4 { return Err(EndGroup); }
      if fieldNum <= 0 { return Err(IllegalTag); }
      match fieldNum {
        case 1 =>
          AtKnown(PAIR, dAtA, preIndex, m, Flags(has1, has2), wire, 2);
          Seen(has1, has2, fieldNum, PAIR.required);
          if wireType != 2 { return Err(WrongWireType); }
          var key :- ReadBytes(dAtA, iNdEx);
          m := m.(fields := m.fields.(key := Some(key.p.b)));
          iNdEx := key.next;
          has1 := true;
        case 2 =>
          AtKnown(PAIR, dAtA, preIndex, m, Flags(has1, has2), wire, 2);
          Seen(has1, has2, fieldNum, PAIR.required);
          if wireType != 2 { return Err(WrongWireType); }
          var value :- ReadBytes(dAtA, iNdEx);
          m := m.(fields := m.fields.(value := Some(value.p.b)));
          iNdEx := value.next;
          has2 := true;
        case _ =>
          AtUnknown(PAIR, dAtA, preIndex, m, Flags(has1, has2), wire);
          iNdEx :- ReadUnknown(dAtA, preIndex);
          m := m.(unrecognized := m.unrecognized + dAtA[preIndex..iNdEx]);
      }
    }
    AtEnd(PAIR, dAtA, m, Flags(has1, has2));
    SeenAll(has1, has2, PAIR.required);
    if !has1 { return Err(RequiredNotSet); }
    if !has2 { return Err(RequiredNotSet); }
    return Ok(m);
  }

  // ---------------------------------------------------------------- Log

  method ReadLog(m0: Log, dAtA: Bytes) returns (r: Result<Log>)
    ensures r == Parse(LOG, dAtA, 0, m0, {})
  {
    hide Parse, Step, ReadVarint, ReadFrom, TakeUnknown, TakeBytes, SkipField, LittleEndian32, Flags, ToInt32;
    var m, iNdEx: nat, has1 := m0, 0, false;
    NoFlags();
    while iNdEx < |dAtA|
      invariant iNdEx <= |dAtA|
      invariant Parse(LOG, dAtA, 0, m0, {}) == Parse(LOG, dAtA, iNdEx, m, Flags(has1, false))
    {
      var preIndex := iNdEx;
      AtTag(LOG, dAtA, iNdEx, m, Flags(has1, false));
      var wire :- ReadUint64(dAtA, iNdEx);
      iNdEx := wire.next;
      var fieldNum, wireType := ToInt32(wire.v / 8), wire.v % 8;
      if wireType == 4 { return Err(EndGroup); }
      if fieldNum <= 0 { return Err(IllegalTag); }
      match fieldNum {
        case 1 =>
          AtKnown(LOG, dAtA, preIndex, m, Flags(has1, false), wire, 0);
          Seen(has1, false, fieldNum, LOG.required);
          if wireType != 0 { return Err(WrongWireType); }
          var v :- ReadUint32(dAtA, iNdEx);
          assert v.v < U32;
          m := m.(fields := m.fields.(time := Some(v.v)));
          iNdEx := v.next;
          has1 := true;
        case 2 =>
          AtKnown(LOG, dAtA, preIndex, m, Flags(has1, false), wire, 2);
          Seen(has1, false, fieldNum, LOG.required);
          if wireType != 2 { return Err(WrongWireType); }
          var msg :- ReadBytes(dAtA, iNdEx);
          var x :- ReadPair(NO_PAIR, msg.p.b);
          m := m.(fields := m.fields.(contents := m.fields.contents + [x]));
          iNdEx := msg.next;
        case 4 =>
          AtKnown(LOG, dAtA, preIndex, m, Flags(has1, false), wire, 5);
          Seen(has1, false, fieldNum, LOG.required);
          if wireType != 5 { return Err(WrongWireType); }
          if iNdEx + 4 > |dAtA| { return Err(UnexpectedEOF); }
          var w: UInt32 := LittleEndian32(dAtA[iNdEx..iNdEx + 4]);
          assert w % U32 == w;
          m := m.(fields := m.fields.(timeNs := Some(w)));
          iNdEx := iNdEx + 4;
        case _ =>
          AtUnknown(LOG, dAtA, preIndex, m, Flags(has1, false), wire);
          iNdEx :- ReadUnknown(dAtA, preIndex);
          m := m.(unrecognized := m.unrecognized + dAtA[preIndex..iNdEx]);
      }
    }
    AtEnd(LOG, dAtA, m, Flags(has1, false));
    SeenAll(has1, false, LOG.required);
    if !has1 { return Err(RequiredNotSet); }
    return Ok(m);
  }

  // ---------------------------------------------------------------- LogGroup

  method ReadGroup(m0: LogGroup, dAtA: Bytes) returns (r: Result<LogGroup>)
    ensures r == Parse(GROUP, dAtA, 0, m0, {})
  {
    hide Parse, Step, ReadVarint, ReadFrom, TakeUnknown, TakeBytes, SkipField, LittleEndian32, Flags, ToInt32;
    var m, iNdEx: nat := m0, 0;
    NoFlags();
    while iNdEx < |dAtA|
      invariant iNdEx <= |dAtA|
      invariant Parse(GROUP, dAtA, 0, m0, {}) == Parse(GROUP, dAtA, iNdEx, m, Flags(false, false))
    {
      var preIndex := iNdEx;
      AtTag(GROUP, dAtA, iNdEx, m, Flags(false, false));
      var wire :- ReadUint64(dAtA, iNdEx);
      iNdEx := wire.next;
      var fieldNum, wireType := ToInt32(wire.v / 8), wire.v % 8;
      if wireType == 4 { return Err(EndGroup); }
      if fieldNum <= 0 { return Err(IllegalTag); }
      match fieldNum {
        case 1 =>
          AtKnown(GROUP, dAtA, preIndex, m, Flags(false, false), wire, 2);
          Seen(false, false, fieldNum, GROUP.required);
          if wireType != 2 { return Err(WrongWireType); }
          var msg :- ReadBytes(dAtA, iNdEx);
          var x :- ReadLog(NO_LOG, msg.p.b);
          m := m.(fields := m.fields.(logs := m.fields.logs + [x]));
          iNdEx := msg.next;
        case 2 =>
          AtKnown(GROUP, dAtA, preIndex, m, Flags(false, false), wire, 2);
          Seen(false, false, fieldNum, GROUP.required);
          if wireType != 2 { return Err(WrongWireType); }
          var category :- ReadBytes(dAtA, iNdEx);
          m := m.(fields := m.fields.(category := Some(category.p.b)));
          iNdEx := category.next;
        case 3 =>
          AtKnown(GROUP, dAtA, preIndex, m, Flags(false, false), wire, 2);
          Seen(false, false, fieldNum, GROUP.required);
          if wireType != 2 { return Err(WrongWireType); }
          var topic :- ReadBytes(dAtA, iNdEx);
          m := m.(fields := m.fields.(topic := Some(topic.p.b)));
          iNdEx := topic.next;
        case 4 =>
          AtKnown(GROUP, dAtA, preIndex, m, Flags(false, false), wire, 2);
          Seen(false, false, fieldNum, GROUP.required);
          if wireType != 2 { return Err(WrongWireType); }
          var source :- ReadBytes(dAtA, iNdEx);
          m := m.(fields := m.fields.(source := Some(source.p.b)));
          iNdEx := source.next;
        case 5 =>
          AtKnown(GROUP, dAtA, preIndex, m, Flags(false, false), wire, 2);
          Seen(false, false, fieldNum, GROUP.required);
          if wireType != 2 { return Err(WrongWireType); }
          var machineUUID :- ReadBytes(dAtA, iNdEx);
          m := m.(fields := m.fields.(machineUUID := Some(machineUUID.p.b)));
          iNdEx := machineUUID.next;
        case 6 =>
          AtKnown(GROUP, dAtA, preIndex, m, Flags(false, false), wire, 2);
          Seen(false, false, fieldNum, GROUP.required);
          if wireType != 2 { return Err(WrongWireType); }
          var msg :- ReadBytes(dAtA, iNdEx);
          var x :- ReadPair(NO_PAIR, msg.p.b);
          m := m.(fields := m.fields.(logTags := m.fields.logTags + [x]));
          iNdEx := msg.next;
        case _ =>
          AtUnknown(GROUP, dAtA, preIndex, m, Flags(false, false), wire);
          iNdEx :- ReadUnknown(dAtA, preIndex);
          m := m.(unrecognized := m.unrecognized + dAtA[preIndex..iNdEx]);
      }
    }
    AtEnd(GROUP, dAtA, m, Flags(false, false));
    SeenAll(false, false, GROUP.required);
    return Ok(m);
  }

  // ---------------------------------------------------------------- SlsLogPackage

  method ReadPackage(m0: SlsLogPackage, dAtA: Bytes) returns (r: Result<SlsLogPackage>)
    ensures r == Parse(PACKAGE, dAtA, 0, m0, {})
  {
    hide Parse, Step, ReadVarint, ReadFrom, TakeUnknown, TakeBytes, SkipField, LittleEndian32, Flags, ToInt32;
    var m, iNdEx: nat, has1 := m0, 0, false;
    NoFlags();
    while iNdEx < |dAtA|
      invariant iNdEx <= |dAtA|
      invariant Parse(PACKAGE, dAtA, 0, m0, {}) == Parse(PACKAGE, dAtA, iNdEx, m, Flags(has1, false))
    {
      var preIndex := iNdEx;
      AtTag(PACKAGE, dAtA, iNdEx, m, Flags(has1, false));
      var wire :- ReadUint64(dAtA, iNdEx);
      iNdEx := wire.next;
      var fieldNum, wireType := ToInt32(wire.v / 8), wire.v % 8;
      if wireType == 4 { return Err(EndGroup); }
      if fieldNum <= 0 { return Err(IllegalTag); }
      match fieldNum {
        case 1 =>
          AtKnown(PACKAGE, dAtA, preIndex, m, Flags(has1, false), wire, 2);
          Seen(has1, false, fieldNum, PACKAGE.required);
          if wireType != 2 { return Err(WrongWireType); }
          var data :- ReadBytes(dAtA, iNdEx);
          m := m.(fields := m.fields.(data := Some(data.p.b)));
          iNdEx := data.next;
          has1 := true;
        case 2 =>
          AtKnown(PACKAGE, dAtA, preIndex, m, Flags(has1, false), wire, 0);
          Seen(has1, false, fieldNum, PACKAGE.required);
          if wireType != 0 { return Err(WrongWireType); }
          ghost var wide := ReadVarint(dAtA, iNdEx);
          var v :- ReadUint32(dAtA, iNdEx);
          LowHalf(wide.value.v);
          m := m.(fields := m.fields.(uncompressSize := Some(ToInt32(v.v))));
          iNdEx := v.next;
        case _ =>
          AtUnknown(PACKAGE, dAtA, preIndex, m, Flags(has1, false), wire);
          iNdEx :- ReadUnknown(dAtA, preIndex);
          m := m.(unrecognized := m.unrecognized + dAtA[preIndex..iNdEx]);
      }
    }
    AtEnd(PACKAGE, dAtA, m, Flags(has1, false));
    SeenAll(has1, false, PACKAGE.required);
    if !has1 { return Err(RequiredNotSet); }
    return Ok(m);
  }

  // ---------------------------------------------------------------- SlsLogPackageList

  method ReadPackages(m0: SlsLogPackageList, dAtA: Bytes) returns (r: Result<SlsLogPackageList>)
    ensures r == Parse(PACKAGES, dAtA, 0, m0, {})
  {
    hide Parse, Step, ReadVarint, ReadFrom, TakeUnknown, TakeBytes, SkipField, LittleEndian32, Flags, ToInt32;
    var m, iNdEx: nat := m0, 0;
    NoFlags();
    while iNdEx < |dAtA|
      invariant iNdEx <= |dAtA|
      invariant Parse(PACKAGES, dAtA, 0, m0, {}) == Parse(PACKAGES, dAtA, iNdEx, m, Flags(false, false))
    {
      var preIndex := iNdEx;
      AtTag(PACKAGES, dAtA, iNdEx, m, Flags(false, false));
      var wire :- ReadUint64(dAtA, iNdEx);
      iNdEx := wire.next;
      var fieldNum, wireType := ToInt32(wire.v / 8), wire.v % 8;
      if wireType == 4 { return Err(EndGroup); }
      if fieldNum <= 0 { return Err(IllegalTag); }
      match fieldNum {
        case 1 =>
          AtKnown(PACKAGES, dAtA, preIndex, m, Flags(false, false), wire, 2);
          Seen(false, false, fieldNum, PACKAGES.required);
          if wireType != 2 { return Err(WrongWireType); }
          var msg :- ReadBytes(dAtA, iNdEx);
          var x :- ReadPackage(NO_PACKAGE, msg.p.b);
          m := m.(fields := m.fields.(packages := m.fields.packages + [x]));
          iNdEx := msg.next;
        case _ =>
          AtUnknown(PACKAGES, dAtA, preIndex, m, Flags(false, false), wire);
          iNdEx :- ReadUnknown(dAtA, preIndex);
          m := m.(unrecognized := m.unrecognized + dAtA[preIndex..iNdEx]);
      }
    }
    AtEnd(PACKAGES, dAtA, m, Flags(false, false));
    SeenAll(false, false, PACKAGES.required);
    return Ok(m);
  }

  // ---------------------------------------------------------------- LogGroupList

  method ReadGroups(m0: LogGroupList, dAtA: Bytes) returns (r: Result<LogGroupList>)
    ensures r == Parse(GROUPS, dAtA, 0, m0, {})
  {
    hide Parse, Step, ReadVarint, ReadFrom, TakeUnknown, TakeBytes, SkipField, LittleEndian32, Flags, ToInt32;
    var m, iNdEx: nat := m0, 0;
    NoFlags();
    while iNdEx < |dAtA|
      invariant iNdEx <= |dAtA|
      invariant Parse(GROUPS, dAtA, 0, m0, {}) == Parse(GROUPS, dAtA, iNdEx, m, Flags(false, false))
    {
      var preIndex := iNdEx;
      AtTag(GROUPS, dAtA, iNdEx, m, Flags(false, false));
      var wire :- ReadUint64(dAtA, iNdEx);
      iNdEx := wire.next;
      var fieldNum, wireType := ToInt32(wire.v / 8), wire.v % 8;
      if wireType == 4 { return Err(EndGroup); }
      if fieldNum <= 0 { return Err(IllegalTag); }
      match fieldNum {
        case 1 =>
          AtKnown(GROUPS, dAtA, preIndex, m, Flags(false, false), wire, 2);
          Seen(false, false, fieldNum, GROUPS.required);
          if wireType != 2 { return Err(WrongWireType); }
          var msg :- ReadBytes(dAtA, iNdEx);
          var x :- ReadGroup(NO_GROUP, msg.p.b);
          m := m.(fields := m.fields.(logGroups := m.fields.logGroups + [x]));
          iNdEx := msg.next;
        case _ =>
          AtUnknown(GROUPS, dAtA, preIndex, m, Flags(false, false), wire);
          iNdEx :- ReadUnknown(dAtA, preIndex);
          m := m.(unrecognized := m.unrecognized + dAtA[preIndex..iNdEx]);
      }
    }
    AtEnd(GROUPS, dAtA, m, Flags(false, false));
    SeenAll(false, false, GROUPS.required);
    return Ok(m);
  }
}
