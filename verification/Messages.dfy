/** The seven messages of log.proto: their schemas, their encodings, and that parsing inverts encoding. */
module Messages {
  import opened Wire
  import opened Schema

  type UInt32 = n: int | 0 <= n < U32
  type Int32 = n: int | -I32 <= n < I32

  /** LogContent and LogTag have the same fields and the same generated code. */
  datatype PairFields = PairFields(key: Option<Bytes>, value: Option<Bytes>)
  type LogContent = Message<PairFields>
  type LogTag = Message<PairFields>

  datatype LogFields = LogFields(time: Option<UInt32>, contents: seq<LogContent>, timeNs: Option<UInt32>)
  type Log = Message<LogFields>

  datatype LogGroupFields = LogGroupFields(
    logs: seq<Log>, category: Option<Bytes>, topic: Option<Bytes>, source: Option<Bytes>,
    machineUUID: Option<Bytes>, logTags: seq<LogTag>)
  type LogGroup = Message<LogGroupFields>

  datatype PackageFields = PackageFields(data: Option<Bytes>, uncompressSize: Option<Int32>)
  type SlsLogPackage = Message<PackageFields>

  datatype PackageListFields = PackageListFields(packages: seq<SlsLogPackage>)
  type SlsLogPackageList = Message<PackageListFields>

  datatype LogGroupListFields = LogGroupListFields(logGroups: seq<LogGroup>)
  type LogGroupList = Message<LogGroupListFields>

  const NO_PAIR: LogContent := Message(PairFields(None, None), [])
  const NO_LOG: Log := Message(LogFields(None, [], None), [])
  const NO_GROUP: LogGroup := Message(LogGroupFields([], None, None, None, None, []), [])
  const NO_PACKAGE: SlsLogPackage := Message(PackageFields(None, None), [])
  const NO_PACKAGES: SlsLogPackageList := Message(PackageListFields([]), [])
  const NO_GROUPS: LogGroupList := Message(LogGroupListFields([]), [])

  // ---------------------------------------------------------------- encoding

  function EncodePair(m: LogContent): seq<Byte> {
    OptField(1, m.fields.key) + (OptField(2, m.fields.value) + m.unrecognized)
  }

  function LittleEndianBytes(v: UInt32): (b: seq<Byte>)
    ensures |b| == 4
  {
    [v % 0x100, v / 0x100 % 0x100, v / 0x1_0000 % 0x100, v / 0x100_0000]
  }

  function TimeField(t: Option<UInt32>): seq<Byte> {
    match t
    case None => []
    case Some(v) => VarintField(1, v)
  }

  function NsField(t: Option<UInt32>): seq<Byte> {
    match t
    case None => []
    case Some(v) => [Tag(4, 5)] + LittleEndianBytes(v)
  }

  function EncodeLog(m: Log): seq<Byte> {
    TimeField(m.fields.time)
    + (Repeated(2, EncodeEach(EncodePair, m.fields.contents)) + (NsField(m.fields.timeNs) + m.unrecognized))
  }

  /** The four optional strings between the logs and the tags. */
  function GroupStrings(f: LogGroupFields): seq<Byte> {
    OptField(2, f.category) + (OptField(3, f.topic) + (OptField(4, f.source) + OptField(5, f.machineUUID)))
  }

  function EncodeGroup(m: LogGroup): seq<Byte> {
    Repeated(1, EncodeEach(EncodeLog, m.fields.logs))
    + (GroupStrings(m.fields) + (Repeated(6, EncodeEach(EncodePair, m.fields.logTags)) + m.unrecognized))
  }

  /** `uint64(v)` of an int32: negative values are sign-extended. */
  function SignExtend(v: Int32): (u: nat)
    ensures u < U64
  {
    if v >= 0 then v else v + U64
  }

  function SizeField(v: Option<Int32>): seq<Byte> {
    match v
    case None => []
    case Some(x) => VarintField(2, SignExtend(x))
  }

  function EncodePackage(m: SlsLogPackage): seq<Byte> {
    OptField(1, m.fields.data) + (SizeField(m.fields.uncompressSize) + m.unrecognized)
  }

  function EncodePackages(m: SlsLogPackageList): seq<Byte> {
    Repeated(1, EncodeEach(EncodePackage, m.fields.packages)) + m.unrecognized
  }

  function EncodeGroups(m: LogGroupList): seq<Byte> {
    Repeated(1, EncodeEach(EncodeGroup, m.fields.logGroups)) + m.unrecognized
  }

  // ----------------------------------------------------------------- parsing

  function PairWire(num: int): Option<nat> {
    if num == 1 || num == 2 then Some(2) else None
  }

  function PutPair(f: PairFields, num: int, p: Payload): Result<PairFields> {
    if p.BytesP? && num == 1 then Ok(f.(key := Some(p.b)))
    else if p.BytesP? && num == 2 then Ok(f.(value := Some(p.b)))
    else Err(WrongWireType)
  }

  const PAIR := Schema(PairWire, PutPair, {1, 2})

  function UnmarshalPair(s: Bytes): Result<LogContent> {
    Parse(PAIR, s, 0, NO_PAIR, {})
  }

  function LogWire(num: int): Option<nat> {
    if num == 1 then Some(0) else if num == 2 then Some(2) else if num == 4 then Some(5) else None
  }

  function PutLog(f: LogFields, num: int, p: Payload): Result<LogFields> {
    if p.VarintP? && num == 1 then Ok(f.(time := Some(p.v % U32)))
    else if p.BytesP? && num == 2 then
      var c :- UnmarshalPair(p.b);
      Ok(f.(contents := f.contents + [c]))
    else if p.Fixed32P? && num == 4 then Ok(f.(timeNs := Some(p.w % U32)))
    else Err(WrongWireType)
  }

  const LOG := Schema(LogWire, PutLog, {1})

  function UnmarshalLog(s: Bytes): Result<Log> {
    Parse(LOG, s, 0, NO_LOG, {})
  }

  function GroupWire(num: int): Option<nat> {
    if 1 <= num <= 6 then Some(2) else None
  }

  function PutGroup(f: LogGroupFields, num: int, p: Payload): Result<LogGroupFields> {
    if !p.BytesP? then Err(WrongWireType)
    else match num
      case 1 => var l :- UnmarshalLog(p.b); Ok(f.(logs := f.logs + [l]))
      case 2 => Ok(f.(category := Some(p.b)))
      case 3 => Ok(f.(topic := Some(p.b)))
      case 4 => Ok(f.(source := Some(p.b)))
      case 5 => Ok(f.(machineUUID := Some(p.b)))
      case 6 => var t :- UnmarshalPair(p.b); Ok(f.(logTags := f.logTags + [t]))
      case _ => Err(WrongWireType)
  }

  const GROUP := Schema(GroupWire, PutGroup, {})

  function UnmarshalGroup(s: Bytes): Result<LogGroup> {
    Parse(GROUP, s, 0, NO_GROUP, {})
  }

  function PackageWire(num: int): Option<nat> {
    if num == 1 then Some(2) else if num == 2 then Some(0) else None
  }

  function PutPackage(f: PackageFields, num: int, p: Payload): Result<PackageFields> {
    if p.BytesP? && num == 1 then Ok(f.(data := Some(p.b)))
    else if p.VarintP? && num == 2 then Ok(f.(uncompressSize := Some(ToInt32(p.v))))
    else Err(WrongWireType)
  }

  const PACKAGE := Schema(PackageWire, PutPackage, {1})

  function UnmarshalPackage(s: Bytes): Result<SlsLogPackage> {
    Parse(PACKAGE, s, 0, NO_PACKAGE, {})
  }

  function ListWire(num: int): Option<nat> {
    if num == 1 then Some(2) else None
  }

  function PutPackages(f: PackageListFields, num: int, p: Payload): Result<PackageListFields> {
    if p.BytesP? && num == 1 then
      var x :- UnmarshalPackage(p.b);
      Ok(PackageListFields(f.packages + [x]))
    else Err(WrongWireType)
  }

  const PACKAGES := Schema(ListWire, PutPackages, {})

  function UnmarshalPackages(s: Bytes): Result<SlsLogPackageList> {
    Parse(PACKAGES, s, 0, NO_PACKAGES, {})
  }

  function PutGroups(f: LogGroupListFields, num: int, p: Payload): Result<LogGroupListFields> {
    if p.BytesP? && num == 1 then
      var g :- UnmarshalGroup(p.b);
      Ok(LogGroupListFields(f.logGroups + [g]))
    else Err(WrongWireType)
  }

  const GROUPS := Schema(ListWire, PutGroups, {})

  function UnmarshalGroups(s: Bytes): Result<LogGroupList> {
    Parse(GROUPS, s, 0, NO_GROUPS, {})
  }

  // ----------------------------------------------- which messages are writable

  /** Required fields set, and nothing but whole unknown fields in XXX_unrecognized. */
  predicate GoodPair(m: LogContent) {
    m.fields.key.Some? && m.fields.value.Some? && UnknownRun(PAIR, m.unrecognized)
  }

  predicate GoodLog(m: Log) {
    && m.fields.time.Some?
    && (forall c :: c in m.fields.contents ==> GoodPair(c))
    && UnknownRun(LOG, m.unrecognized)
  }

  predicate GoodGroup(m: LogGroup) {
    && (forall l :: l in m.fields.logs ==> GoodLog(l))
    && (forall t :: t in m.fields.logTags ==> GoodPair(t))
    && UnknownRun(GROUP, m.unrecognized)
  }

  predicate GoodPackage(m: SlsLogPackage) {
    m.fields.data.Some? && UnknownRun(PACKAGE, m.unrecognized)
  }

  predicate GoodPackages(m: SlsLogPackageList) {
    (forall p :: p in m.fields.packages ==> GoodPackage(p)) && UnknownRun(PACKAGES, m.unrecognized)
  }

  predicate GoodGroups(m: LogGroupList) {
    (forall g :: g in m.fields.logGroups ==> GoodGroup(g)) && UnknownRun(GROUPS, m.unrecognized)
  }

  // --------------------------------------------------------------- round trips

  lemma {:induction false} AtWhole(s: seq<Byte>, a: seq<Byte>, b: seq<Byte>)
    requires s == a + b
    ensures At(s, 0, a) && At(s, |a|, b)
  {
  }

  /** An optional string field: present or not, the rest is parsed with the field as it was written. */
  lemma {:induction false} ParseOpt<F>(sc: Schema<F>, s: Bytes, i: nat, m: Message<F>, has: set<int>, num: FieldNum,
                    b: Option<Bytes>, rest: seq<Byte>, f: F)
    requires sc.wire(num) == Some(2) && At(s, i, OptField(num, b) + rest)
    requires b == None ==> f == m.fields
    requires b.Some? ==> sc.put(m.fields, num, BytesP(b.value)) == Ok(f)
    ensures At(s, i + |OptField(num, b)|, rest)
    ensures Parse(sc, s, i, m, has)
         == Parse(sc, s, i + |OptField(num, b)|, m.(fields := f),
                  if b.Some? then has + {num} * sc.required else has)
  {
    hide Parse, LenField;
    AtConcat(s, i, OptField(num, b), rest);
    if b.Some? {
      ParseLenField(sc, s, i, m, has, num, b.value, f);
    }
  }

  /** The message ends with its unknown fields. */
  lemma {:induction false} ParseEnd<F>(sc: Schema<F>, s: Bytes, i: nat, f: F, has: set<int>, u: seq<Byte>)
    requires UnknownRun(sc, u) && At(s, i, u) && i + |u| == |s| && sc.required <= has
    ensures Parse(sc, s, i, Message(f, []), has) == Ok(Message(f, u))
  {
    hide Step;
    ParseUnknownRun(sc, s, i, Message(f, []), has, u);
    assert [] + u == u;
  }

  lemma {:induction false} RoundTripPair(m: LogContent)
    requires GoodPair(m) && |EncodePair(m)| <= MAX_LEN
    ensures UnmarshalPair(EncodePair(m)) == Ok(m)
  {
    hide Parse, OptField, UnknownRun;
    var s: Bytes := EncodePair(m);
    var k, v, u := m.fields.key, m.fields.value, m.unrecognized;
    var f1 := PairFields(k, None);
    assert At(s, 0, OptField(1, k) + (OptField(2, v) + u));
    ParseOpt(PAIR, s, 0, NO_PAIR, {}, 1, k, OptField(2, v) + u, f1);
    ParseOpt(PAIR, s, |OptField(1, k)|, Message(f1, []), {} + {1} * {1, 2}, 2, v, u, m.fields);
    ParseEnd(PAIR, s, |OptField(1, k)| + |OptField(2, v)|, m.fields, {} + {1} * {1, 2} + {2} * {1, 2}, u);
  }

  lemma {:induction false} EachWithin<F>(num: FieldNum, enc: Message<F> -> seq<Byte>, ms: seq<Message<F>>)
    ensures forall m :: m in ms ==> |enc(m)| <= |Repeated(num, EncodeEach(enc, ms))|
  {
    if ms != [] { EachWithin(num, enc, ms[1..]); }
  }

  lemma {:induction false} PutContents(f: LogFields, cs: seq<LogContent>)
    requires forall c :: c in cs ==> GoodPair(c) && |EncodePair(c)| <= MAX_LEN
    ensures PutAll(LOG, 2, EncodeEach(EncodePair, cs), f) == Ok(f.(contents := f.contents + cs))
    decreases |cs|
  {
    hide UnmarshalPair, EncodePair;
    if cs != [] {
      RoundTripPair(cs[0]);
      var g := f.(contents := f.contents + [cs[0]]);
      assert LOG.put(f, 2, BytesP(EncodePair(cs[0]))) == Ok(g);
      PutContents(g, cs[1..]);
      assert f.contents + cs == f.contents + [cs[0]] + cs[1..];
    } else {
      assert f.contents + cs == f.contents;
    }
  }

  lemma {:induction false} LittleEndianRoundTrip(v: UInt32)
    ensures LittleEndian32(LittleEndianBytes(v)) == v
  {
    var q := v / 0x100;
    assert v == 0x100 * q + v % 0x100;
    assert v / 0x1_0000 == q / 0x100 && q == 0x100 * (q / 0x100) + q % 0x100;
    var r := q / 0x100;
    assert v / 0x100_0000 == r / 0x100 && r == 0x100 * (r / 0x100) + r % 0x100;
  }

  lemma {:induction false} ParseLogTail(s: Bytes, i: nat, m: Log, f: LogFields)
    requires UnknownRun(LOG, m.unrecognized) && f == m.fields.(timeNs := None)
    requires At(s, i, NsField(m.fields.timeNs) + m.unrecognized)
    requires i + |NsField(m.fields.timeNs)| + |m.unrecognized| == |s|
    ensures Parse(LOG, s, i, Message(f, []), {1}) == Ok(m)
  {
    hide Parse, UnknownRun, LittleEndian32, LittleEndianBytes;
    var c, u := NsField(m.fields.timeNs), m.unrecognized;
    AtConcat(s, i, c, u);
    if m.fields.timeNs.Some? {
      var v := m.fields.timeNs.value;
      LittleEndianRoundTrip(v);
      ParseFixed32Field(LOG, s, i, Message(f, []), {1}, 4, LittleEndianBytes(v), m.fields);
      assert {1} + {4} * LOG.required == {1};
    }
    ParseEnd(LOG, s, i + |c|, m.fields, {1}, u);
  }

  /** Time, the repeated contents, TimeNs, then the unknown bytes. */
  lemma {:induction false} RoundTripLog(m: Log)
    requires GoodLog(m) && |EncodeLog(m)| <= MAX_LEN
    ensures UnmarshalLog(EncodeLog(m)) == Ok(m)
  {
    hide Parse, UnknownRun, GoodPair, EncodePair, VarintBytes, NsField, PutAll, Repeated;
    var s: Bytes := EncodeLog(m);
    var f, u := m.fields, m.unrecognized;
    var each := EncodeEach(EncodePair, f.contents);
    var a, b, c := TimeField(f.time), Repeated(2, each), NsField(f.timeNs);
    AtWhole(s, a, b + (c + u));
    AtConcat(s, |a|, b, c + u);
    var f1 := LogFields(f.time, [], None);
    ParseVarintField(LOG, s, 0, NO_LOG, {}, 1, f.time.value, f1);
    assert {} + {1} * LOG.required == {1};
    EachWithin(2, EncodePair, f.contents);
    PutContents(f1, f.contents);
    var f2 := LogFields(f.time, f.contents, None);
    assert [] + f.contents == f.contents;
    ParseRepeated(LOG, s, |a|, Message(f1, []), {1}, 2, each, f2);
    ParseLogTail(s, |a| + |b|, m, f2);
  }

  lemma {:induction false} PutLogs(f: LogGroupFields, ls: seq<Log>)
    requires forall l :: l in ls ==> GoodLog(l) && |EncodeLog(l)| <= MAX_LEN
    ensures PutAll(GROUP, 1, EncodeEach(EncodeLog, ls), f) == Ok(f.(logs := f.logs + ls))
    decreases |ls|
  {
    hide UnmarshalLog, EncodeLog, GoodLog;
    if ls != [] {
      RoundTripLog(ls[0]);
      var g := f.(logs := f.logs + [ls[0]]);
      assert GROUP.put(f, 1, BytesP(EncodeLog(ls[0]))) == Ok(g);
      PutLogs(g, ls[1..]);
      assert f.logs + ls == f.logs + [ls[0]] + ls[1..];
    } else {
      assert f.logs + ls == f.logs;
    }
  }

  lemma {:induction false} PutTags(f: LogGroupFields, ts: seq<LogTag>)
    requires forall t :: t in ts ==> GoodPair(t) && |EncodePair(t)| <= MAX_LEN
    ensures PutAll(GROUP, 6, EncodeEach(EncodePair, ts), f) == Ok(f.(logTags := f.logTags + ts))
    decreases |ts|
  {
    hide UnmarshalPair, EncodePair;
    if ts != [] {
      RoundTripPair(ts[0]);
      var g := f.(logTags := f.logTags + [ts[0]]);
      assert GROUP.put(f, 6, BytesP(EncodePair(ts[0]))) == Ok(g);
      PutTags(g, ts[1..]);
      assert f.logTags + ts == f.logTags + [ts[0]] + ts[1..];
    } else {
      assert f.logTags + ts == f.logTags;
    }
  }

  lemma {:induction false} ParseOptIn(
    s: Bytes, i: nat, f: LogGroupFields, num: FieldNum, b: Option<Bytes>, rest: seq<Byte>, g: LogGroupFields)
    requires 2 <= num <= 5 && At(s, i, OptField(num, b) + rest)
    requires b == None ==> g == f
    requires b.Some? ==> PutGroup(f, num, BytesP(b.value)) == Ok(g)
    ensures At(s, i + |OptField(num, b)|, rest)
    ensures Parse(GROUP, s, i, Message(f, []), {}) == Parse(GROUP, s, i + |OptField(num, b)|, Message(g, []), {})
  {
    hide Parse;
    ParseOpt(GROUP, s, i, Message(f, []), {}, num, b, rest, g);
    assert {} + {num} * {} == {};
  }

  lemma {:induction false} ParseGroupStrings(s: Bytes, i: nat, f: LogGroupFields)
    requires At(s, i, GroupStrings(f))
    ensures Parse(GROUP, s, i, Message(LogGroupFields(f.logs, None, None, None, None, []), []), {})
         == Parse(GROUP, s, i + |GroupStrings(f)|, Message(f.(logTags := []), []), {})
  {
    hide Parse, OptField;
    var o2, o3 := OptField(2, f.category), OptField(3, f.topic);
    var o4, o5 := OptField(4, f.source), OptField(5, f.machineUUID);
    var f1 := LogGroupFields(f.logs, None, None, None, None, []);
    var f2 := f1.(category := f.category);
    var f3 := f2.(topic := f.topic);
    var f4 := f3.(source := f.source);
    ParseOptIn(s, i, f1, 2, f.category, o3 + (o4 + o5), f2);
    ParseOptIn(s, i + |o2|, f2, 3, f.topic, o4 + o5, f3);
    ParseOptIn(s, i + |o2| + |o3|, f3, 4, f.source, o5, f4);
    assert o5 + [] == o5;
    ParseOptIn(s, i + |o2| + |o3| + |o4|, f4, 5, f.machineUUID, [], f.(logTags := []));
  }

  lemma {:induction false} RoundTripGroup(m: LogGroup)
    requires GoodGroup(m) && |EncodeGroup(m)| <= MAX_LEN
    ensures UnmarshalGroup(EncodeGroup(m)) == Ok(m)
  {
    hide Parse, UnknownRun, GoodPair, GoodLog, GroupStrings, PutAll, Repeated, EncodePair, EncodeLog;
    var s: Bytes := EncodeGroup(m);
    var f, u := m.fields, m.unrecognized;
    var logs, tags := EncodeEach(EncodeLog, f.logs), EncodeEach(EncodePair, f.logTags);
    var a, b, c := Repeated(1, logs), GroupStrings(f), Repeated(6, tags);
    AtWhole(s, a, b + (c + u));
    AtConcat(s, |a|, b, c + u);
    AtConcat(s, |a| + |b|, c, u);
    EachWithin(1, EncodeLog, f.logs);
    EachWithin(6, EncodePair, f.logTags);
    PutLogs(NO_GROUP.fields, f.logs);
    assert [] + f.logs == f.logs;
    ParseRepeated(GROUP, s, 0, NO_GROUP, {}, 1, logs, LogGroupFields(f.logs, None, None, None, None, []));
    ParseGroupStrings(s, |a|, f);
    PutTags(f.(logTags := []), f.logTags);
    assert [] + f.logTags == f.logTags;
    ParseRepeated(GROUP, s, |a| + |b|, Message(f.(logTags := []), []), {}, 6, tags, f);
    ParseEnd(GROUP, s, |a| + |b| + |c|, f, {}, u);
  }

  lemma {:induction false} SignRoundTrip(v: Int32)
    ensures ToInt32(SignExtend(v)) == v
  {
  }

  /** A package whose size, if set, is written as any varint w with the right low 32 bits. */
  lemma {:induction false} ParsePackage(s: Bytes, m: SlsLogPackage, b: seq<Byte>, w: nat)
    requires GoodPackage(m) && s == OptField(1, m.fields.data) + (b + m.unrecognized)
    requires m.fields.uncompressSize == None ==> b == []
    requires m.fields.uncompressSize.Some?
         ==> b == VarintField(2, w) && w < U64 && ToInt32(w) == m.fields.uncompressSize.value
    ensures UnmarshalPackage(s) == Ok(m)
  {
    hide Parse, UnknownRun, OptField, VarintBytes, ToInt32;
    var f, u := m.fields, m.unrecognized;
    var a, f1 := OptField(1, f.data), PackageFields(f.data, None);
    assert At(s, 0, a + (b + u));
    ParseOpt(PACKAGE, s, 0, NO_PACKAGE, {}, 1, f.data, b + u, f1);
    var has := {} + {1} * PACKAGE.required;
    AtConcat(s, |a|, b, u);
    if f.uncompressSize.Some? {
      ParseVarintField(PACKAGE, s, |a|, Message(f1, []), has, 2, w, f);
      assert has + {2} * PACKAGE.required == has;
    }
    ParseEnd(PACKAGE, s, |a| + |b|, f, has, u);
  }

  /** Every int32, negative ones as ten-byte varints, comes back. */
  lemma {:induction false} RoundTripPackage(m: SlsLogPackage)
    requires GoodPackage(m) && |EncodePackage(m)| <= MAX_LEN
    ensures UnmarshalPackage(EncodePackage(m)) == Ok(m)
  {
    hide UnmarshalPackage, OptField, VarintBytes, UnknownRun;
    var size := m.fields.uncompressSize;
    if size.Some? { SignRoundTrip(size.value); }
    ParsePackage(EncodePackage(m), m, SizeField(size), if size.Some? then SignExtend(size.value) else 0);
  }

  /** enc is any way of writing packages that is read back. */
  lemma {:induction false} PutEachPackage(
    f: PackageListFields, enc: SlsLogPackage -> seq<Byte>, ps: seq<SlsLogPackage>)
    requires forall p :: p in ps ==> |enc(p)| <= MAX_LEN && UnmarshalPackage(enc(p)) == Ok(p)
    ensures PutAll(PACKAGES, 1, EncodeEach(enc, ps), f) == Ok(PackageListFields(f.packages + ps))
    decreases |ps|
  {
    hide UnmarshalPackage;
    if ps != [] {
      var g := PackageListFields(f.packages + [ps[0]]);
      assert PACKAGES.put(f, 1, BytesP(enc(ps[0]))) == Ok(g);
      PutEachPackage(g, enc, ps[1..]);
      assert f.packages + ps == f.packages + [ps[0]] + ps[1..];
    } else {
      assert f.packages + ps == f.packages;
    }
  }

  lemma {:induction false} ParsePackages(s: Bytes, m: SlsLogPackageList, enc: SlsLogPackage -> seq<Byte>)
    requires UnknownRun(PACKAGES, m.unrecognized)
    requires s == Repeated(1, EncodeEach(enc, m.fields.packages)) + m.unrecognized
    requires forall p :: p in m.fields.packages && |enc(p)| <= MAX_LEN ==> UnmarshalPackage(enc(p)) == Ok(p)
    ensures UnmarshalPackages(s) == Ok(m)
  {
    hide Parse, UnknownRun, UnmarshalPackage;
    var each := EncodeEach(enc, m.fields.packages);
    AtWhole(s, Repeated(1, each), m.unrecognized);
    EachWithin(1, enc, m.fields.packages);
    PutEachPackage(NO_PACKAGES.fields, enc, m.fields.packages);
    assert [] + m.fields.packages == m.fields.packages;
    ParseRepeated(PACKAGES, s, 0, NO_PACKAGES, {}, 1, each, m.fields);
    ParseEnd(PACKAGES, s, |Repeated(1, each)|, m.fields, {}, m.unrecognized);
  }

  lemma {:induction false} RoundTripPackages(m: SlsLogPackageList)
    requires GoodPackages(m) && |EncodePackages(m)| <= MAX_LEN
    ensures UnmarshalPackages(EncodePackages(m)) == Ok(m)
  {
    hide UnmarshalPackages, UnmarshalPackage, UnknownRun, GoodPackage, EncodePackage;
    forall p | p in m.fields.packages && |EncodePackage(p)| <= MAX_LEN
      ensures UnmarshalPackage(EncodePackage(p)) == Ok(p)
    {
      RoundTripPackage(p);
    }
    ParsePackages(EncodePackages(m), m, EncodePackage);
  }

  lemma {:induction false} PutEachGroup(f: LogGroupListFields, gs: seq<LogGroup>)
    requires forall g :: g in gs ==> GoodGroup(g) && |EncodeGroup(g)| <= MAX_LEN
    ensures PutAll(GROUPS, 1, EncodeEach(EncodeGroup, gs), f) == Ok(LogGroupListFields(f.logGroups + gs))
    decreases |gs|
  {
    hide UnmarshalGroup, EncodeGroup, GoodGroup;
    if gs != [] {
      RoundTripGroup(gs[0]);
      var g := LogGroupListFields(f.logGroups + [gs[0]]);
      assert GROUPS.put(f, 1, BytesP(EncodeGroup(gs[0]))) == Ok(g);
      PutEachGroup(g, gs[1..]);
      assert f.logGroups + gs == f.logGroups + [gs[0]] + gs[1..];
    } else {
      assert f.logGroups + gs == f.logGroups;
    }
  }

  /** Four levels deep: what Marshal writes for a good LogGroupList, Unmarshal reads back as it was. */
  lemma {:induction false} RoundTripGroups(m: LogGroupList)
    requires GoodGroups(m) && |EncodeGroups(m)| <= MAX_LEN
    ensures UnmarshalGroups(EncodeGroups(m)) == Ok(m)
  {
    hide Parse, UnknownRun, GoodGroup, EncodeGroup;
    var s: Bytes := EncodeGroups(m);
    var each := EncodeEach(EncodeGroup, m.fields.logGroups);
    AtWhole(s, Repeated(1, each), m.unrecognized);
    EachWithin(1, EncodeGroup, m.fields.logGroups);
    PutEachGroup(NO_GROUPS.fields, m.fields.logGroups);
    assert [] + m.fields.logGroups == m.fields.logGroups;
    ParseRepeated(GROUPS, s, 0, NO_GROUPS, {}, 1, each, m.fields);
    ParseEnd(GROUPS, s, |Repeated(1, each)|, m.fields, {}, m.unrecognized);
  }
}
