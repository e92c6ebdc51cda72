/**
 * What Unmarshal makes of the fields of a buffer, message by message: of a scalar field the last occurrence counts,
 * of a list field every one, in order, and undeclared fields are kept as they are.
 */
module LastWins {
  import opened Wire
  import opened WireFormat
  import opened Schema
  import opened Meaning
  import opened Messages

  /** The last field with a number. */
  function LastOf(fs: seq<Field>, num: int): Option<Field> {
    if fs == [] then None
    else if Num(fs[|fs| - 1]) == num then Some(fs[|fs| - 1])
    else LastOf(fs[..|fs| - 1], num)
  }

  lemma {:induction false} LastOfCons(f: Field, fs: seq<Field>, num: int)
    ensures LastOf([f] + fs, num)
         == if LastOf(fs, num).Some? then LastOf(fs, num) else if Num(f) == num then Some(f) else None
    decreases |fs|
  {
    hide Num;
    if fs == [] {
      assert ([f] + fs)[..0] == [];
    } else {
      assert ([f] + fs)[..|fs|] == [f] + fs[..|fs| - 1];
      LastOfCons(f, fs[..|fs| - 1], num);
    }
  }

  /** Storing under num sets what get reads to what val makes of the payload; storing elsewhere leaves it alone. */
  ghost predicate Scalar<F(!new), T>(sc: Schema<F>, num: int, get: F -> Option<T>, val: Payload -> Option<T>) {
    forall f, k, p :: sc.wire(k).Some? && sc.put(f, k, p).Ok? ==>
      get(sc.put(f, k, p).value) == if k == num then val(p) else get(f)
  }

  lemma {:induction false} TakeScalar<F(!new), T>(
    sc: Schema<F>, num: int, get: F -> Option<T>, val: Payload -> Option<T>, f: Field, m: Message<F>)
    requires Scalar(sc, num, get, val) && sc.wire(num).Some? && Take(sc, f, m).Some?
    ensures Num(f) == num ==> PayloadOf(f).Some?
    ensures get(Take(sc, f, m).value.fields) == if Num(f) == num then val(PayloadOf(f).value) else get(m.fields)
  {
    hide Num, PayloadOf, Encoded, WireType;
  }

  lemma {:induction false} LastCounts<F(!new), T>(
    sc: Schema<F>, num: int, get: F -> Option<T>, val: Payload -> Option<T>, fs: seq<Field>, m: Message<F>,
    r: Message<F>)
    requires Scalar(sc, num, get, val) && sc.wire(num).Some? && TakeAll(sc, fs, m) == Some(r)
    ensures LastOf(fs, num).Some? ==> PayloadOf(LastOf(fs, num).value).Some?
    ensures get(r.fields)
         == match LastOf(fs, num) case None => get(m.fields) case Some(f) => val(PayloadOf(f).value)
    decreases |fs|
  {
    hide Take, Scalar, Num, PayloadOf;
    if fs != [] {
      TakeScalar(sc, num, get, val, fs[0], m);
      LastCounts(sc, num, get, val, fs[1..], Take(sc, fs[0], m).value, r);
      LastOfCons(fs[0], fs[1..], num);
      assert [fs[0]] + fs[1..] == fs;
    }
  }

  /** The elements that the fields with a number hold, in order. */
  function Elements<T>(fs: seq<Field>, num: int, one: Bytes -> Result<T>): seq<T> {
    if fs == [] then []
    else
      var rest := Elements(fs[1..], num, one);
      if Num(fs[0]) == num && fs[0].Delimited? && |fs[0].data| <= MAX_LEN && one(fs[0].data).Ok? then
        [one(fs[0].data).value] + rest
      else rest
  }

  ghost predicate Listed<F(!new), T>(sc: Schema<F>, num: int, get: F -> seq<T>, one: Bytes -> Result<T>) {
    forall f, k, p :: sc.wire(k).Some? && sc.put(f, k, p).Ok? ==>
      if k == num then p.BytesP? && one(p.b).Ok? && get(sc.put(f, k, p).value) == get(f) + [one(p.b).value]
      else get(sc.put(f, k, p).value) == get(f)
  }

  lemma {:induction false} TakeListed<F(!new), T>(
    sc: Schema<F>, num: int, get: F -> seq<T>, one: Bytes -> Result<T>, f: Field, m: Message<F>)
    requires Listed(sc, num, get, one) && sc.wire(num).Some? && Take(sc, f, m).Some?
    ensures Num(f) == num ==> f.Delimited? && |f.data| <= MAX_LEN && one(f.data).Ok?
    ensures get(Take(sc, f, m).value.fields)
         == if Num(f) == num then get(m.fields) + [one(f.data).value] else get(m.fields)
  {
    hide Num, Encoded;
  }

  lemma {:induction false} AllCount<F(!new), T>(
    sc: Schema<F>, num: int, get: F -> seq<T>, one: Bytes -> Result<T>, fs: seq<Field>, m: Message<F>, r: Message<F>)
    requires Listed(sc, num, get, one) && sc.wire(num).Some? && TakeAll(sc, fs, m) == Some(r)
    ensures get(r.fields) == get(m.fields) + Elements(fs, num, one)
    decreases |fs|
  {
    hide Take, Listed, Num;
    if fs != [] {
      TakeListed(sc, num, get, one, fs[0], m);
      AllCount(sc, num, get, one, fs[1..], Take(sc, fs[0], m).value, r);
    }
  }

  /** The undeclared fields. */
  function Others<F>(sc: Schema<F>, fs: seq<Field>): seq<Field> {
    if fs == [] then []
    else if sc.wire(Num(fs[0])).None? then [fs[0]] + Others(sc, fs[1..])
    else Others(sc, fs[1..])
  }

  lemma {:induction false} OthersKept<F>(sc: Schema<F>, fs: seq<Field>, m: Message<F>, r: Message<F>)
    requires TakeAll(sc, fs, m) == Some(r)
    ensures r.unrecognized == m.unrecognized + EncodedAll(Others(sc, fs))
    decreases |fs|
  {
    hide Num, Encoded;
    if fs != [] {
      OthersKept(sc, fs[1..], Take(sc, fs[0], m).value, r);
      if sc.wire(Num(fs[0])).None? { EncodedCons(fs[0], Others(sc, fs[1..])); }
    }
  }

  // ------------------------------------------------------------- the messages

  function Text(p: Payload): Option<Bytes> {
    if p.BytesP? then Some(p.b) else None
  }

  /** A string or bytes field: the data of the last occurrence, what was there if there is none. */
  predicate LastText(fs: seq<Field>, num: int, was: Option<Bytes>, now: Option<Bytes>) {
    match LastOf(fs, num)
    case None => now == was
    case Some(f) => f.Delimited? && now.Some? && now.value == f.data
  }

  lemma {:induction false} TextCounts<F(!new)>(
    sc: Schema<F>, num: int, get: F -> Option<Bytes>, fs: seq<Field>, m: Message<F>, r: Message<F>)
    requires Scalar(sc, num, get, Text) && sc.wire(num) == Some(2) && TakeAll(sc, fs, m) == Some(r)
    requires AreFields(fs)
    ensures LastText(fs, num, get(m.fields), get(r.fields))
  {
    hide Scalar, Num, TakeAll, IsField;
    LastCounts(sc, num, get, Text, fs, m, r);
    if LastOf(fs, num).Some? { LastAllowed(sc, num, fs, m, r); }
  }

  /** A declared field that was taken has its own wire type. */
  lemma {:induction false} LastAllowed<F>(sc: Schema<F>, num: int, fs: seq<Field>, m: Message<F>, r: Message<F>)
    requires TakeAll(sc, fs, m) == Some(r) && LastOf(fs, num).Some? && sc.wire(num).Some?
    ensures sc.wire(num) == Some(WireType(LastOf(fs, num).value)) && LastOf(fs, num).value in fs
    decreases |fs|
  {
    hide Num, Encoded, PayloadOf, WireType;
    LastOfCons(fs[0], fs[1..], num);
    assert [fs[0]] + fs[1..] == fs;
    if LastOf(fs[1..], num).Some? {
      LastAllowed(sc, num, fs[1..], Take(sc, fs[0], m).value, r);
    }
  }

  lemma {:induction false} PairMeans(fs: seq<Field>, m: LogContent, r: LogContent)
    requires AreFields(fs) && TakeAll(PAIR, fs, m) == Some(r)
    ensures LastText(fs, 1, m.fields.key, r.fields.key) && LastText(fs, 2, m.fields.value, r.fields.value)
    ensures r.unrecognized == m.unrecognized + EncodedAll(Others(PAIR, fs))
  {
    hide TakeAll, LastText, IsField, EncodedAll, Others;
    TextCounts(PAIR, 1, (f: PairFields) => f.key, fs, m, r);
    TextCounts(PAIR, 2, (f: PairFields) => f.value, fs, m, r);
    OthersKept(PAIR, fs, m, r);
  }

  function Low32(p: Payload): Option<UInt32> {
    if p.VarintP? then Some(p.v % U32) else None
  }

  function Fixed(p: Payload): Option<UInt32> {
    if p.Fixed32P? then Some(p.w % U32) else None
  }

  lemma {:induction false} LogMeans(fs: seq<Field>, m: Log, r: Log)
    requires AreFields(fs) && TakeAll(LOG, fs, m) == Some(r)
    ensures match LastOf(fs, 1)
            case None => r.fields.time == m.fields.time
            case Some(f) => f.Varint? && r.fields.time == Some(VarintValue(f.value) % U32)
    ensures r.fields.contents == m.fields.contents + Elements(fs, 2, UnmarshalPair)
    ensures match LastOf(fs, 4)
            case None => r.fields.timeNs == m.fields.timeNs
            case Some(f) => f.Fixed32? && |f.data| == 4 && r.fields.timeNs == Some(LittleEndian32(f.data))
    ensures r.unrecognized == m.unrecognized + EncodedAll(Others(LOG, fs))
  {
    hide TakeAll, LastText, IsField, EncodedAll, Others, Elements, UnmarshalPair, VarintValue, LittleEndian32;
    LastCounts(LOG, 1, (f: LogFields) => f.time, Low32, fs, m, r);
    if LastOf(fs, 1).Some? { LastAllowed(LOG, 1, fs, m, r); }
    AllCount(LOG, 2, (f: LogFields) => f.contents, UnmarshalPair, fs, m, r);
    LastCounts(LOG, 4, (f: LogFields) => f.timeNs, Fixed, fs, m, r);
    if LastOf(fs, 4).Some? { LastAllowed(LOG, 4, fs, m, r); }
    OthersKept(LOG, fs, m, r);
  }

  lemma {:induction false} GroupMeans(fs: seq<Field>, m: LogGroup, r: LogGroup)
    requires AreFields(fs) && TakeAll(GROUP, fs, m) == Some(r)
    ensures r.fields.logs == m.fields.logs + Elements(fs, 1, UnmarshalLog)
    ensures LastText(fs, 2, m.fields.category, r.fields.category) && LastText(fs, 3, m.fields.topic, r.fields.topic)
    ensures LastText(fs, 4, m.fields.source, r.fields.source)
    ensures LastText(fs, 5, m.fields.machineUUID, r.fields.machineUUID)
    ensures r.fields.logTags == m.fields.logTags + Elements(fs, 6, UnmarshalPair)
    ensures r.unrecognized == m.unrecognized + EncodedAll(Others(GROUP, fs))
  {
    hide TakeAll, LastText, IsField, EncodedAll, Others, Elements, UnmarshalPair, UnmarshalLog;
    AllCount(GROUP, 1, (f: LogGroupFields) => f.logs, UnmarshalLog, fs, m, r);
    TextCounts(GROUP, 2, (f: LogGroupFields) => f.category, fs, m, r);
    TextCounts(GROUP, 3, (f: LogGroupFields) => f.topic, fs, m, r);
    TextCounts(GROUP, 4, (f: LogGroupFields) => f.source, fs, m, r);
    TextCounts(GROUP, 5, (f: LogGroupFields) => f.machineUUID, fs, m, r);
    AllCount(GROUP, 6, (f: LogGroupFields) => f.logTags, UnmarshalPair, fs, m, r);
    OthersKept(GROUP, fs, m, r);
  }

  function Signed32(p: Payload): Option<Int32> {
    if p.VarintP? then Some(ToInt32(p.v)) else None
  }

  lemma {:induction false} PackageMeans(fs: seq<Field>, m: SlsLogPackage, r: SlsLogPackage)
    requires AreFields(fs) && TakeAll(PACKAGE, fs, m) == Some(r)
    ensures LastText(fs, 1, m.fields.data, r.fields.data)
    ensures match LastOf(fs, 2)
            case None => r.fields.uncompressSize == m.fields.uncompressSize
            case Some(f) => f.Varint? && r.fields.uncompressSize == Some(ToInt32(VarintValue(f.value)))
    ensures r.unrecognized == m.unrecognized + EncodedAll(Others(PACKAGE, fs))
  {
    hide TakeAll, LastText, IsField, EncodedAll, Others, VarintValue, ToInt32;
    TextCounts(PACKAGE, 1, (f: PackageFields) => f.data, fs, m, r);
    LastCounts(PACKAGE, 2, (f: PackageFields) => f.uncompressSize, Signed32, fs, m, r);
    if LastOf(fs, 2).Some? { LastAllowed(PACKAGE, 2, fs, m, r); }
    OthersKept(PACKAGE, fs, m, r);
  }

  lemma {:induction false} PackagesMean(fs: seq<Field>, m: SlsLogPackageList, r: SlsLogPackageList)
    requires TakeAll(PACKAGES, fs, m) == Some(r)
    ensures r.fields.packages == m.fields.packages + Elements(fs, 1, UnmarshalPackage)
    ensures r.unrecognized == m.unrecognized + EncodedAll(Others(PACKAGES, fs))
  {
    hide TakeAll, EncodedAll, Others, Elements, UnmarshalPackage;
    AllCount(PACKAGES, 1, (f: PackageListFields) => f.packages, UnmarshalPackage, fs, m, r);
    OthersKept(PACKAGES, fs, m, r);
  }

  lemma {:induction false} GroupsMean(fs: seq<Field>, m: LogGroupList, r: LogGroupList)
    requires TakeAll(GROUPS, fs, m) == Some(r)
    ensures r.fields.logGroups == m.fields.logGroups + Elements(fs, 1, UnmarshalGroup)
    ensures r.unrecognized == m.unrecognized + EncodedAll(Others(GROUPS, fs))
  {
    hide TakeAll, EncodedAll, Others, Elements, UnmarshalGroup;
    AllCount(GROUPS, 1, (f: LogGroupListFields) => f.logGroups, UnmarshalGroup, fs, m, r);
    OthersKept(GROUPS, fs, m, r);
  }
}
