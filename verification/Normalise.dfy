/**
 * Whatever byte string Unmarshal accepts - overlong varints, repeated scalars, fields in any order,
 * unknown fields and groups - the message it returns marshals, and marshals to something that parses
 * back to the same message.
 */
module Normalise {
  import opened Wire
  import opened Schema
  import opened Messages

  lemma {:induction false} EmptyRun<F>(sc: Schema<F>)
    ensures UnknownRun(sc, [])
  {
  }

  /** Parsing into an empty message, with the invariant and size of ParseKeeps. */
  lemma {:induction false} Accepted<F(!new)>(
    sc: Schema<F>, s: Bytes, f: F, m: Message<F>, inv: (F, set<int>) -> bool, size: F -> nat) returns (h: set<int>)
    requires Parse(sc, s, 0, Message(f, []), {}) == Ok(m)
    requires Keeps(sc, inv, size) && inv(f, {}) && size(f) == 0
    ensures sc.required <= h && inv(m.fields, h) && UnknownRun(sc, m.unrecognized)
    ensures size(m.fields) + |m.unrecognized| <= |s|
  {
    EmptyRun(sc);
    hide *;
    h := ParseKeeps(sc, s, 0, Message(f, []), {}, m, inv, size);
  }

  /** Nesting an encoded message costs no more than the field it was parsed from. */
  lemma {:induction false} NestedFits(num: FieldNum, e: seq<Byte>, b: Bytes)
    requires |e| <= |b|
    ensures |LenField(num, e)| <= 1 + PayloadSize(BytesP(b))
  {
    VarintLengthMonotone(|e|, |b|);
  }

  lemma {:induction false} OneMore<F>(num: FieldNum, enc: Message<F> -> seq<Byte>, ms: seq<Message<F>>, m: Message<F>)
    ensures |Repeated(num, EncodeEach(enc, ms + [m]))|
         == |Repeated(num, EncodeEach(enc, ms))| + |LenField(num, enc(m))|
  {
    EachAppend(enc, ms, m);
    RepeatedAppend(num, EncodeEach(enc, ms), enc(m));
  }

  // ------------------------------------------------------------ LogContent, LogTag

  ghost predicate PairSeen(f: PairFields, has: set<int>) {
    (1 in has ==> f.key.Some?) && (2 in has ==> f.value.Some?)
  }

  function PairSize(f: PairFields): nat {
    |OptField(1, f.key)| + |OptField(2, f.value)|
  }

  lemma {:induction false} PairKeeps()
    ensures Keeps(PAIR, PairSeen, PairSize)
  {
    hide VarintBytes;
  }

  lemma {:induction false} AcceptedPair(s: Bytes, m: LogContent)
    requires UnmarshalPair(s) == Ok(m)
    ensures GoodPair(m) && |EncodePair(m)| <= |s|
  {
    PairKeeps();
    hide Parse, Keeps, UnknownRun, LenField;
    var h := Accepted(PAIR, s, NO_PAIR.fields, m, PairSeen, PairSize);
  }

  lemma {:induction false} NormalisePair(s: Bytes, m: LogContent)
    requires UnmarshalPair(s) == Ok(m)
    ensures |EncodePair(m)| <= |s| && UnmarshalPair(EncodePair(m)) == Ok(m)
  {
    hide UnmarshalPair, EncodePair, GoodPair;
    AcceptedPair(s, m);
    RoundTripPair(m);
  }

  // --------------------------------------------------------------------------- Log

  ghost predicate LogSeen(f: LogFields, has: set<int>) {
    (1 in has ==> f.time.Some?) && (forall c :: c in f.contents ==> GoodPair(c))
  }

  function LogSize(f: LogFields): nat {
    |TimeField(f.time)| + |Repeated(2, EncodeEach(EncodePair, f.contents))| + |NsField(f.timeNs)|
  }

  lemma {:induction false} LogKeepsOne(f: LogFields, has: set<int>, num: int, p: Payload, g: LogFields)
    requires LogSeen(f, has) && LogWire(num).Some? && Fits(p, LogWire(num).value) && PutLog(f, num, p) == Ok(g)
    ensures LogSeen(g, has + {num} * {1}) && LogSize(g) <= LogSize(f) + 1 + PayloadSize(p)
  {
    hide VarintBytes, GoodPair, EncodePair, Repeated, EncodeEach, UnmarshalPair;
    if num == 1 {
      VarintLengthMonotone(p.v % U32, p.v);
    } else if num == 2 {
      var c := UnmarshalPair(p.b).value;
      AcceptedPair(p.b, c);
      NestedFits(2, EncodePair(c), p.b);
      OneMore(2, EncodePair, f.contents, c);
    }
  }

  lemma {:induction false} LogKeeps()
    ensures Keeps(LOG, LogSeen, LogSize)
  {
    hide LogSeen, LogSize, PayloadSize, Fits, PutLog;
    forall f, has, num, p | LogSeen(f, has) && LOG.wire(num).Some? && Fits(p, LOG.wire(num).value)
      && LOG.put(f, num, p).Ok?
      ensures LogSeen(LOG.put(f, num, p).value, has + {num} * LOG.required)
      ensures LogSize(LOG.put(f, num, p).value) <= LogSize(f) + 1 + PayloadSize(p)
    {
      LogKeepsOne(f, has, num, p, LOG.put(f, num, p).value);
    }
  }

  lemma {:induction false} AcceptedLog(s: Bytes, m: Log)
    requires UnmarshalLog(s) == Ok(m)
    ensures GoodLog(m) && |EncodeLog(m)| <= |s|
  {
    LogKeeps();
    hide Parse, Keeps, UnknownRun, GoodPair, EncodePair;
    var h := Accepted(LOG, s, NO_LOG.fields, m, LogSeen, LogSize);
  }

  lemma {:induction false} NormaliseLog(s: Bytes, m: Log)
    requires UnmarshalLog(s) == Ok(m)
    ensures |EncodeLog(m)| <= |s| && UnmarshalLog(EncodeLog(m)) == Ok(m)
  {
    hide UnmarshalLog, EncodeLog, GoodLog;
    AcceptedLog(s, m);
    RoundTripLog(m);
  }

  // ---------------------------------------------------------------------- LogGroup

  ghost predicate GroupSeen(f: LogGroupFields, has: set<int>) {
    (forall l :: l in f.logs ==> GoodLog(l)) && (forall t :: t in f.logTags ==> GoodPair(t))
  }

  function GroupSize(f: LogGroupFields): nat {
    |Repeated(1, EncodeEach(EncodeLog, f.logs))|
    + |OptField(2, f.category)| + |OptField(3, f.topic)| + |OptField(4, f.source)| + |OptField(5, f.machineUUID)|
    + |Repeated(6, EncodeEach(EncodePair, f.logTags))|
  }

  lemma {:induction false} GroupKeepsOne(f: LogGroupFields, has: set<int>, num: int, p: Payload, g: LogGroupFields)
    requires GroupSeen(f, has) && 1 <= num <= 6 && p.BytesP? && PutGroup(f, num, p) == Ok(g)
    ensures GroupSeen(g, has) && GroupSize(g) <= GroupSize(f) + 1 + PayloadSize(p)
  {
    hide VarintBytes, GoodPair, GoodLog, EncodePair, EncodeLog, Repeated, EncodeEach, UnmarshalPair, UnmarshalLog;
    if num == 1 {
      var l := UnmarshalLog(p.b).value;
      AcceptedLog(p.b, l);
      NestedFits(1, EncodeLog(l), p.b);
      OneMore(1, EncodeLog, f.logs, l);
    } else if num == 6 {
      var t := UnmarshalPair(p.b).value;
      AcceptedPair(p.b, t);
      NestedFits(6, EncodePair(t), p.b);
      OneMore(6, EncodePair, f.logTags, t);
    }
  }

  lemma {:induction false} GroupKeeps()
    ensures Keeps(GROUP, GroupSeen, GroupSize)
  {
    hide GroupSize, PayloadSize, PutGroup, GoodLog, GoodPair;
    forall f, has, num, p | GroupSeen(f, has) && GROUP.wire(num).Some? && Fits(p, GROUP.wire(num).value)
      && GROUP.put(f, num, p).Ok?
      ensures GroupSeen(GROUP.put(f, num, p).value, has + {num} * GROUP.required)
      ensures GroupSize(GROUP.put(f, num, p).value) <= GroupSize(f) + 1 + PayloadSize(p)
    {
      GroupKeepsOne(f, has, num, p, GROUP.put(f, num, p).value);
    }
  }

  lemma {:induction false} AcceptedGroup(s: Bytes, m: LogGroup)
    requires UnmarshalGroup(s) == Ok(m)
    ensures GoodGroup(m) && |EncodeGroup(m)| <= |s|
  {
    GroupKeeps();
    hide Parse, Keeps, UnknownRun, GoodPair, GoodLog, EncodePair, EncodeLog, LenField;
    var h := Accepted(GROUP, s, NO_GROUP.fields, m, GroupSeen, GroupSize);
  }

  lemma {:induction false} NormaliseGroup(s: Bytes, m: LogGroup)
    requires UnmarshalGroup(s) == Ok(m)
    ensures |EncodeGroup(m)| <= |s| && UnmarshalGroup(EncodeGroup(m)) == Ok(m)
  {
    hide UnmarshalGroup, EncodeGroup, GoodGroup;
    AcceptedGroup(s, m);
    RoundTripGroup(m);
  }

  // ------------------------------------------------------------------ LogGroupList

  ghost predicate GroupsSeen(f: LogGroupListFields, has: set<int>) {
    forall g :: g in f.logGroups ==> GoodGroup(g)
  }

  function GroupsSize(f: LogGroupListFields): nat {
    |Repeated(1, EncodeEach(EncodeGroup, f.logGroups))|
  }

  lemma {:induction false} GroupsKeep()
    ensures Keeps(GROUPS, GroupsSeen, GroupsSize)
  {
    hide PayloadSize, GoodGroup, UnmarshalGroup, EncodeGroup, Repeated, EncodeEach, VarintBytes;
    forall f, has, num, p | GroupsSeen(f, has) && GROUPS.wire(num).Some? && Fits(p, GROUPS.wire(num).value)
      && GROUPS.put(f, num, p).Ok?
      ensures GroupsSeen(GROUPS.put(f, num, p).value, has + {num} * GROUPS.required)
      ensures GroupsSize(GROUPS.put(f, num, p).value) <= GroupsSize(f) + 1 + PayloadSize(p)
    {
      var g := UnmarshalGroup(p.b).value;
      AcceptedGroup(p.b, g);
      NestedFits(1, EncodeGroup(g), p.b);
      OneMore(1, EncodeGroup, f.logGroups, g);
    }
  }

  lemma {:induction false} AcceptedGroups(s: Bytes, m: LogGroupList)
    requires UnmarshalGroups(s) == Ok(m)
    ensures GoodGroups(m) && |EncodeGroups(m)| <= |s|
  {
    GroupsKeep();
    hide Parse, Keeps, UnknownRun, GoodGroup, EncodeGroup;
    var h := Accepted(GROUPS, s, NO_GROUPS.fields, m, GroupsSeen, GroupsSize);
  }

  /** Re-marshalling an accepted LogGroupList never takes more bytes, and loses nothing. */
  lemma {:induction false} NormaliseGroups(s: Bytes, m: LogGroupList)
    requires UnmarshalGroups(s) == Ok(m)
    ensures |EncodeGroups(m)| <= |s| && UnmarshalGroups(EncodeGroups(m)) == Ok(m)
  {
    hide UnmarshalGroups, EncodeGroups, GoodGroups;
    AcceptedGroups(s, m);
    RoundTripGroups(m);
  }

  /** Exactly the good messages survive the trip. */
  lemma {:induction false} RoundTripExactly(m: LogGroupList)
    requires |EncodeGroups(m)| <= MAX_LEN
    ensures UnmarshalGroups(EncodeGroups(m)) == Ok(m) <==> GoodGroups(m)
  {
    hide UnmarshalGroups, EncodeGroups, GoodGroups;
    if GoodGroups(m) {
      RoundTripGroups(m);
    }
    if UnmarshalGroups(EncodeGroups(m)) == Ok(m) {
      AcceptedGroups(EncodeGroups(m), m);
    }
  }

  // ------------------------------------------------ SlsLogPackage, SlsLogPackageList

  ghost predicate PackageSeen(f: PackageFields, has: set<int>) {
    1 in has ==> f.data.Some?
  }

  predicate Negative(size: Option<Int32>) {
    size.Some? && size.value < 0
  }

  /** A negative size counted as the five bytes it may have been read from. */
  function PackageSize(f: PackageFields): nat {
    |OptField(1, f.data)| + (if Negative(f.uncompressSize) then 6 else |SizeField(f.uncompressSize)|)
  }

  lemma {:induction false} LongVarint(v: nat)
    requires v >= I32
    ensures |VarintBytes(v)| >= 5
  {
    VarintLengthMonotone(I32, v);
    assert |VarintBytes(I32)| == 5;
  }

  lemma {:induction false} TenBytes(v: Int32)
    requires v < 0
    ensures |VarintBytes(SignExtend(v))| == 10
  {
    Pow2Of64();
    Pow2Monotone(64, 70);
    ShortValueShortVarint(SignExtend(v), 10);
    VarintLengthMonotone(0xFFFF_FFFF_8000_0000, SignExtend(v));
    assert |VarintBytes(0xFFFF_FFFF_8000_0000)| == 10;
  }

  lemma {:induction false} PackageKeeps()
    ensures Keeps(PACKAGE, PackageSeen, PackageSize)
  {
    hide VarintBytes;
    forall f, has, num, p | PackageSeen(f, has) && PACKAGE.wire(num).Some? && Fits(p, PACKAGE.wire(num).value)
      && PACKAGE.put(f, num, p).Ok?
      ensures PackageSeen(PACKAGE.put(f, num, p).value, has + {num} * PACKAGE.required)
      ensures PackageSize(PACKAGE.put(f, num, p).value) <= PackageSize(f) + 1 + PayloadSize(p)
    {
      if num == 2 {
        if p.v >= I32 { LongVarint(p.v); }
        VarintLengthMonotone(p.v % U32, p.v);
      }
    }
  }

  /** Only a negative size can make the re-encoding longer, by at most five bytes. */
  lemma {:induction false} AcceptedPackage(s: Bytes, m: SlsLogPackage)
    requires UnmarshalPackage(s) == Ok(m)
    ensures GoodPackage(m)
    ensures |EncodePackage(m)| <= |s| + (if Negative(m.fields.uncompressSize) then 5 else 0)
  {
    PackageKeeps();
    hide Parse, Keeps, UnknownRun, LenField, VarintBytes;
    var h := Accepted(PACKAGE, s, NO_PACKAGE.fields, m, PackageSeen, PackageSize);
    if Negative(m.fields.uncompressSize) { TenBytes(m.fields.uncompressSize.value); }
  }

  /** The package with a negative size cut to its low 32 bits, which are all that is read of it. */
  function EncodeShort(m: SlsLogPackage): seq<Byte> {
    if Negative(m.fields.uncompressSize) then
      OptField(1, m.fields.data) + (VarintField(2, m.fields.uncompressSize.value + U32) + m.unrecognized)
    else EncodePackage(m)
  }

  lemma {:induction false} ShortIsShorter(m: SlsLogPackage)
    ensures |EncodePackage(m)| == |EncodeShort(m)| + (if Negative(m.fields.uncompressSize) then 5 else 0)
  {
    hide VarintBytes, OptField;
    if Negative(m.fields.uncompressSize) {
      var v := m.fields.uncompressSize.value;
      LongVarint(v + U32);
      Pow2Of32();
      Pow2Monotone(32, 35);
      ShortValueShortVarint(v + U32, 5);
      TenBytes(v);
    }
  }

  lemma {:induction false} ShortIsRead(m: SlsLogPackage)
    requires GoodPackage(m) && |EncodeShort(m)| <= MAX_LEN
    ensures UnmarshalPackage(EncodeShort(m)) == Ok(m)
  {
    hide UnmarshalPackage, EncodePackage, VarintBytes, OptField, UnknownRun;
    if Negative(m.fields.uncompressSize) {
      var w := m.fields.uncompressSize.value + U32;
      ParsePackage(EncodeShort(m), m, VarintField(2, w), w);
    } else {
      RoundTripPackage(m);
    }
  }

  /** It does: every package with a negative size can be read from five bytes less than it is written to. */
  lemma {:induction false} NegativeSizeGrows(m: SlsLogPackage) returns (s: seq<Byte>)
    requires GoodPackage(m) && Negative(m.fields.uncompressSize) && |EncodePackage(m)| <= MAX_LEN
    ensures |EncodePackage(m)| == |s| + 5 && UnmarshalPackage(s) == Ok(m)
  {
    hide UnmarshalPackage, EncodePackage, GoodPackage, EncodeShort;
    ShortIsShorter(m);
    ShortIsRead(m);
    s := EncodeShort(m);
  }

  lemma {:induction false} NormalisePackage(s: Bytes, m: SlsLogPackage)
    requires UnmarshalPackage(s) == Ok(m)
    ensures |EncodePackage(m)| <= |s| + (if Negative(m.fields.uncompressSize) then 5 else 0)
    ensures |EncodePackage(m)| <= MAX_LEN ==> UnmarshalPackage(EncodePackage(m)) == Ok(m)
  {
    hide UnmarshalPackage, EncodePackage, GoodPackage;
    AcceptedPackage(s, m);
    if |EncodePackage(m)| <= MAX_LEN { RoundTripPackage(m); }
  }

  /** How many packages of a list have a negative size. */
  function Negatives(ps: seq<SlsLogPackage>): nat {
    if ps == [] then 0
    else Negatives(ps[..|ps| - 1]) + (if Negative(ps[|ps| - 1].fields.uncompressSize) then 1 else 0)
  }

  ghost predicate PackagesSeen(f: PackageListFields, has: set<int>) {
    forall p :: p in f.packages ==> GoodPackage(p)
  }

  /** The list's encoding, less six bytes for each negative size. */
  function PackagesSize(f: PackageListFields): nat {
    var all, less := |Repeated(1, EncodeEach(EncodePackage, f.packages))|, 6 * Negatives(f.packages);
    if all < less then 0 else all - less
  }

  /** Five bytes more take at most one more byte of length prefix. */
  lemma {:induction false} VarintOfFiveMore(n: nat)
    ensures |VarintBytes(n + 5)| <= |VarintBytes(n)| + 1
  {
    if n >= 128 {
      VarintOfFiveMore(n / 128);
      VarintLengthMonotone((n + 5) / 128, n / 128 + 5);
    }
  }

  /** Nesting an accepted package costs at most six bytes more than its field took, and only if its size is negative. */
  lemma {:induction false} NestedPackageFits(b: Bytes, m: SlsLogPackage)
    requires UnmarshalPackage(b) == Ok(m)
    ensures |LenField(1, EncodePackage(m))|
         <= 1 + PayloadSize(BytesP(b)) + (if Negative(m.fields.uncompressSize) then 6 else 0)
  {
    hide UnmarshalPackage, EncodePackage, GoodPackage, VarintBytes;
    AcceptedPackage(b, m);
    var n := |EncodePackage(m)|;
    if Negative(m.fields.uncompressSize) {
      VarintOfFiveMore(|b|);
      VarintLengthMonotone(n, |b| + 5);
    } else {
      NestedFits(1, EncodePackage(m), b);
    }
  }

  lemma {:induction false} PackagesKeep()
    ensures Keeps(PACKAGES, PackagesSeen, PackagesSize)
  {
    hide PayloadSize, GoodPackage, UnmarshalPackage, EncodePackage, LenField, Repeated, EncodeEach;
    forall f, has, num, p |
      && PackagesSeen(f, has) && PACKAGES.wire(num).Some? && Fits(p, PACKAGES.wire(num).value)
      && PACKAGES.put(f, num, p).Ok?
      ensures PackagesSeen(PACKAGES.put(f, num, p).value, has + {num} * PACKAGES.required)
      ensures PackagesSize(PACKAGES.put(f, num, p).value) <= PackagesSize(f) + 1 + PayloadSize(p)
    {
      var m := UnmarshalPackage(p.b).value;
      AcceptedPackage(p.b, m);
      NestedPackageFits(p.b, m);
      OneMore(1, EncodePackage, f.packages, m);
      assert (f.packages + [m])[..|f.packages|] == f.packages;
    }
  }

  /** Six bytes is the most a negative size costs: its own five, and one if the package's length prefix grows. */
  lemma {:induction false} AcceptedPackages(s: Bytes, m: SlsLogPackageList)
    requires UnmarshalPackages(s) == Ok(m)
    ensures GoodPackages(m) && |EncodePackages(m)| <= |s| + 6 * Negatives(m.fields.packages)
  {
    PackagesKeep();
    hide Parse, Keeps, UnknownRun, GoodPackage, EncodePackage;
    var h := Accepted(PACKAGES, s, NO_PACKAGES.fields, m, PackagesSeen, PackagesSize);
  }

  /** Re-marshalling an accepted list loses nothing; without a negative size it takes no more bytes. */
  lemma {:induction false} NormalisePackages(s: Bytes, m: SlsLogPackageList)
    requires UnmarshalPackages(s) == Ok(m)
    ensures |EncodePackages(m)| <= |s| + 6 * Negatives(m.fields.packages)
    ensures |EncodePackages(m)| <= MAX_LEN ==> UnmarshalPackages(EncodePackages(m)) == Ok(m)
  {
    hide UnmarshalPackages, EncodePackages, GoodPackages;
    AcceptedPackages(s, m);
    if |EncodePackages(m)| <= MAX_LEN { RoundTripPackages(m); }
  }

  lemma {:induction false} ShorterEach(ps: seq<SlsLogPackage>)
    ensures |Repeated(1, EncodeEach(EncodeShort, ps))| + 5 * Negatives(ps)
         <= |Repeated(1, EncodeEach(EncodePackage, ps))|
    decreases |ps|
  {
    hide EncodePackage, EncodeShort, Repeated, EncodeEach, VarintBytes;
    if ps == [] {
      assert EncodeEach(EncodeShort, ps) == EncodeEach(EncodePackage, ps) == [];
    } else {
      var init, last := ps[..|ps| - 1], ps[|ps| - 1];
      assert ps == init + [last];
      ShorterEach(init);
      ShortIsShorter(last);
      VarintLengthMonotone(|EncodeShort(last)|, |EncodePackage(last)|);
      OneMore(1, EncodeShort, init, last);
      OneMore(1, EncodePackage, init, last);
    }
  }

  /** An accepted list can have come from fewer bytes than it is written to, exactly if a size in it is negative. */
  lemma {:induction false} GrowsExactly(m: SlsLogPackageList)
    requires GoodPackages(m) && |EncodePackages(m)| <= MAX_LEN
    ensures (exists s: Bytes :: UnmarshalPackages(s) == Ok(m) && |s| < |EncodePackages(m)|)
       <==> Negatives(m.fields.packages) > 0
  {
    hide UnmarshalPackages, UnmarshalPackage, EncodePackage, EncodeShort, GoodPackage, UnknownRun, Negatives,
      Repeated, EncodeEach;
    var ps := m.fields.packages;
    ShorterEach(ps);
    var s: Bytes := Repeated(1, EncodeEach(EncodeShort, ps)) + m.unrecognized;
    forall p | p in ps && |EncodeShort(p)| <= MAX_LEN ensures UnmarshalPackage(EncodeShort(p)) == Ok(p) {
      ShortIsRead(p);
    }
    ParsePackages(s, m, EncodeShort);
    forall t: Bytes | UnmarshalPackages(t) == Ok(m)
      ensures |EncodePackages(m)| <= |t| + 6 * Negatives(ps)
    {
      AcceptedPackages(t, m);
    }
  }
}
