/** Size(): the room MarshalToSizedBuffer needs, computed without writing; and Marshal, which allocates it. */
module Sizes {
  import opened Wire
  import opened Schema
  import opened Messages
  import opened Normalise
  import opened Writer

  lemma {:induction false} LenFieldSize(num: FieldNum, b: seq<Byte>)
    ensures |LenField(num, b)| == 1 + |b| + Sov(|b|)
  {
    SovIsVarintLength(|b|);
  }

  /** Adds what an optional string or bytes field takes: tag byte, length prefix and contents, nothing if unset. */
  method AddOpt(n: nat, num: FieldNum, b: Option<Bytes>) returns (r: nat)
    ensures r == n + |OptField(num, b)|
  {
    r := n;
    if b.Some? {
      LenFieldSize(num, b.value);
      r := r + 1 + |b.value| + Sov(|b.value|);
    }
  }

  /** What the k first elements of a repeated field take. */
  ghost function Upto<F>(num: FieldNum, enc: Message<F> -> seq<Byte>, ms: seq<Message<F>>, k: nat): nat
    requires k <= |ms|
  {
    |Repeated(num, EncodeEach(enc, ms[..k]))|
  }

  lemma {:induction false} UptoStep<F>(num: FieldNum, enc: Message<F> -> seq<Byte>, ms: seq<Message<F>>, k: nat)
    requires k < |ms|
    ensures Upto(num, enc, ms, k + 1) == Upto(num, enc, ms, k) + 1 + |enc(ms[k])| + Sov(|enc(ms[k])|)
  {
    assert ms[..k + 1] == ms[..k] + [ms[k]];
    EachAppend(enc, ms[..k], ms[k]);
    RepeatedAppend(num, EncodeEach(enc, ms[..k]), enc(ms[k]));
    LenFieldSize(num, enc(ms[k]));
  }

  lemma {:induction false} UptoEnds<F>(num: FieldNum, enc: Message<F> -> seq<Byte>, ms: seq<Message<F>>)
    ensures Upto(num, enc, ms, 0) == 0 && Upto(num, enc, ms, |ms|) == |Repeated(num, EncodeEach(enc, ms))|
  {
    assert ms[..|ms|] == ms;
  }

  method SizePair(m: LogContent) returns (n: nat)
    ensures n == |EncodePair(m)|
  {
    n := AddOpt(0, 1, m.fields.key);
    n := AddOpt(n, 2, m.fields.value);
    n := n + |m.unrecognized|;
  }

  method SizeLog(m: Log) returns (n: nat)
    ensures n == |EncodeLog(m)|
  {
    n := 0;
    if m.fields.time.Some? {
      SovIsVarintLength(m.fields.time.value);
      n := n + 1 + Sov(m.fields.time.value);
    }
    ghost var base := n;
    assert base == |TimeField(m.fields.time)|;
    var cs := m.fields.contents;
    UptoEnds(2, EncodePair, cs);
    hide EncodePair, Upto, Sov, VarintBytes;
    for k := 0 to |cs|
      invariant n == base + Upto(2, EncodePair, cs, k)
    {
      var l := SizePair(cs[k]);
      UptoStep(2, EncodePair, cs, k);
      n := n + 1 + l + Sov(l);
    }
    if m.fields.timeNs.Some? {
      n := n + 5;
    }
    n := n + |m.unrecognized|;
  }

  method SizeGroup(m: LogGroup) returns (n: nat)
    ensures n == |EncodeGroup(m)|
  {
    var logs, tags := m.fields.logs, m.fields.logTags;
    UptoEnds(1, EncodeLog, logs);
    UptoEnds(6, EncodePair, tags);
    hide EncodePair, EncodeLog, Upto, Sov, OptField, Repeated;
    n := 0;
    for k := 0 to |logs|
      invariant n == Upto(1, EncodeLog, logs, k)
    {
      var l := SizeLog(logs[k]);
      UptoStep(1, EncodeLog, logs, k);
      n := n + 1 + l + Sov(l);
    }
    n := AddOpt(n, 2, m.fields.category);
    n := AddOpt(n, 3, m.fields.topic);
    n := AddOpt(n, 4, m.fields.source);
    n := AddOpt(n, 5, m.fields.machineUUID);
    ghost var base := n;
    for k := 0 to |tags|
      invariant n == base + Upto(6, EncodePair, tags, k)
    {
      var l := SizePair(tags[k]);
      UptoStep(6, EncodePair, tags, k);
      n := n + 1 + l + Sov(l);
    }
    n := n + |m.unrecognized|;
  }

  method SizePackage(m: SlsLogPackage) returns (n: nat)
    ensures n == |EncodePackage(m)|
  {
    n := AddOpt(0, 1, m.fields.data);
    if m.fields.uncompressSize.Some? {
      SovIsVarintLength(SignExtend(m.fields.uncompressSize.value));
      n := n + 1 + Sov(SignExtend(m.fields.uncompressSize.value));
    }
    n := n + |m.unrecognized|;
  }

  method SizePackages(m: SlsLogPackageList) returns (n: nat)
    ensures n == |EncodePackages(m)|
  {
    var ps := m.fields.packages;
    UptoEnds(1, EncodePackage, ps);
    hide EncodePackage, Upto, Sov;
    n := 0;
    for k := 0 to |ps|
      invariant n == Upto(1, EncodePackage, ps, k)
    {
      var l := SizePackage(ps[k]);
      UptoStep(1, EncodePackage, ps, k);
      n := n + 1 + l + Sov(l);
    }
    n := n + |m.unrecognized|;
  }

  method SizeGroups(m: LogGroupList) returns (n: nat)
    ensures n == |EncodeGroups(m)|
  {
    var gs := m.fields.logGroups;
    UptoEnds(1, EncodeGroup, gs);
    hide EncodeGroup, Upto, Sov;
    n := 0;
    for k := 0 to |gs|
      invariant n == Upto(1, EncodeGroup, gs, k)
    {
      var l := SizeGroup(gs[k]);
      UptoStep(1, EncodeGroup, gs, k);
      n := n + 1 + l + Sov(l);
    }
    n := n + |m.unrecognized|;
  }

  lemma {:induction false} WholeBuffer(now: seq<Byte>, before: seq<Byte>, e: seq<Byte>)
    requires Written(now, before, |before|, e) && |before| == |e|
    ensures now == e
  {
  }

  /** Marshal of a LogGroup, as PostLogStoreLogs sends it: the buffer is exactly the encoding. */
  method MarshalNewGroup(m: LogGroup) returns (b: Result<seq<Byte>>)
    ensures b == if CompleteGroup(m) then Ok(EncodeGroup(m)) else Err(RequiredNotSet)
  {
    var size := SizeGroup(m);
    var dAtA := new Byte[size];
    hide *;
    ghost var before := dAtA[..];
    var n := MarshalGroup(m, dAtA, size);
    if n.Err? {
      return Err(n.error);
    }
    WholeBuffer(dAtA[..], before, EncodeGroup(m));
    return Ok(dAtA[..]);
  }

  method MarshalNewGroups(m: LogGroupList) returns (b: Result<seq<Byte>>)
    ensures b == if CompleteGroups(m) then Ok(EncodeGroups(m)) else Err(RequiredNotSet)
  {
    var size := SizeGroups(m);
    var dAtA := new Byte[size];
    hide *;
    ghost var before := dAtA[..];
    var n := MarshalGroups(m, dAtA, size);
    if n.Err? {
      return Err(n.error);
    }
    WholeBuffer(dAtA[..], before, EncodeGroups(m));
    return Ok(dAtA[..]);
  }

  /** Nothing but whole unknown fields in XXX_unrecognized, at every level. */
  predicate TidyGroup(m: LogGroup) {
    && UnknownRun(GROUP, m.unrecognized)
    && (forall l :: l in m.fields.logs ==>
          UnknownRun(LOG, l.unrecognized) && forall c :: c in l.fields.contents ==> UnknownRun(PAIR, c.unrecognized))
    && (forall t :: t in m.fields.logTags ==> UnknownRun(PAIR, t.unrecognized))
  }

  predicate TidyGroups(m: LogGroupList) {
    UnknownRun(GROUPS, m.unrecognized) && forall g :: g in m.fields.logGroups ==> TidyGroup(g)
  }

  /** Marshal refuses exactly the messages that lack what makes a tidy one come back from Unmarshal. */
  lemma {:induction false} CompleteExactly(m: LogGroupList)
    requires TidyGroups(m) && |EncodeGroups(m)| <= MAX_LEN
    ensures CompleteGroups(m) <==> UnmarshalGroups(EncodeGroups(m)) == Ok(m)
  {
    hide UnknownRun, EncodeGroups, UnmarshalGroups;
    RoundTripExactly(m);
    forall g | g in m.fields.logGroups ensures CompleteGroup(g) <==> GoodGroup(g) { GroupComplete(g); }
  }

  lemma {:induction false} PackagesComplete(m: SlsLogPackageList)
    requires UnknownRun(PACKAGES, m.unrecognized) && |EncodePackages(m)| <= MAX_LEN
    requires forall p :: p in m.fields.packages ==> UnknownRun(PACKAGE, p.unrecognized)
    ensures CompletePackages(m) <==> UnmarshalPackages(EncodePackages(m)) == Ok(m)
  {
    hide UnknownRun, EncodePackages, UnmarshalPackages;
    if GoodPackages(m) { RoundTripPackages(m); }
    if UnmarshalPackages(EncodePackages(m)) == Ok(m) { AcceptedPackages(EncodePackages(m), m); }
  }

  lemma {:induction false} GroupComplete(m: LogGroup)
    requires TidyGroup(m)
    ensures CompleteGroup(m) <==> GoodGroup(m)
  {
    hide UnknownRun;
    forall l | l in m.fields.logs ensures CompleteLog(l) <==> GoodLog(l) {
      forall c | c in l.fields.contents ensures CompletePair(c) <==> GoodPair(c) {}
    }
  }
}
