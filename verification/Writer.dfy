/** MarshalToSizedBuffer: each message written back to front into the tail of a buffer. */
module Writer {
  import opened Wire
  import opened Schema
  import opened Messages

  /** now is before with e in place of the |e| bytes that ended at hi. */
  ghost predicate Written(now: seq<Byte>, before: seq<Byte>, hi: nat, e: seq<Byte>) {
    |e| <= hi <= |before| && now == before[..hi - |e|] + e + before[hi..]
  }

  /** now and before differ between lo and hi only. */
  ghost predicate Within(now: seq<Byte>, before: seq<Byte>, lo: nat, hi: nat) {
    lo <= hi <= |now| == |before| && now[..lo] == before[..lo] && now[hi..] == before[hi..]
  }

  lemma {:induction false} WrittenNothing(s: seq<Byte>, hi: nat)
    requires hi <= |s|
    ensures Written(s, s, hi, [])
  {
    assert s == s[..hi] + [] + s[hi..];
  }

  /** Writing a in front of b is writing a + b. */
  lemma {:induction false} WrittenBefore(
    now: seq<Byte>, mid: seq<Byte>, before: seq<Byte>, hi: nat, a: seq<Byte>, b: seq<Byte>)
    requires Written(mid, before, hi, b) && Written(now, mid, hi - |b|, a)
    ensures Written(now, before, hi, a + b)
  {
    var j := hi - |b|;
    var i := j - |a|;
    assert mid[j..] == b + before[hi..];
    assert mid[..i] == before[..i];
    assert now == before[..i] + a + (b + before[hi..]);
    assert before[..i] + a + (b + before[hi..]) == before[..i] + (a + b) + before[hi..];
  }

  lemma {:induction false} WithinAfter(
    now: seq<Byte>, mid: seq<Byte>, before: seq<Byte>, lo: nat, hi: nat, b: seq<Byte>, from: nat)
    requires Written(mid, before, hi, b) && lo <= from <= hi - |b| && Within(now, mid, from, hi - |b|)
    ensures Within(now, before, lo, hi)
  {
    var j := hi - |b|;
    assert now[hi..] == now[j..][|b|..] == mid[j..][|b|..] == mid[hi..];
    assert mid[hi..] == before[hi..];
    assert now[..lo] == now[..from][..lo] == mid[..from][..lo] == mid[..lo] == before[..lo];
  }

  lemma {:induction false} WithinWider(now: seq<Byte>, before: seq<Byte>, from: nat, lo: nat, hi: nat)
    requires Within(now, before, from, hi) && lo <= from
    ensures Within(now, before, lo, hi)
  {
    assert now[..lo] == now[..from][..lo] && before[..lo] == before[..from][..lo];
  }

  lemma {:induction false} WrittenWithin(now: seq<Byte>, before: seq<Byte>, lo: nat, hi: nat, e: seq<Byte>)
    requires Written(now, before, hi, e) && lo <= hi - |e|
    ensures Within(now, before, lo, hi)
  {
  }

  lemma {:induction false} WrittenNext(
    now: seq<Byte>, mid: seq<Byte>, before: seq<Byte>, at: nat, done: seq<Byte>, x: Byte)
    requires Written(mid, before, at, done) && at < |before| && now == mid[at := x]
    ensures Written(now, before, at + 1, done + [x])
  {
    var i := at - |done|;
    assert mid[..at] == before[..i] + done;
    assert now[..at + 1] == before[..i] + (done + [x]);
    assert now[at + 1..] == mid[at + 1..] == before[at + 1..];
    assert now == now[..at + 1] + now[at + 1..];
  }

  lemma {:induction false} VarintNext(done: seq<Byte>, w: nat, all: seq<Byte>)
    requires w >= 128 && done + VarintBytes(w) == all
    ensures |VarintBytes(w)| == 1 + |VarintBytes(w / 128)|
    ensures done + [w % 128 + 128] + VarintBytes(w / 128) == all
  {
    assert VarintBytes(w) == [w % 128 + 128] + VarintBytes(w / 128);
    assert done + VarintBytes(w) == done + [w % 128 + 128] + VarintBytes(w / 128);
  }

  lemma {:induction false} VarintLast(done: seq<Byte>, w: nat, all: seq<Byte>)
    requires w < 128 && done + VarintBytes(w) == all
    ensures |VarintBytes(w)| == 1 && done + [w] == all
  {
  }

  /** The length comes from the closed form, the bytes from the shift loop. */
  method EncodeVarint(dAtA: array<Byte>, offset: nat, v: nat) returns (base: nat)
    requires |VarintBytes(v)| <= offset <= dAtA.Length
    modifies dAtA
    ensures base == offset - |VarintBytes(v)|
    ensures Written(dAtA[..], old(dAtA[..]), offset, VarintBytes(v))
  {
    hide *;
    SovIsVarintLength(v);
    base := offset - Sov(v);
    var at, w := base, v;
    ghost var before := dAtA[..];
    ghost var done: seq<Byte> := [];
    WrittenNothing(before, base);
    while w >= 128
      invariant base <= at && at + |VarintBytes(w)| == offset
      invariant done + VarintBytes(w) == VarintBytes(v)
      invariant Written(dAtA[..], before, at, done)
      decreases w
    {
      ghost var mid := dAtA[..];
      var b: Byte := w % 128 + 128;
      dAtA[at] := b;
      assert dAtA[..] == mid[at := b];
      WrittenNext(dAtA[..], mid, before, at, done, b);
      VarintNext(done, w, VarintBytes(v));
      done := done + [b];
      at := at + 1;
      w := w / 128;
    }
    ghost var mid := dAtA[..];
    VarintLast(done, w, VarintBytes(v));
    dAtA[at] := w;
    assert dAtA[..] == mid[at := w];
    WrittenNext(dAtA[..], mid, before, at, done, w);
  }

  lemma {:induction false} WrittenFits(now: seq<Byte>, before: seq<Byte>, at: nat, done: seq<Byte>)
    requires Written(now, before, at, done)
    ensures |done| <= at <= |now|
  {
  }

  lemma {:induction false} LenFieldLonger(num: FieldNum, e: seq<Byte>)
    ensures |e| <= |LenField(num, e)|
  {
  }

  /** `i -= len(b); copy(dAtA[i:], b)`, with rest already standing from i to hi. */
  method WriteBytes(
    dAtA: array<Byte>, i: nat, b: seq<Byte>, ghost before: seq<Byte>, ghost hi: nat, ghost rest: seq<Byte>)
    returns (j: nat)
    requires |b + rest| <= hi && i + |rest| == hi && Written(dAtA[..], before, hi, rest)
    modifies dAtA
    ensures j + |b + rest| == hi && Written(dAtA[..], before, hi, b + rest)
  {
    j := i - |b|;
    ghost var mid := dAtA[..];
    forall k | 0 <= k < |b| { dAtA[j + k] := b[k]; }
    assert dAtA[..] == mid[..j] + b + mid[i..];
    WrittenBefore(dAtA[..], mid, before, hi, b, rest);
  }

  /** XXX_unrecognized goes last, so it is written first. */
  method WriteUnknown(dAtA: array<Byte>, u: seq<Byte>, hi: nat) returns (j: nat)
    requires |u| <= hi <= dAtA.Length
    modifies dAtA
    ensures j + |u| == hi && Written(dAtA[..], old(dAtA[..]), hi, u)
  {
    WrittenNothing(dAtA[..], hi);
    assert u + [] == u;
    j := WriteBytes(dAtA, hi, u, dAtA[..], hi, []);
  }

  /** `i = encodeVarintLog(dAtA, i, v); i--; dAtA[i] = tag` */
  method WriteVarint(dAtA: array<Byte>, i: nat, num: FieldNum, wireType: Byte, tag: Byte, v: nat,
                     ghost before: seq<Byte>, ghost hi: nat, ghost rest: seq<Byte>)
    returns (j: nat)
    requires wireType < 8 && tag == Tag(num, wireType)
    requires 1 + |VarintBytes(v)| + |rest| <= hi && i + |rest| == hi && Written(dAtA[..], before, hi, rest)
    modifies dAtA
    ensures j + |[Tag(num, wireType)] + VarintBytes(v) + rest| == hi
    ensures Written(dAtA[..], before, hi, [Tag(num, wireType)] + VarintBytes(v) + rest)
  {
    ghost var first := dAtA[..];
    j := EncodeVarint(dAtA, i, v);
    ghost var mid := dAtA[..];
    WrittenBefore(mid, first, before, hi, VarintBytes(v), rest);
    j := j - 1;
    dAtA[j] := tag;
    assert Written(dAtA[..], mid, j + 1, [tag]);
    WrittenBefore(dAtA[..], mid, before, hi, [tag], VarintBytes(v) + rest);
    assert [tag] + (VarintBytes(v) + rest) == [tag] + VarintBytes(v) + rest;
  }

  /** A string or bytes field: payload, length, tag. */
  method WriteLen(dAtA: array<Byte>, i: nat, num: FieldNum, tag: Byte, b: Bytes,
                  ghost before: seq<Byte>, ghost hi: nat, ghost rest: seq<Byte>)
    returns (j: nat)
    requires tag == Tag(num, 2)
    requires |LenField(num, b) + rest| <= hi && i + |rest| == hi && Written(dAtA[..], before, hi, rest)
    modifies dAtA
    ensures j + |LenField(num, b) + rest| == hi && Written(dAtA[..], before, hi, LenField(num, b) + rest)
  {
    hide Written;
    j := WriteBytes(dAtA, i, b, before, hi, rest);
    j := WriteVarint(dAtA, j, num, 2, tag, |b|, before, hi, b + rest);
    assert [tag] + VarintBytes(|b|) + (b + rest) == LenField(num, b) + rest;
  }

  /** `if m.F != nil { ... }` around a string field. */
  method WriteOpt(dAtA: array<Byte>, i: nat, num: FieldNum, tag: Byte, b: Option<Bytes>,
                  ghost before: seq<Byte>, ghost hi: nat, ghost rest: seq<Byte>)
    returns (j: nat)
    requires tag == Tag(num, 2)
    requires |OptField(num, b) + rest| <= hi && i + |rest| == hi && Written(dAtA[..], before, hi, rest)
    modifies dAtA
    ensures j + |OptField(num, b) + rest| == hi && Written(dAtA[..], before, hi, OptField(num, b) + rest)
  {
    hide Written, LenField;
    if b.Some? {
      j := WriteLen(dAtA, i, num, tag, b.value, before, hi, rest);
    } else {
      j := i;
      assert [] + rest == rest;
    }
  }

  // ------------------------------------------------------- LogContent and LogTag

  predicate CompletePair(m: LogContent) {
    m.fields.key.Some? && m.fields.value.Some?
  }

  /** On success the encoding ends at hi; on a missing required field nothing outside its room changes. */
  method MarshalPair(m: LogContent, dAtA: array<Byte>, hi: nat) returns (n: Result<nat>)
    requires |EncodePair(m)| <= hi <= dAtA.Length
    modifies dAtA
    ensures n == if CompletePair(m) then Ok(|EncodePair(m)|) else Err(RequiredNotSet)
    ensures n.Ok? ==> Written(dAtA[..], old(dAtA[..]), hi, EncodePair(m))
    ensures Within(dAtA[..], old(dAtA[..]), hi - |EncodePair(m)|, hi)
  {
    ghost var before, lo := dAtA[..], hi - |EncodePair(m)|;
    hide Written, Within, LenField;
    var i := WriteUnknown(dAtA, m.unrecognized, hi);
    ghost var e := m.unrecognized;
    WrittenWithin(dAtA[..], before, lo, hi, e);
    if m.fields.value == None {
      return Err(RequiredNotSet);
    }
    i := WriteLen(dAtA, i, 2, 0x12, m.fields.value.value, before, hi, e);
    e := OptField(2, m.fields.value) + e;
    WrittenWithin(dAtA[..], before, lo, hi, e);
    if m.fields.key == None {
      return Err(RequiredNotSet);
    }
    i := WriteLen(dAtA, i, 1, 0x0a, m.fields.key.value, before, hi, e);
    WrittenWithin(dAtA[..], before, lo, hi, EncodePair(m));
    return Ok(hi - i);
  }

  // ------------------------------------------------------- repeated message fields

  /** The elements from index k on, and what follows the last. */
  function Suffix<F>(
    num: FieldNum, enc: Message<F> -> seq<Byte>, ms: seq<Message<F>>, k: nat, rest: seq<Byte>): seq<Byte>
    requires k <= |ms|
  {
    Repeated(num, EncodeEach(enc, ms[k..])) + rest
  }

  lemma {:induction false} SuffixEnds<F>(
    num: FieldNum, enc: Message<F> -> seq<Byte>, ms: seq<Message<F>>, rest: seq<Byte>)
    ensures Suffix(num, enc, ms, |ms|, rest) == rest
    ensures Suffix(num, enc, ms, 0, rest) == Repeated(num, EncodeEach(enc, ms)) + rest
  {
    assert ms[0..] == ms && ms[|ms|..] == [] && [] + rest == rest;
  }

  lemma {:induction false} SuffixStep<F>(
    num: FieldNum, enc: Message<F> -> seq<Byte>, ms: seq<Message<F>>, k: nat, rest: seq<Byte>)
    requires k < |ms|
    ensures Suffix(num, enc, ms, k, rest) == LenField(num, enc(ms[k])) + Suffix(num, enc, ms, k + 1, rest)
    ensures |enc(ms[k])| < |LenField(num, enc(ms[k]))|
  {
    assert ms[k..][0] == ms[k] && ms[k..][1..] == ms[k + 1..];
  }

  lemma {:induction false} SuffixFits<F>(
    num: FieldNum, enc: Message<F> -> seq<Byte>, ms: seq<Message<F>>, k: nat, rest: seq<Byte>)
    requires k <= |ms|
    ensures |Suffix(num, enc, ms, k, rest)| <= |Suffix(num, enc, ms, 0, rest)|
  {
    hide LenField;
    if k > 0 {
      SuffixStep(num, enc, ms, k - 1, rest);
      SuffixFits(num, enc, ms, k - 1, rest);
    }
  }

  /** Length and tag in front of a nested message that has just been written below i. */
  method CloseNested(
    dAtA: array<Byte>, i: nat, num: FieldNum, tag: Byte, size: nat, ghost e: seq<Byte>, ghost mid: seq<Byte>,
                     ghost before: seq<Byte>, ghost hi: nat, ghost rest: seq<Byte>)
    returns (j: nat)
    requires tag == Tag(num, 2) && size == |e| && |LenField(num, e) + rest| <= hi && i + |rest| == hi
    requires Written(dAtA[..], mid, i, e) && Written(mid, before, hi, rest)
    modifies dAtA
    ensures j + |LenField(num, e) + rest| == hi && Written(dAtA[..], before, hi, LenField(num, e) + rest)
  {
    WrittenBefore(dAtA[..], mid, before, hi, e, rest);
    hide Written;
    j := WriteVarint(dAtA, i - size, num, 2, tag, size, before, hi, e + rest);
    assert [tag] + VarintBytes(|e|) + (e + rest) == LenField(num, e) + rest;
  }

  /** One round of the loop over LogContents: the message, its length, its tag. */
  method NestedPair(m: LogContent, num: FieldNum, tag: Byte, dAtA: array<Byte>, top: nat,
                  ghost lo: nat, ghost before: seq<Byte>, ghost hi: nat, ghost rest: seq<Byte>)
    returns (i: Result<nat>)
    requires tag == Tag(num, 2) && Written(dAtA[..], before, hi, rest)
    requires lo + |LenField(num, EncodePair(m)) + rest| <= hi && top + |rest| == hi
    modifies dAtA
    ensures i.Ok? == CompletePair(m) && (i.Err? ==> i.error == RequiredNotSet)
    ensures i.Ok? ==> i.value + |LenField(num, EncodePair(m)) + rest| == hi
                      && Written(dAtA[..], before, hi, LenField(num, EncodePair(m)) + rest)
    ensures Within(dAtA[..], before, lo, hi)
  {
    hide *;
    ghost var mid, e := dAtA[..], EncodePair(m);
    LenFieldLonger(num, e);
    WrittenFits(mid, before, hi, rest);
    var size := MarshalPair(m, dAtA, top);
    if size.Err? {
      WithinAfter(dAtA[..], mid, before, lo, hi, rest, top - |e|);
      return Err(size.error);
    }
    var j := CloseNested(dAtA, top, num, tag, size.value, e, mid, before, hi, rest);
    WrittenWithin(dAtA[..], before, lo, hi, LenField(num, e) + rest);
    return Ok(j);
  }

  method MarshalPairs(num: FieldNum, tag: Byte, ms: seq<LogContent>, dAtA: array<Byte>, top: nat,
                    ghost before: seq<Byte>, ghost hi: nat, ghost rest: seq<Byte>)
    returns (i: Result<nat>)
    requires tag == Tag(num, 2)
    requires |Suffix(num, EncodePair, ms, 0, rest)| <= hi && top + |rest| == hi && Written(dAtA[..], before, hi, rest)
    modifies dAtA
    ensures i.Ok? == forall m :: m in ms ==> CompletePair(m)
    ensures i.Err? ==> i.error == RequiredNotSet
    ensures i.Ok? ==> i.value + |Suffix(num, EncodePair, ms, 0, rest)| == hi
                      && Written(dAtA[..], before, hi, Suffix(num, EncodePair, ms, 0, rest))
    ensures Within(dAtA[..], before, hi - |Suffix(num, EncodePair, ms, 0, rest)|, hi)
  {
    ghost var lo := hi - |Suffix(num, EncodePair, ms, 0, rest)|;
    SuffixEnds(num, EncodePair, ms, rest);
    SuffixFits(num, EncodePair, ms, |ms|, rest);
    WrittenWithin(dAtA[..], before, lo, hi, rest);
    hide *;
    i := Ok(top);
    var k := |ms|;
    while k > 0
      invariant 0 <= k <= |ms| && i.Ok? && i.value + |Suffix(num, EncodePair, ms, k, rest)| == hi
      invariant Written(dAtA[..], before, hi, Suffix(num, EncodePair, ms, k, rest))
      invariant Within(dAtA[..], before, lo, hi)
      invariant forall m :: m in ms[k..] ==> CompletePair(m)
    {
      k := k - 1;
      SuffixStep(num, EncodePair, ms, k, rest);
      SuffixFits(num, EncodePair, ms, k, rest);
      assert ms[k..] == [ms[k]] + ms[k + 1..];
      i := NestedPair(ms[k], num, tag, dAtA, i.value, lo, before, hi, Suffix(num, EncodePair, ms, k + 1, rest));
      if i.Err? {
        return;
      }
    }
    assert ms[0..] == ms;
  }

  // ------------------------------------------------------------------------ Log

  predicate CompleteLog(m: Log) {
    m.fields.time.Some? && forall c :: c in m.fields.contents ==> CompletePair(c)
  }

  ghost function LogTail(m: Log): seq<Byte> {
    NsField(m.fields.timeNs) + m.unrecognized
  }

  ghost function LogBody(m: Log): seq<Byte> {
    Suffix(2, EncodePair, m.fields.contents, 0, LogTail(m))
  }

  lemma {:induction false} LogShape(m: Log)
    ensures EncodeLog(m) == TimeField(m.fields.time) + LogBody(m)
    ensures |LogTail(m)| <= |LogBody(m)| <= |EncodeLog(m)|
  {
    SuffixEnds(2, EncodePair, m.fields.contents, LogTail(m));
  }

  /** Unknown bytes and TimeNs. */
  method MarshalLogTail(m: Log, dAtA: array<Byte>, ghost before: seq<Byte>, hi: nat) returns (i: nat)
    requires |LogTail(m)| <= hi <= dAtA.Length && before == dAtA[..]
    modifies dAtA
    ensures i + |LogTail(m)| == hi && Written(dAtA[..], before, hi, LogTail(m))
  {
    hide Written, LittleEndianBytes;
    i := WriteUnknown(dAtA, m.unrecognized, hi);
    if m.fields.timeNs.Some? {
      var le := LittleEndianBytes(m.fields.timeNs.value);
      i := WriteBytes(dAtA, i, le, before, hi, m.unrecognized);
      i := WriteBytes(dAtA, i, [0x25], before, hi, le + m.unrecognized);
      assert [0x25] + (le + m.unrecognized) == LogTail(m);
    } else {
      assert LogTail(m) == m.unrecognized;
    }
  }

  method MarshalLog(m: Log, dAtA: array<Byte>, hi: nat) returns (n: Result<nat>)
    requires |EncodeLog(m)| <= hi <= dAtA.Length
    modifies dAtA
    ensures n == if CompleteLog(m) then Ok(|EncodeLog(m)|) else Err(RequiredNotSet)
    ensures n.Ok? ==> Written(dAtA[..], old(dAtA[..]), hi, EncodeLog(m))
    ensures Within(dAtA[..], old(dAtA[..]), hi - |EncodeLog(m)|, hi)
  {
    ghost var before, lo := dAtA[..], hi - |EncodeLog(m)|;
    LogShape(m);
    hide Written, Within, CompletePair, EncodeLog, VarintBytes, LogTail, Suffix;
    var i := MarshalLogTail(m, dAtA, before, hi);
    var j := MarshalPairs(2, 0x12, m.fields.contents, dAtA, i, before, hi, LogTail(m));
    WithinWider(dAtA[..], before, hi - |LogBody(m)|, lo, hi);
    if j.Err? {
      return Err(j.error);
    }
    if m.fields.time == None {
      return Err(RequiredNotSet);
    }
    i := WriteVarint(dAtA, j.value, 1, 0, 0x08, m.fields.time.value, before, hi, LogBody(m));
    WrittenWithin(dAtA[..], before, lo, hi, EncodeLog(m));
    return Ok(hi - i);
  }

  /** One round of the loop over Logs: the message, its length, its tag. */
  method NestedLog(m: Log, num: FieldNum, tag: Byte, dAtA: array<Byte>, top: nat,
                  ghost lo: nat, ghost before: seq<Byte>, ghost hi: nat, ghost rest: seq<Byte>)
    returns (i: Result<nat>)
    requires tag == Tag(num, 2) && Written(dAtA[..], before, hi, rest)
    requires lo + |LenField(num, EncodeLog(m)) + rest| <= hi && top + |rest| == hi
    modifies dAtA
    ensures i.Ok? == CompleteLog(m) && (i.Err? ==> i.error == RequiredNotSet)
    ensures i.Ok? ==> i.value + |LenField(num, EncodeLog(m)) + rest| == hi
                      && Written(dAtA[..], before, hi, LenField(num, EncodeLog(m)) + rest)
    ensures Within(dAtA[..], before, lo, hi)
  {
    hide *;
    ghost var mid, e := dAtA[..], EncodeLog(m);
    LenFieldLonger(num, e);
    WrittenFits(mid, before, hi, rest);
    var size := MarshalLog(m, dAtA, top);
    if size.Err? {
      WithinAfter(dAtA[..], mid, before, lo, hi, rest, top - |e|);
      return Err(size.error);
    }
    var j := CloseNested(dAtA, top, num, tag, size.value, e, mid, before, hi, rest);
    WrittenWithin(dAtA[..], before, lo, hi, LenField(num, e) + rest);
    return Ok(j);
  }

  method MarshalLogs(num: FieldNum, tag: Byte, ms: seq<Log>, dAtA: array<Byte>, top: nat,
                    ghost before: seq<Byte>, ghost hi: nat, ghost rest: seq<Byte>)
    returns (i: Result<nat>)
    requires tag == Tag(num, 2)
    requires |Suffix(num, EncodeLog, ms, 0, rest)| <= hi && top + |rest| == hi && Written(dAtA[..], before, hi, rest)
    modifies dAtA
    ensures i.Ok? == forall m :: m in ms ==> CompleteLog(m)
    ensures i.Err? ==> i.error == RequiredNotSet
    ensures i.Ok? ==> i.value + |Suffix(num, EncodeLog, ms, 0, rest)| == hi
                      && Written(dAtA[..], before, hi, Suffix(num, EncodeLog, ms, 0, rest))
    ensures Within(dAtA[..], before, hi - |Suffix(num, EncodeLog, ms, 0, rest)|, hi)
  {
    ghost var lo := hi - |Suffix(num, EncodeLog, ms, 0, rest)|;
    SuffixEnds(num, EncodeLog, ms, rest);
    SuffixFits(num, EncodeLog, ms, |ms|, rest);
    WrittenWithin(dAtA[..], before, lo, hi, rest);
    hide *;
    i := Ok(top);
    var k := |ms|;
    while k > 0
      invariant 0 <= k <= |ms| && i.Ok? && i.value + |Suffix(num, EncodeLog, ms, k, rest)| == hi
      invariant Written(dAtA[..], before, hi, Suffix(num, EncodeLog, ms, k, rest))
      invariant Within(dAtA[..], before, lo, hi)
      invariant forall m :: m in ms[k..] ==> CompleteLog(m)
    {
      k := k - 1;
      SuffixStep(num, EncodeLog, ms, k, rest);
      SuffixFits(num, EncodeLog, ms, k, rest);
      assert ms[k..] == [ms[k]] + ms[k + 1..];
      i := NestedLog(ms[k], num, tag, dAtA, i.value, lo, before, hi, Suffix(num, EncodeLog, ms, k + 1, rest));
      if i.Err? {
        return;
      }
    }
    assert ms[0..] == ms;
  }

  // -------------------------------------------------------------------- LogGroup

  predicate CompleteGroup(m: LogGroup) {
    (forall l :: l in m.fields.logs ==> CompleteLog(l)) && (forall t :: t in m.fields.logTags ==> CompletePair(t))
  }

  ghost function GroupTail(m: LogGroup): seq<Byte> {
    Suffix(6, EncodePair, m.fields.logTags, 0, m.unrecognized)
  }

  ghost function GroupBody(m: LogGroup): seq<Byte> {
    GroupStrings(m.fields) + GroupTail(m)
  }

  lemma {:induction false} GroupShape(m: LogGroup)
    ensures EncodeGroup(m) == Suffix(1, EncodeLog, m.fields.logs, 0, GroupBody(m))
    ensures |m.unrecognized| <= |GroupTail(m)| <= |GroupBody(m)| <= |EncodeGroup(m)|
  {
    hide GroupStrings;
    SuffixEnds(6, EncodePair, m.fields.logTags, m.unrecognized);
    SuffixEnds(1, EncodeLog, m.fields.logs, GroupBody(m));
  }

  /** Unknown bytes, tags and strings. */
  method MarshalGroupBody(m: LogGroup, dAtA: array<Byte>, ghost before: seq<Byte>, hi: nat) returns (i: Result<nat>)
    requires |GroupBody(m)| <= hi <= dAtA.Length && before == dAtA[..]
    requires |m.unrecognized| <= |GroupTail(m)|
    modifies dAtA
    ensures i.Ok? == forall t :: t in m.fields.logTags ==> CompletePair(t)
    ensures i.Err? ==> i.error == RequiredNotSet
    ensures i.Ok? ==> i.value + |GroupBody(m)| == hi && Written(dAtA[..], before, hi, GroupBody(m))
    ensures Within(dAtA[..], before, hi - |GroupBody(m)|, hi)
  {
    ghost var lo := hi - |GroupBody(m)|;
    hide Written, Within, GroupStrings, CompletePair, Suffix;
    var j := WriteUnknown(dAtA, m.unrecognized, hi);
    i := MarshalPairs(6, 0x32, m.fields.logTags, dAtA, j, before, hi, m.unrecognized);
    WithinWider(dAtA[..], before, hi - |GroupTail(m)|, lo, hi);
    if i.Ok? {
      j := MarshalStrings(m.fields, dAtA, i.value, before, hi, GroupTail(m));
      WrittenWithin(dAtA[..], before, lo, hi, GroupBody(m));
      i := Ok(j);
    }
  }

  method MarshalGroup(m: LogGroup, dAtA: array<Byte>, hi: nat) returns (n: Result<nat>)
    requires |EncodeGroup(m)| <= hi <= dAtA.Length
    modifies dAtA
    ensures n == if CompleteGroup(m) then Ok(|EncodeGroup(m)|) else Err(RequiredNotSet)
    ensures n.Ok? ==> Written(dAtA[..], old(dAtA[..]), hi, EncodeGroup(m))
    ensures Within(dAtA[..], old(dAtA[..]), hi - |EncodeGroup(m)|, hi)
  {
    ghost var before, lo := dAtA[..], hi - |EncodeGroup(m)|;
    GroupShape(m);
    hide Written, Within, GroupBody, GroupTail, CompletePair, CompleteLog, EncodeGroup, Suffix;
    var j := MarshalGroupBody(m, dAtA, before, hi);
    WithinWider(dAtA[..], before, hi - |GroupBody(m)|, lo, hi);
    if j.Err? {
      return Err(j.error);
    }
    j := MarshalLogs(1, 0x0a, m.fields.logs, dAtA, j.value, before, hi, GroupBody(m));
    if j.Err? {
      return Err(j.error);
    }
    return Ok(hi - j.value);
  }

  /** MachineUUID, Source, Topic and Category, last one first. */
  method MarshalStrings(f: LogGroupFields, dAtA: array<Byte>, top: nat,
                        ghost before: seq<Byte>, ghost hi: nat, ghost rest: seq<Byte>)
    returns (i: nat)
    requires |GroupStrings(f) + rest| <= hi && top + |rest| == hi && Written(dAtA[..], before, hi, rest)
    modifies dAtA
    ensures i + |GroupStrings(f) + rest| == hi && Written(dAtA[..], before, hi, GroupStrings(f) + rest)
  {
    hide Written, OptField;
    ghost var r5 := OptField(5, f.machineUUID) + rest;
    ghost var r4 := OptField(4, f.source) + r5;
    ghost var r3 := OptField(3, f.topic) + r4;
    ghost var r2 := OptField(2, f.category) + r3;
    assert r2 == GroupStrings(f) + rest;
    i := WriteOpt(dAtA, top, 5, 0x2a, f.machineUUID, before, hi, rest);
    i := WriteOpt(dAtA, i, 4, 0x22, f.source, before, hi, r5);
    i := WriteOpt(dAtA, i, 3, 0x1a, f.topic, before, hi, r4);
    i := WriteOpt(dAtA, i, 2, 0x12, f.category, before, hi, r3);
  }

  /** One round of the loop over LogGroups: the message, its length, its tag. */
  method NestedGroup(m: LogGroup, num: FieldNum, tag: Byte, dAtA: array<Byte>, top: nat,
                  ghost lo: nat, ghost before: seq<Byte>, ghost hi: nat, ghost rest: seq<Byte>)
    returns (i: Result<nat>)
    requires tag == Tag(num, 2) && Written(dAtA[..], before, hi, rest)
    requires lo + |LenField(num, EncodeGroup(m)) + rest| <= hi && top + |rest| == hi
    modifies dAtA
    ensures i.Ok? == CompleteGroup(m) && (i.Err? ==> i.error == RequiredNotSet)
    ensures i.Ok? ==> i.value + |LenField(num, EncodeGroup(m)) + rest| == hi
                      && Written(dAtA[..], before, hi, LenField(num, EncodeGroup(m)) + rest)
    ensures Within(dAtA[..], before, lo, hi)
  {
    hide *;
    ghost var mid, e := dAtA[..], EncodeGroup(m);
    LenFieldLonger(num, e);
    WrittenFits(mid, before, hi, rest);
    var size := MarshalGroup(m, dAtA, top);
    if size.Err? {
      WithinAfter(dAtA[..], mid, before, lo, hi, rest, top - |e|);
      return Err(size.error);
    }
    var j := CloseNested(dAtA, top, num, tag, size.value, e, mid, before, hi, rest);
    WrittenWithin(dAtA[..], before, lo, hi, LenField(num, e) + rest);
    return Ok(j);
  }

  method MarshalEachGroup(num: FieldNum, tag: Byte, ms: seq<LogGroup>, dAtA: array<Byte>, top: nat,
                    ghost before: seq<Byte>, ghost hi: nat, ghost rest: seq<Byte>)
    returns (i: Result<nat>)
    requires tag == Tag(num, 2)
    requires |Suffix(num, EncodeGroup, ms, 0, rest)| <= hi && top + |rest| == hi && Written(dAtA[..], before, hi, rest)
    modifies dAtA
    ensures i.Ok? == forall m :: m in ms ==> CompleteGroup(m)
    ensures i.Err? ==> i.error == RequiredNotSet
    ensures i.Ok? ==> i.value + |Suffix(num, EncodeGroup, ms, 0, rest)| == hi
                      && Written(dAtA[..], before, hi, Suffix(num, EncodeGroup, ms, 0, rest))
    ensures Within(dAtA[..], before, hi - |Suffix(num, EncodeGroup, ms, 0, rest)|, hi)
  {
    ghost var lo := hi - |Suffix(num, EncodeGroup, ms, 0, rest)|;
    SuffixEnds(num, EncodeGroup, ms, rest);
    SuffixFits(num, EncodeGroup, ms, |ms|, rest);
    WrittenWithin(dAtA[..], before, lo, hi, rest);
    hide *;
    i := Ok(top);
    var k := |ms|;
    while k > 0
      invariant 0 <= k <= |ms| && i.Ok? && i.value + |Suffix(num, EncodeGroup, ms, k, rest)| == hi
      invariant Written(dAtA[..], before, hi, Suffix(num, EncodeGroup, ms, k, rest))
      invariant Within(dAtA[..], before, lo, hi)
      invariant forall m :: m in ms[k..] ==> CompleteGroup(m)
    {
      k := k - 1;
      SuffixStep(num, EncodeGroup, ms, k, rest);
      SuffixFits(num, EncodeGroup, ms, k, rest);
      assert ms[k..] == [ms[k]] + ms[k + 1..];
      i := NestedGroup(ms[k], num, tag, dAtA, i.value, lo, before, hi, Suffix(num, EncodeGroup, ms, k + 1, rest));
      if i.Err? {
        return;
      }
    }
    assert ms[0..] == ms;
  }

  // ---------------------------------------------------------------- LogGroupList

  predicate CompleteGroups(m: LogGroupList) {
    forall g :: g in m.fields.logGroups ==> CompleteGroup(g)
  }

  lemma {:induction false} GroupsShape(m: LogGroupList)
    ensures EncodeGroups(m) == Suffix(1, EncodeGroup, m.fields.logGroups, 0, m.unrecognized)
    ensures |m.unrecognized| <= |EncodeGroups(m)|
  {
    SuffixEnds(1, EncodeGroup, m.fields.logGroups, m.unrecognized);
  }

  method MarshalGroups(m: LogGroupList, dAtA: array<Byte>, hi: nat) returns (n: Result<nat>)
    requires |EncodeGroups(m)| <= hi <= dAtA.Length
    modifies dAtA
    ensures n == if CompleteGroups(m) then Ok(|EncodeGroups(m)|) else Err(RequiredNotSet)
    ensures n.Ok? ==> Written(dAtA[..], old(dAtA[..]), hi, EncodeGroups(m))
    ensures Within(dAtA[..], old(dAtA[..]), hi - |EncodeGroups(m)|, hi)
  {
    ghost var before := dAtA[..];
    GroupsShape(m);
    assert CompleteGroups(m) == forall x :: x in m.fields.logGroups ==> CompleteGroup(x);
    hide *;
    var i := WriteUnknown(dAtA, m.unrecognized, hi);
    var j := MarshalEachGroup(1, 0x0a, m.fields.logGroups, dAtA, i, before, hi, m.unrecognized);
    if j.Err? {
      return Err(j.error);
    }
    return Ok(hi - j.value);
  }

  // ------------------------------------------- SlsLogPackage and SlsLogPackageList

  predicate CompletePackage(m: SlsLogPackage) {
    m.fields.data.Some?
  }

  method MarshalPackage(m: SlsLogPackage, dAtA: array<Byte>, hi: nat) returns (n: Result<nat>)
    requires |EncodePackage(m)| <= hi <= dAtA.Length
    modifies dAtA
    ensures n == if CompletePackage(m) then Ok(|EncodePackage(m)|) else Err(RequiredNotSet)
    ensures n.Ok? ==> Written(dAtA[..], old(dAtA[..]), hi, EncodePackage(m))
    ensures Within(dAtA[..], old(dAtA[..]), hi - |EncodePackage(m)|, hi)
  {
    ghost var before, lo := dAtA[..], hi - |EncodePackage(m)|;
    ghost var tail := SizeField(m.fields.uncompressSize) + m.unrecognized;
    hide Written, Within, LenField, VarintBytes;
    var i := WriteUnknown(dAtA, m.unrecognized, hi);
    if m.fields.uncompressSize.Some? {
      i := WriteVarint(dAtA, i, 2, 0, 0x10, SignExtend(m.fields.uncompressSize.value), before, hi, m.unrecognized);
    } else {
      assert tail == m.unrecognized;
    }
    WrittenWithin(dAtA[..], before, lo, hi, tail);
    if m.fields.data == None {
      return Err(RequiredNotSet);
    }
    i := WriteLen(dAtA, i, 1, 0x0a, m.fields.data.value, before, hi, tail);
    WrittenWithin(dAtA[..], before, lo, hi, EncodePackage(m));
    return Ok(hi - i);
  }

  /** One round of the loop over SlsLogPackages: the message, its length, its tag. */
  method NestedPackage(m: SlsLogPackage, num: FieldNum, tag: Byte, dAtA: array<Byte>, top: nat,
                  ghost lo: nat, ghost before: seq<Byte>, ghost hi: nat, ghost rest: seq<Byte>)
    returns (i: Result<nat>)
    requires tag == Tag(num, 2) && Written(dAtA[..], before, hi, rest)
    requires lo + |LenField(num, EncodePackage(m)) + rest| <= hi && top + |rest| == hi
    modifies dAtA
    ensures i.Ok? == CompletePackage(m) && (i.Err? ==> i.error == RequiredNotSet)
    ensures i.Ok? ==> i.value + |LenField(num, EncodePackage(m)) + rest| == hi
                      && Written(dAtA[..], before, hi, LenField(num, EncodePackage(m)) + rest)
    ensures Within(dAtA[..], before, lo, hi)
  {
    hide *;
    ghost var mid, e := dAtA[..], EncodePackage(m);
    LenFieldLonger(num, e);
    WrittenFits(mid, before, hi, rest);
    var size := MarshalPackage(m, dAtA, top);
    if size.Err? {
      WithinAfter(dAtA[..], mid, before, lo, hi, rest, top - |e|);
      return Err(size.error);
    }
    var j := CloseNested(dAtA, top, num, tag, size.value, e, mid, before, hi, rest);
    WrittenWithin(dAtA[..], before, lo, hi, LenField(num, e) + rest);
    return Ok(j);
  }

  method MarshalEachPackage(num: FieldNum, tag: Byte, ms: seq<SlsLogPackage>, dAtA: array<Byte>, top: nat,
                    ghost before: seq<Byte>, ghost hi: nat, ghost rest: seq<Byte>)
    returns (i: Result<nat>)
    requires tag == Tag(num, 2)
    requires |Suffix(num, EncodePackage, ms, 0, rest)| <= hi && top + |rest| == hi
         && Written(dAtA[..], before, hi, rest)
    modifies dAtA
    ensures i.Ok? == forall m :: m in ms ==> CompletePackage(m)
    ensures i.Err? ==> i.error == RequiredNotSet
    ensures i.Ok? ==> i.value + |Suffix(num, EncodePackage, ms, 0, rest)| == hi
                      && Written(dAtA[..], before, hi, Suffix(num, EncodePackage, ms, 0, rest))
    ensures Within(dAtA[..], before, hi - |Suffix(num, EncodePackage, ms, 0, rest)|, hi)
  {
    ghost var lo := hi - |Suffix(num, EncodePackage, ms, 0, rest)|;
    SuffixEnds(num, EncodePackage, ms, rest);
    SuffixFits(num, EncodePackage, ms, |ms|, rest);
    WrittenWithin(dAtA[..], before, lo, hi, rest);
    hide *;
    i := Ok(top);
    var k := |ms|;
    while k > 0
      invariant 0 <= k <= |ms| && i.Ok? && i.value + |Suffix(num, EncodePackage, ms, k, rest)| == hi
      invariant Written(dAtA[..], before, hi, Suffix(num, EncodePackage, ms, k, rest))
      invariant Within(dAtA[..], before, lo, hi)
      invariant forall m :: m in ms[k..] ==> CompletePackage(m)
    {
      k := k - 1;
      SuffixStep(num, EncodePackage, ms, k, rest);
      SuffixFits(num, EncodePackage, ms, k, rest);
      assert ms[k..] == [ms[k]] + ms[k + 1..];
      i := NestedPackage(ms[k], num, tag, dAtA, i.value, lo, before, hi, Suffix(num, EncodePackage, ms, k + 1, rest));
      if i.Err? {
        return;
      }
    }
    assert ms[0..] == ms;
  }

  predicate CompletePackages(m: SlsLogPackageList) {
    forall p :: p in m.fields.packages ==> CompletePackage(p)
  }

  lemma {:induction false} PackagesShape(m: SlsLogPackageList)
    ensures EncodePackages(m) == Suffix(1, EncodePackage, m.fields.packages, 0, m.unrecognized)
    ensures |m.unrecognized| <= |EncodePackages(m)|
  {
    SuffixEnds(1, EncodePackage, m.fields.packages, m.unrecognized);
  }

  method MarshalPackages(m: SlsLogPackageList, dAtA: array<Byte>, hi: nat) returns (n: Result<nat>)
    requires |EncodePackages(m)| <= hi <= dAtA.Length
    modifies dAtA
    ensures n == if CompletePackages(m) then Ok(|EncodePackages(m)|) else Err(RequiredNotSet)
    ensures n.Ok? ==> Written(dAtA[..], old(dAtA[..]), hi, EncodePackages(m))
    ensures Within(dAtA[..], old(dAtA[..]), hi - |EncodePackages(m)|, hi)
  {
    ghost var before := dAtA[..];
    PackagesShape(m);
    assert CompletePackages(m) == forall x :: x in m.fields.packages ==> CompletePackage(x);
    hide *;
    var i := WriteUnknown(dAtA, m.unrecognized, hi);
    var j := MarshalEachPackage(1, 0x0a, m.fields.packages, dAtA, i, before, hi, m.unrecognized);
    if j.Err? {
      return Err(j.error);
    }
    return Ok(hi - j.value);
  }
}
