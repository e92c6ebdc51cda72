/**
 * The loop every generated Unmarshal shares, as a function of the message's schema:
 * read a tag, take a known field's payload or keep an unknown field's bytes.
 */
module Schema {
  import opened Wire

  /** A message: its declared fields and the bytes of all undeclared ones, in order of arrival. */
  datatype Message<+F> = Message(fields: F, unrecognized: seq<Byte>)

  datatype Payload =
    | VarintP(v: nat)
    | BytesP(b: Bytes)
    | Fixed32P(w: nat)

  /**
   * wire: the wire type a declared field number must carry. put: store one payload in a field.
   * required: field numbers that must occur.
   */
  datatype Schema<!F> = Schema(
    wire: int -> Option<nat>,
    put: (F, int, Payload) -> Result<F>,
    required: set<int>)

  datatype Took = Took(p: Payload, next: nat)

  function LittleEndian32(b: seq<Byte>): (r: nat)
    requires |b| == 4
    ensures r < U32
  {
    var b0: int, b1: int, b2: int, b3: int := b[0], b[1], b[2], b[3];
    b0 + 0x100 * b1 + 0x1_0000 * b2 + 0x100_0000 * b3
  }

  /** The length prefix and bounds checks before a string, bytes or message field. */
  function TakeBytes(s: Bytes, j: nat): (r: Result<Took>)
    requires j <= |s|
    ensures r.Ok? ==> r.value.p.BytesP? && j + |r.value.p.b| < r.value.next <= |s|
  {
    var len :- ReadVarint(s, j);
    var n := ToInt64(len.v);
    if n < 0 then Err(InvalidLength)
    else
      var post := ToInt64(len.next + n);
      if post < 0 then Err(InvalidLength)
      else if post > |s| then Err(UnexpectedEOF)
      else Ok(Took(BytesP(s[len.next..post]), post))
  }

  function TakePayload(s: Bytes, j: nat, wireType: nat): (r: Result<Took>)
    requires j <= |s|
    ensures r.Ok? ==> j <= r.value.next <= |s|
  {
    match wireType
    case 0 => var v :- ReadVarint(s, j); Ok(Took(VarintP(v.v), v.next))
    case 2 => TakeBytes(s, j)
    case 5 => if j + 4 > |s| then Err(UnexpectedEOF)
              else Ok(Took(Fixed32P(LittleEndian32(s[j..j + 4])), j + 4))
    case _ => Err(WrongWireType)
  }

  /** The default case: the whole field, tag included, is appended to XXX_unrecognized. */
  function TakeUnknown(s: Bytes, i: nat): (r: Result<nat>)
    requires i < |s|
    ensures r.Ok? ==> i < r.value <= |s|
  {
    var n :- SkipField(s[i..]);
    if ToInt64(i + n) < 0 then Err(InvalidLength)
    else if i + n > |s| then Err(UnexpectedEOF)
    else Ok(i + n)
  }

  datatype State<+F> = State(m: Message<F>, has: set<int>, next: nat)

  /** One round of the Unmarshal loop. */
  function Step<F>(sc: Schema<F>, s: Bytes, i: nat, m: Message<F>, has: set<int>): (r: Result<State<F>>)
    requires i < |s|
    ensures r.Ok? ==> i < r.value.next <= |s|
  {
    var tag :- ReadVarint(s, i);
    var num, wireType := ToInt32(tag.v / 8), tag.v % 8;
    if wireType == 4 then Err(EndGroup)
    else if num <= 0 then Err(IllegalTag)
    else match sc.wire(num)
      case None =>
        var next :- TakeUnknown(s, i);
        Ok(State(m.(unrecognized := m.unrecognized + s[i..next]), has, next))
      case Some(expected) =>
        if wireType != expected then Err(WrongWireType)
        else
          var took :- TakePayload(s, tag.next, wireType);
          var fields :- sc.put(m.fields, num, took.p);
          Ok(State(m.(fields := fields), has + {num} * sc.required, took.next))
  }

  /** Unmarshal from index i on, the message so far being m and the required fields seen being has. */
  function Parse<F>(sc: Schema<F>, s: Bytes, i: nat, m: Message<F>, has: set<int>): (r: Result<Message<F>>)
    requires i <= |s|
    decreases |s| - i
  {
    if i == |s| then
      if sc.required <= has then Ok(m) else Err(RequiredNotSet)
    else
      var st :- Step(sc, s, i, m, has);
      Parse(sc, s, st.next, st.m, st.has)
  }

  lemma {:induction false} ParseStep<F>(sc: Schema<F>, s: Bytes, i: nat, m: Message<F>, has: set<int>, st: State<F>)
    requires i < |s| && Step(sc, s, i, m, has) == Ok(st)
    ensures Parse(sc, s, i, m, has) == Parse(sc, s, st.next, st.m, st.has)
  {
  }

  // ---------------------------------------------------- writing, as a function

  /** Field numbers whose tag takes one byte; all declared ones do. */
  type FieldNum = n: int | 1 <= n <= 15 witness 1

  function Tag(num: FieldNum, wireType: Byte): Byte
    requires wireType < 8
  {
    8 * num + wireType
  }

  /** A length-delimited field. */
  function LenField(num: FieldNum, b: seq<Byte>): seq<Byte> {
    [Tag(num, 2)] + VarintBytes(|b|) + b
  }

  function OptField(num: FieldNum, b: Option<seq<Byte>>): seq<Byte> {
    match b
    case None => []
    case Some(x) => LenField(num, x)
  }

  function VarintField(num: FieldNum, v: nat): seq<Byte> {
    [Tag(num, 0)] + VarintBytes(v)
  }

  /** A repeated message field. */
  function Repeated(num: FieldNum, xs: seq<seq<Byte>>): seq<Byte> {
    if xs == [] then [] else LenField(num, xs[0]) + Repeated(num, xs[1..])
  }

  /** The encodings of a list of nested messages. */
  function EncodeEach<F>(enc: Message<F> -> seq<Byte>, ms: seq<Message<F>>): (r: seq<seq<Byte>>)
    ensures |r| == |ms|
  {
    if ms == [] then [] else [enc(ms[0])] + EncodeEach(enc, ms[1..])
  }

  lemma {:induction false} EachAppend<F>(enc: Message<F> -> seq<Byte>, ms: seq<Message<F>>, m: Message<F>)
    ensures EncodeEach(enc, ms + [m]) == EncodeEach(enc, ms) + [enc(m)]
  {
    if ms != [] {
      EachAppend(enc, ms[1..], m);
      assert (ms + [m])[1..] == ms[1..] + [m];
    }
  }

  lemma {:induction false} RepeatedAppend(num: FieldNum, xs: seq<seq<Byte>>, x: seq<Byte>)
    ensures Repeated(num, xs + [x]) == Repeated(num, xs) + LenField(num, x)
  {
    if xs == [] {
      assert xs + [x] == [x];
    } else {
      RepeatedAppend(num, xs[1..], x);
      assert (xs + [x])[1..] == xs[1..] + [x];
    }
  }

  // ------------------------------------------------------- what a tag leads to

  lemma {:induction false} ReadTag(s: Bytes, i: nat, tag: Byte)
    requires i < |s| && s[i] == tag < 128
    ensures ReadVarint(s, i) == Ok(Read(tag, i + 1))
  {
    assert VarintBytes(tag) == [tag];
    VarintRoundTrip(s, i, tag);
  }

  /** A declared field with its own wire type is stored. */
  lemma {:induction false} StepKnown<F>(
    sc: Schema<F>, s: Bytes, i: nat, m: Message<F>, has: set<int>, num: FieldNum, wireType: Byte, took: Took)
    requires wireType < 8 && wireType != 4 && sc.wire(num) == Some(wireType)
    requires i < |s| && s[i] == Tag(num, wireType)
    requires TakePayload(s, i + 1, wireType) == Ok(took)
    ensures Step(sc, s, i, m, has)
         == match sc.put(m.fields, num, took.p)
            case Ok(f) => Ok(State(m.(fields := f), has + {num} * sc.required, took.next))
            case Err(e) => Err(e)
  {
    hide ReadVarint, TakePayload, TakeUnknown;
    ReadTag(s, i, Tag(num, wireType));
    assert ToInt32(Tag(num, wireType) / 8) == num;
  }

  lemma {:induction false} TakeLenField(s: Bytes, i: nat, num: FieldNum, b: Bytes)
    requires At(s, i, LenField(num, b))
    ensures i < |s| && s[i] == Tag(num, 2)
    ensures TakePayload(s, i + 1, 2) == Ok(Took(BytesP(b), i + |LenField(num, b)|))
  {
    hide ReadVarint;
    var e := VarintBytes(|b|);
    var tag: seq<Byte> := [Tag(num, 2)];
    assert LenField(num, b) == tag + (e + b);
    AtConcat(s, i, tag, e + b);
    AtConcat(s, i + 1, e, b);
    assert s[i] == s[i..i + 1][0];
    VarintRoundTrip(s, i + 1, |b|);
  }

  /** A length-delimited field in front of the rest is parsed to what put makes of it. */
  lemma {:induction false} ParseLenField<F>(
    sc: Schema<F>, s: Bytes, i: nat, m: Message<F>, has: set<int>, num: FieldNum, b: Bytes, f: F)
    requires sc.wire(num) == Some(2) && sc.put(m.fields, num, BytesP(b)) == Ok(f)
    requires At(s, i, LenField(num, b))
    ensures i + |LenField(num, b)| <= |s|
    ensures Parse(sc, s, i, m, has)
         == Parse(sc, s, i + |LenField(num, b)|, m.(fields := f), has + {num} * sc.required)
  {
    TakeLenField(s, i, num, b);
    var n := i + |LenField(num, b)|;
    hide Step, TakePayload, LenField, Parse;
    StepKnown(sc, s, i, m, has, num, 2, Took(BytesP(b), n));
    ParseStep(sc, s, i, m, has, State(m.(fields := f), has + {num} * sc.required, n));
  }

  lemma {:induction false} ParseVarintField<F>(
    sc: Schema<F>, s: Bytes, i: nat, m: Message<F>, has: set<int>, num: FieldNum, v: nat, f: F)
    requires sc.wire(num) == Some(0) && v < U64 && sc.put(m.fields, num, VarintP(v)) == Ok(f)
    requires At(s, i, VarintField(num, v))
    ensures i + |VarintField(num, v)| <= |s|
    ensures Parse(sc, s, i, m, has)
         == Parse(sc, s, i + |VarintField(num, v)|, m.(fields := f), has + {num} * sc.required)
  {
    var n := i + |VarintField(num, v)|;
    AtConcat(s, i, [Tag(num, 0)], VarintBytes(v));
    assert s[i] == s[i..i + 1][0];
    VarintRoundTrip(s, i + 1, v);
    hide Step, ReadVarint, Parse;
    StepKnown(sc, s, i, m, has, num, 0, Took(VarintP(v), n));
    ParseStep(sc, s, i, m, has, State(m.(fields := f), has + {num} * sc.required, n));
  }

  lemma {:induction false} ParseFixed32Field<F>(
    sc: Schema<F>, s: Bytes, i: nat, m: Message<F>, has: set<int>, num: FieldNum, b: seq<Byte>, f: F)
    requires sc.wire(num) == Some(5) && |b| == 4 && sc.put(m.fields, num, Fixed32P(LittleEndian32(b))) == Ok(f)
    requires At(s, i, [Tag(num, 5)] + b)
    ensures i + 5 <= |s|
    ensures Parse(sc, s, i, m, has) == Parse(sc, s, i + 5, m.(fields := f), has + {num} * sc.required)
  {
    AtConcat(s, i, [Tag(num, 5)], b);
    assert s[i] == s[i..i + 1][0];
    hide Step, LittleEndian32, Parse;
    StepKnown(sc, s, i, m, has, num, 5, Took(Fixed32P(LittleEndian32(b)), i + 5));
    ParseStep(sc, s, i, m, has, State(m.(fields := f), has + {num} * sc.required, i + 5));
  }

  /** Storing a run of message fields one after the other. */
  function PutAll<F>(sc: Schema<F>, num: int, xs: seq<seq<Byte>>, f: F): Result<F>
    decreases |xs|
  {
    if xs == [] then Ok(f)
    else if |xs[0]| > MAX_LEN then Err(InvalidLength)
    else
      var g :- sc.put(f, num, BytesP(xs[0]));
      PutAll(sc, num, xs[1..], g)
  }

  lemma {:induction false} ParseElement<F>(
    sc: Schema<F>, s: Bytes, i: nat, m: Message<F>, has: set<int>, num: FieldNum, xs: seq<seq<Byte>>, g: F, n: nat)
    requires sc.wire(num) == Some(2) && num !in sc.required
    requires xs != [] && |xs[0]| <= MAX_LEN && sc.put(m.fields, num, BytesP(xs[0])) == Ok(g)
    requires At(s, i, Repeated(num, xs)) && n == i + |LenField(num, xs[0])|
    ensures At(s, n, Repeated(num, xs[1..]))
    ensures Parse(sc, s, i, m, has) == Parse(sc, s, n, m.(fields := g), has)
  {
    hide Parse, LenField;
    AtConcat(s, i, LenField(num, xs[0]), Repeated(num, xs[1..]));
    ParseLenField(sc, s, i, m, has, num, xs[0], g);
    assert has + {num} * sc.required == has;
  }

  /** A run of one repeated field is parsed element by element. */
  lemma {:induction false} ParseRepeated<F>(
    sc: Schema<F>, s: Bytes, i: nat, m: Message<F>, has: set<int>, num: FieldNum, xs: seq<seq<Byte>>, f: F)
    requires sc.wire(num) == Some(2) && num !in sc.required && PutAll(sc, num, xs, m.fields) == Ok(f)
    requires At(s, i, Repeated(num, xs))
    ensures Parse(sc, s, i, m, has) == Parse(sc, s, i + |Repeated(num, xs)|, m.(fields := f), has)
    decreases |xs|
  {
    hide Parse, LenField;
    if xs != [] {
      var g := sc.put(m.fields, num, BytesP(xs[0])).value;
      var n := i + |LenField(num, xs[0])|;
      ParseElement(sc, s, i, m, has, num, xs, g, n);
      ParseRepeated(sc, s, n, m.(fields := g), has, num, xs[1..], f);
    }
  }

  // ------------------------------------------------------------ unknown fields

  /** u is a run of whole fields, none of them declared: what XXX_unrecognized may hold. */
  predicate UnknownRun<F>(sc: Schema<F>, u: seq<Byte>)
    decreases |u|
  {
    |u| <= MAX_LEN && (u == [] || (UnknownHead(sc, u) && UnknownRun(sc, u[SkipField(u).value..])))
  }

  /** u starts with a whole undeclared field. */
  predicate UnknownHead<F>(sc: Schema<F>, u: Bytes) {
    && u != []
    && ReadVarint(u, 0).Ok?
    && ReadVarint(u, 0).value.v % 8 != 4
    && ToInt32(ReadVarint(u, 0).value.v / 8) > 0
    && sc.wire(ToInt32(ReadVarint(u, 0).value.v / 8)) == None
    && SkipField(u).Ok? && SkipField(u).value <= |u|
  }

  /** skipLog reads the same tag again, so it goes at least as far. */
  lemma {:induction false} SkipPastTag(u: Bytes)
    requires SkipField(u).Ok?
    ensures ReadVarint(u, 0).Ok? && ReadVarint(u, 0).value.next <= SkipField(u).value
  {
    hide ReadVarint, SkipPayload;
  }

  /** A skipped field can be cut out and put anywhere. */
  lemma {:induction false} UnknownHeadMoves<F>(sc: Schema<F>, s: Bytes, i: nat, t: Bytes, j: nat)
    requires i <= |s| && UnknownHead(sc, s[i..]) && j <= |t|
    requires At(t, j, s[i..i + SkipField(s[i..]).value])
    ensures j < |t| && UnknownHead(sc, t[j..]) && SkipField(t[j..]) == SkipField(s[i..])
    ensures ReadVarint(t[j..], 0) == ReadVarint(s[i..], 0)
  {
    hide ReadVarint, SkipFrom;
    var a, b := s[i..], t[j..];
    var n := SkipField(a).value;
    assert t[j..j + n] == b[0..n] && s[i..i + n] == a[0..n];
    SkipLocal(a, 0, b, 0, 0, n);
    SkipPastTag(a);
    var tag := ReadVarint(a, 0).value;
    AtSplit(a, 0, tag.next, n, b, 0);
    ReadVarintLocal(a, 0, b, 0, tag);
  }

  lemma {:induction false} ReadVarintSuffix(s: Bytes, i: nat)
    requires i <= |s|
    requires ReadVarint(s[i..], 0).Ok?
    ensures ReadVarint(s, i) == Ok(Read(ReadVarint(s[i..], 0).value.v, i + ReadVarint(s[i..], 0).value.next))
  {
    var r := ReadVarint(s[i..], 0).value;
    assert s[i..][0..r.next] == s[i..i + r.next];
    ReadVarintLocal(s[i..], 0, s, i, r);
  }

  lemma {:induction false} SuffixReadVarint(s: Bytes, i: nat)
    requires i <= |s|
    requires ReadVarint(s, i).Ok?
    ensures ReadVarint(s[i..], 0) == Ok(Read(ReadVarint(s, i).value.v, ReadVarint(s, i).value.next - i))
  {
    var r := ReadVarint(s, i).value;
    assert s[i..][0..r.next - i] == s[i..r.next];
    ReadVarintLocal(s, i, s[i..], 0, r);
  }

  lemma {:induction false} StepUnknown<F>(sc: Schema<F>, s: Bytes, i: nat, m: Message<F>, has: set<int>)
    requires i < |s| && UnknownHead(sc, s[i..])
    ensures var n := i + SkipField(s[i..]).value;
            Step(sc, s, i, m, has) == Ok(State(m.(unrecognized := m.unrecognized + s[i..n]), has, n))
  {
    hide ReadVarint, SkipField, TakePayload;
    ReadVarintSuffix(s, i);
  }

  lemma {:induction false} ParseUnknownHead<F>(
    sc: Schema<F>, s: Bytes, i: nat, m: Message<F>, has: set<int>, u: Bytes, n: nat)
    requires UnknownHead(sc, u) && SkipField(u) == Ok(n) && At(s, i, u[..n])
    ensures Parse(sc, s, i, m, has) == Parse(sc, s, i + n, m.(unrecognized := m.unrecognized + u[..n]), has)
  {
    assert n <= |u|;
    hide UnknownHead, Step, Parse, SkipField;
    assert u[0..] == u && u[0..n] == u[..n];
    UnknownHeadMoves(sc, u, 0, s, i);
    StepUnknown(sc, s, i, m, has);
    ParseStep(sc, s, i, m, has, State(m.(unrecognized := m.unrecognized + u[..n]), has, i + n));
  }

  /** Unknown fields are collected in order, wherever the run of them stands. */
  lemma {:induction false} ParseUnknownRun<F>(
    sc: Schema<F>, s: Bytes, i: nat, m: Message<F>, has: set<int>, u: seq<Byte>)
    requires UnknownRun(sc, u) && At(s, i, u)
    ensures Parse(sc, s, i, m, has) == Parse(sc, s, i + |u|, m.(unrecognized := m.unrecognized + u), has)
    decreases |u|
  {
    hide Parse, SkipField;
    if u == [] {
      assert m.unrecognized + u == m.unrecognized;
    } else {
      var n := SkipField(u).value;
      assert u == u[..n] + u[n..];
      AtConcat(s, i, u[..n], u[n..]);
      ParseUnknownHead(sc, s, i, m, has, u, n);
      ParseUnknownRun(sc, s, i + n, m.(unrecognized := m.unrecognized + u[..n]), has, u[n..]);
      assert m.unrecognized + u[..n] + u[n..] == m.unrecognized + u;
    }
  }

  // ------------------------------------------------- what acceptance guarantees

  /** Bytes the canonical writer spends on a payload. */
  function PayloadSize(p: Payload): nat {
    match p
    case VarintP(v) => |VarintBytes(v)|
    case BytesP(b) => |VarintBytes(|b|)| + |b|
    case Fixed32P(_) => 4
  }

  predicate Fits(p: Payload, wireType: nat) {
    match p
    case VarintP(v) => wireType == 0 && v < U64
    case BytesP(_) => wireType == 2
    case Fixed32P(w) => wireType == 5 && w < U32
  }

  lemma {:induction false} TakenFits(s: Bytes, j: nat, wireType: nat, took: Took)
    requires j <= |s| && TakePayload(s, j, wireType) == Ok(took)
    ensures Fits(took.p, wireType) && PayloadSize(took.p) <= took.next - j
  {
    hide ReadVarint, LittleEndian32;
    if wireType == 0 || wireType == 2 {
      CanonicalIsShortest(s, j, ReadVarint(s, j).value);
    }
  }

  /** Storing a payload keeps inv, and grows the fields' canonical size by no more than the payload's. */
  ghost predicate Keeps<F(!new)>(sc: Schema<F>, inv: (F, set<int>) -> bool, size: F -> nat) {
    forall f, has, num, p ::
      inv(f, has) && sc.wire(num).Some? && Fits(p, sc.wire(num).value) && sc.put(f, num, p).Ok? ==>
        && inv(sc.put(f, num, p).value, has + {num} * sc.required)
        && size(sc.put(f, num, p).value) <= size(f) + 1 + PayloadSize(p)
  }

  lemma {:induction false} UnknownHeadExtends<F>(sc: Schema<F>, u: Bytes, v: Bytes)
    requires UnknownHead(sc, u) && |u| + |v| <= MAX_LEN
    ensures UnknownHead(sc, u + v) && SkipField(u + v) == SkipField(u)
  {
    hide SkipField, ReadVarint;
    var w: Bytes, n := u + v, SkipField(u).value;
    assert u[0..] == u && w[0..] == w && w[0..n] == u[0..n];
    UnknownHeadMoves(sc, u, 0, w, 0);
  }

  lemma {:induction false} UnknownRunCons<F>(sc: Schema<F>, u: Bytes, rest: seq<Byte>)
    requires UnknownHead(sc, u) && rest == u[SkipField(u).value..] && UnknownRun(sc, rest)
    ensures UnknownRun(sc, u)
  {
  }

  lemma {:induction false} UnknownRunAppend<F>(sc: Schema<F>, u: seq<Byte>, v: Bytes)
    requires UnknownRun(sc, u) && UnknownHead(sc, v) && SkipField(v).value == |v| && |u| + |v| <= MAX_LEN
    ensures UnknownRun(sc, u + v)
    decreases |u|
  {
    hide SkipField, ReadVarint;
    if u == [] {
      assert u + v == v;
      assert v[|v|..] == [];
    } else {
      var n := SkipField(u).value;
      var rest := u[n..];
      assert UnknownRun(sc, rest);
      hide UnknownRun;
      UnknownRunAppend(sc, rest, v);
      UnknownHeadExtends(sc, u, v);
      assert (u + v)[n..] == rest + v;
      UnknownRunCons(sc, u + v, rest + v);
    }
  }

  /** The chunk one unknown field leaves behind is a whole unknown field. */
  lemma {:induction false} TakenUnknown<F>(sc: Schema<F>, s: Bytes, i: nat, tag: Read, next: nat)
    requires i < |s| && ReadVarint(s, i) == Ok(tag) && TakeUnknown(s, i) == Ok(next)
    requires tag.v % 8 != 4 && ToInt32(tag.v / 8) > 0 && sc.wire(ToInt32(tag.v / 8)) == None
    ensures UnknownHead(sc, s[i..next]) && SkipField(s[i..next]) == Ok(next - i)
  {
    hide ReadVarint, SkipField;
    SuffixReadVarint(s, i);
    var chunk := s[i..next];
    assert UnknownHead(sc, s[i..]);
    assert chunk[0..next - i] == s[i..next] && chunk[0..] == chunk;
    UnknownHeadMoves(sc, s, i, chunk, 0);
  }

  lemma {:induction false} StepKeeps<F(!new)>(
    sc: Schema<F>, s: Bytes, i: nat, m: Message<F>, has: set<int>, st: State<F>,
    inv: (F, set<int>) -> bool, size: F -> nat)
    requires i < |s| && Step(sc, s, i, m, has) == Ok(st)
    requires Keeps(sc, inv, size) && inv(m.fields, has) && UnknownRun(sc, m.unrecognized)
    requires |m.unrecognized| <= i
    ensures inv(st.m.fields, st.has) && UnknownRun(sc, st.m.unrecognized)
    ensures |st.m.unrecognized| <= st.next
    ensures size(st.m.fields) + |st.m.unrecognized| <= size(m.fields) + |m.unrecognized| + st.next - i
  {
    hide ReadVarint, TakePayload, TakeUnknown, UnknownRun, UnknownHead, Fits, PayloadSize, SkipField;
    var tag := ReadVarint(s, i).value;
    var num, wireType := ToInt32(tag.v / 8), tag.v % 8;
    if sc.wire(num) == None {
      TakenUnknown(sc, s, i, tag, st.next);
      UnknownRunAppend(sc, m.unrecognized, s[i..st.next]);
    } else {
      TakenFits(s, tag.next, wireType, TakePayload(s, tag.next, wireType).value);
    }
  }

  /** What holds of every message Unmarshal returns; h are the required fields it saw. */
  lemma {:induction false} ParseKeeps<F(!new)>(
    sc: Schema<F>, s: Bytes, i: nat, m: Message<F>, has: set<int>, r: Message<F>,
    inv: (F, set<int>) -> bool, size: F -> nat) returns (h: set<int>)
    requires i <= |s| && Parse(sc, s, i, m, has) == Ok(r)
    requires Keeps(sc, inv, size) && inv(m.fields, has) && UnknownRun(sc, m.unrecognized)
    requires |m.unrecognized| <= i
    ensures sc.required <= h && inv(r.fields, h) && UnknownRun(sc, r.unrecognized)
    ensures size(r.fields) + |r.unrecognized| <= size(m.fields) + |m.unrecognized| + |s| - i
    decreases |s| - i
  {
    hide Step, Keeps, UnknownRun;
    if i == |s| {
      h := has;
    } else {
      var st := Step(sc, s, i, m, has).value;
      StepKeeps(sc, s, i, m, has, st, inv, size);
      h := ParseKeeps(sc, s, st.next, st.m, st.has, r, inv, size);
    }
  }
}
