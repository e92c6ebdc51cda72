/**
 * What a buffer means, read as a list of fields: each declared field is stored, each other one kept. Unmarshal
 * accepts exactly the buffers that are such lists, and returns what they mean.
 */
module Meaning {
  import opened Wire
  import opened WireFormat
  import opened Schema

  /** What a field carries, if it is of a kind that any declared field has. */
  function PayloadOf(f: Field): Option<Payload> {
    match f
    case Varint(_, value) => Some(VarintP(VarintValue(value)))
    case Delimited(_, _, data) => if |data| <= MAX_LEN then Some(BytesP(data)) else None
    case Fixed32(_, data) => if |data| == 4 then Some(Fixed32P(LittleEndian32(data))) else None
    case _ => None
  }

  function Num(f: Field): int {
    ToInt32(VarintValue(f.tag) / 8)
  }

  /** A message after one more field; None: the field is not allowed there. */
  function Take<F>(sc: Schema<F>, f: Field, m: Message<F>): Option<Message<F>> {
    if Num(f) <= 0 then None
    else match sc.wire(Num(f))
      case None => Some(m.(unrecognized := m.unrecognized + Encoded(f)))
      case Some(expected) =>
        if WireType(f) != expected || PayloadOf(f).None? then None
        else match sc.put(m.fields, Num(f), PayloadOf(f).value)
          case Ok(g) => Some(m.(fields := g))
          case Err(_) => None
  }

  function TakeAll<F>(sc: Schema<F>, fs: seq<Field>, m: Message<F>): Option<Message<F>>
    decreases |fs|
  {
    if fs == [] then Some(m)
    else match Take(sc, fs[0], m)
      case Some(n) => TakeAll(sc, fs[1..], n)
      case None => None
  }

  /** The numbers of the declared fields among them. */
  function Declared<F>(sc: Schema<F>, fs: seq<Field>): set<int> {
    set f | f in fs && sc.wire(Num(f)).Some? :: Num(f)
  }

  // -------------------------------------------------------- one field, one round

  /** Suffix of a buffer. */
  lemma {:induction false} AtSuffix(s: seq<Byte>, i: nat, e: seq<Byte>)
    requires At(s, i, e)
    ensures At(s[i..], 0, e)
  {
    assert s[i..][0..0 + |e|] == s[i..i + |e|];
  }

  lemma {:induction false} TakesUnknown(s: Bytes, i: nat, f: Field)
    requires IsField(f) && At(s, i, Encoded(f)) && i < |s|
    ensures TakeUnknown(s, i) == Ok(i + |Encoded(f)|)
  {
    hide IsField, Encoded, SkipFrom;
    AtSuffix(s, i, Encoded(f));
    SkipsOne(s[i..], 0, 0, f);
  }

  lemma {:induction false} TakesPayload(s: Bytes, i: nat, f: Field)
    requires IsField(f) && At(s, i, Encoded(f))
    ensures At(s, i, f.tag)
    ensures PayloadOf(f).Some? ==>
              TakePayload(s, i + |f.tag|, WireType(f)) == Ok(Took(PayloadOf(f).value, i + |Encoded(f)|))
    ensures PayloadOf(f).None? ==> TakePayload(s, i + |f.tag|, WireType(f)).Err?
  {
    hide ReadVarint, IsVarint, VarintValue, LittleEndian32, EncodedAll;
    match f
    case Varint(tag, value) =>
      AtConcat(s, i, tag, value);
      ReadsAt(s, i + |tag|, value);
    case Fixed64(tag, data) => AtConcat(s, i, tag, data);
    case Delimited(tag, len, data) =>
      AtConcat(s, i, tag, len + data);
      AtConcat(s, i + |tag|, len, data);
      ReadsAt(s, i + |tag|, len);
    case Group(tag, fields, end) => AtConcat(s, i, tag, EncodedAll(fields) + end);
    case Fixed32(tag, data) => AtConcat(s, i, tag, data);
  }

  function Seen<F>(sc: Schema<F>, f: Field, has: set<int>): set<int> {
    if sc.wire(Num(f)).Some? then has + {Num(f)} * sc.required else has
  }

  /** A round of the loop on a field does what the field means, and fails if it is not allowed. */
  lemma {:induction false} StepTakes<F>(sc: Schema<F>, s: Bytes, i: nat, m: Message<F>, has: set<int>, f: Field)
    requires IsField(f) && At(s, i, Encoded(f)) && i < |s|
    ensures match Take(sc, f, m)
            case Some(n) => Step(sc, s, i, m, has) == Ok(State(n, Seen(sc, f, has), i + |Encoded(f)|))
            case None => Step(sc, s, i, m, has).Err?
  {
    hide ReadVarint, TakePayload, TakeUnknown, IsField, Encoded, VarintValue, PayloadOf, IsVarint;
    TakesPayload(s, i, f);
    TagOf(f);
    ReadsAt(s, i, f.tag);
    var tag := ReadVarint(s, i).value;
    assert ToInt32(tag.v / 8) == Num(f) && tag.v % 8 == WireType(f);
    hide ToInt32, WireType, Num;
    if sc.wire(Num(f)).None? {
      TakesUnknown(s, i, f);
      assert s[i..i + |Encoded(f)|] == Encoded(f);
    }
  }

  lemma {:induction false} TagOf(f: Field)
    requires IsField(f)
    ensures IsVarint(f.tag) && VarintValue(f.tag) % 8 == WireType(f) != 4 && |Encoded(f)| >= |f.tag| >= 1
  {
    hide VarintValue;
  }

  /** A round of the loop has met a field. */
  lemma {:induction false} StepBack<F>(sc: Schema<F>, s: Bytes, i: nat, m: Message<F>, has: set<int>, st: State<F>)
    returns (f: Field)
    requires i < |s| && Step(sc, s, i, m, has) == Ok(st)
    ensures IsField(f) && Encoded(f) == s[i..st.next] && Take(sc, f, m) == Some(st.m)
    ensures st.has == Seen(sc, f, has)
  {
    var tag := ReadVarint(s, i).value;
    hide ReadVarint, TakePayload, TakeUnknown, IsField, Encoded, IsVarint, VarintValue;
    if sc.wire(ToInt32(tag.v / 8)).None? {
      f := UnknownBack(s, i, st.next, tag);
    } else {
      f := PayloadBack(s, i, tag, TakePayload(s, tag.next, tag.v % 8).value);
    }
    assert At(s, i, Encoded(f));
    StepTakes(sc, s, i, m, has, f);
  }

  lemma {:induction false} UnknownBack(s: Bytes, i: nat, next: nat, tag: Read) returns (f: Field)
    requires i < |s| && ReadVarint(s, i) == Ok(tag) && TakeUnknown(s, i) == Ok(next)
    ensures IsField(f) && Encoded(f) == s[i..next]
  {
    hide IsField, Encoded, SkipFrom;
    f := FieldBack(s[i..], next - i);
    assert s[i..][..next - i] == s[i..next];
  }

  lemma {:induction false} PayloadBack(s: Bytes, i: nat, tag: Read, took: Took) returns (f: Field)
    requires i <= |s| && ReadVarint(s, i) == Ok(tag) && TakePayload(s, tag.next, tag.v % 8) == Ok(took)
    ensures IsField(f) && Encoded(f) == s[i..took.next]
  {
    hide ReadVarint, LittleEndian32;
    PayloadSkipped(s, tag.next, tag.v % 8, took);
    f := FlatBack(s, i, 0, tag, Skip(took.next, 0));
  }

  /** Where a payload ends, skipping it ends too. */
  lemma {:induction false} PayloadSkipped(s: Bytes, j: nat, wireType: nat, took: Took)
    requires j <= |s| && TakePayload(s, j, wireType) == Ok(took)
    ensures SkipPayload(s, j, wireType, 0) == Ok(Skip(took.next, 0)) && wireType != 3 && wireType != 4
  {
    hide ReadVarint, LittleEndian32;
  }

  // ------------------------------------------------------------- whole buffers

  lemma {:induction false} DeclaredCons<F>(sc: Schema<F>, f: Field, fs: seq<Field>)
    ensures Declared(sc, [f] + fs)
         == Declared(sc, fs) + (if sc.wire(Num(f)).Some? then {Num(f)} else {})
  {
    hide Num;
    var all := [f] + fs;
    assert f == all[0] && forall k :: 0 <= k < |fs| ==> fs[k] == all[k + 1];
    assert forall x :: x in all <==> x == f || x in fs;
  }

  lemma {:induction false} ParsesFields<F>(
    sc: Schema<F>, s: Bytes, i: nat, m: Message<F>, has: set<int>, fs: seq<Field>, r: Message<F>)
    requires AreFields(fs) && At(s, i, EncodedAll(fs)) && i + |EncodedAll(fs)| == |s|
    requires TakeAll(sc, fs, m) == Some(r)
    ensures Parse(sc, s, i, m, has)
         == if sc.required <= has + Declared(sc, fs) then Ok(r) else Err(RequiredNotSet)
    decreases |fs|
  {
    hide Step, Take, Encoded, IsField, Num;
    if fs == [] {
      assert Declared(sc, fs) == {};
    } else {
      var f, n := fs[0], Take(sc, fs[0], m).value;
      assert fs == [f] + fs[1..];
      AtConcat(s, i, Encoded(f), EncodedAll(fs[1..]));
      TagOf(f);
      StepTakes(sc, s, i, m, has, f);
      DeclaredCons(sc, f, fs[1..]);
      ParsesFields(sc, s, i + |Encoded(f)|, n, Seen(sc, f, has), fs[1..], r);
    }
  }

  lemma {:induction false} ParseBack<F>(
    sc: Schema<F>, s: Bytes, i: nat, m: Message<F>, has: set<int>, r: Message<F>) returns (fs: seq<Field>)
    requires i <= |s| && Parse(sc, s, i, m, has) == Ok(r)
    ensures AreFields(fs) && EncodedAll(fs) == s[i..] && TakeAll(sc, fs, m) == Some(r)
    ensures sc.required <= has + Declared(sc, fs)
    decreases |s| - i
  {
    hide Step, Take, Encoded, IsField, Num;
    if i == |s| {
      fs := [];
    } else {
      var st := Step(sc, s, i, m, has).value;
      var f := StepBack(sc, s, i, m, has, st);
      var rest := ParseBack(sc, s, st.next, st.m, st.has, r);
      fs := [f] + rest;
      assert fs[1..] == rest && s[i..st.next] + s[st.next..] == s[i..];
      DeclaredCons(sc, f, rest);
    }
  }

  /**
   * Unmarshal succeeds with r exactly if the buffer is a list of fields, each allowed where it stands, the required
   * ones among them, and r is what they make of the message, one after the other; if only required ones are missing,
   * that is the error.
   */
  lemma {:induction false} ParsesExactly<F>(sc: Schema<F>, s: Bytes, m: Message<F>, r: Message<F>)
    ensures Parse(sc, s, 0, m, {}) == Ok(r)
       <==> exists fs :: AreFields(fs) && EncodedAll(fs) == s && TakeAll(sc, fs, m) == Some(r)
                         && sc.required <= Declared(sc, fs)
    ensures (exists fs :: AreFields(fs) && EncodedAll(fs) == s && TakeAll(sc, fs, m) == Some(r)
                          && !(sc.required <= Declared(sc, fs))) ==> Parse(sc, s, 0, m, {}) == Err(RequiredNotSet)
  {
    hide Parse, AreFields, EncodedAll, TakeAll, Declared;
    if Parse(sc, s, 0, m, {}) == Ok(r) {
      var fs := ParseBack(sc, s, 0, m, {}, r);
      assert EncodedAll(fs) == s[0..] == s && {} + Declared(sc, fs) == Declared(sc, fs);
    }
    forall fs | AreFields(fs) && EncodedAll(fs) == s && TakeAll(sc, fs, m) == Some(r)
      ensures Parse(sc, s, 0, m, {}) == if sc.required <= Declared(sc, fs) then Ok(r) else Err(RequiredNotSet)
    {
      assert At(s, 0, EncodedAll(fs)) && {} + Declared(sc, fs) == Declared(sc, fs);
      ParsesFields(sc, s, 0, m, {}, fs, r);
    }
  }

  // ------------------------------------------------------------ unknown fields

  /** Fields with numbers of their own, none of them declared. */
  predicate AreUnknown<F>(sc: Schema<F>, fs: seq<Field>) {
    AreFields(fs) && forall f :: f in fs ==> Num(f) > 0 && sc.wire(Num(f)).None?
  }

  lemma {:induction false} UnknownFields<F>(sc: Schema<F>, u: seq<Byte>) returns (fs: seq<Field>)
    requires UnknownRun(sc, u)
    ensures AreUnknown(sc, fs) && EncodedAll(fs) == u
    decreases |u|
  {
    hide SkipField, ReadVarint, IsField, Encoded;
    if u == [] {
      fs := [];
    } else {
      var n := SkipField(u).value;
      var f := FieldBack(u, n);
      var rest := UnknownFields(sc, u[n..]);
      fs := [f] + rest;
      EncodedCons(f, rest);
      assert u == u[..n] + u[n..];
    }
  }

  lemma {:induction false} FieldsUnknown<F>(sc: Schema<F>, fs: seq<Field>)
    requires AreUnknown(sc, fs) && |EncodedAll(fs)| <= MAX_LEN
    ensures UnknownRun(sc, EncodedAll(fs))
    decreases |fs|
  {
    if fs != [] {
      var f, u := fs[0], EncodedAll(fs);
      hide SkipFrom, ReadVarint, IsField, Encoded, UnknownRun, IsVarint, VarintValue;
      TagOf(f);
      TakesPayload(u, 0, f) by { assert u[0..0 + |Encoded(f)|] == Encoded(f); }
      ReadsAt(u, 0, f.tag);
      SkipsOne(u, 0, 0, f) by { assert u[0..0 + |Encoded(f)|] == Encoded(f); }
      assert u[SkipField(u).value..] == EncodedAll(fs[1..]);
      FieldsUnknown(sc, fs[1..]);
      UnknownRunCons(sc, u, EncodedAll(fs[1..]));
    }
  }

  /** What XXX_unrecognized may hold: lists of undeclared fields, and nothing else. */
  lemma {:induction false} UnknownExactly<F>(sc: Schema<F>, u: Bytes)
    ensures UnknownRun(sc, u) <==> exists fs :: AreUnknown(sc, fs) && EncodedAll(fs) == u
  {
    hide UnknownRun, AreUnknown;
    if UnknownRun(sc, u) { var fs := UnknownFields(sc, u); }
    forall fs | AreUnknown(sc, fs) && EncodedAll(fs) == u ensures UnknownRun(sc, u) { FieldsUnknown(sc, fs); }
  }
}
