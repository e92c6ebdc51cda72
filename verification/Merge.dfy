/**
 * Parsing reads a buffer field by field to its very end, so parsing two encodings one after the other into the
 * same message is parsing their concatenation.
 */
module Merge {
  import opened Wire
  import opened Schema

  /** Taking a payload looks at no byte behind it. */
  lemma {:induction false} TakePayloadLocal(s: Bytes, i: nat, t: Bytes, j: nat, wireType: nat, took: Took)
    requires i <= |s| && TakePayload(s, i, wireType) == Ok(took) && At(t, j, s[i..took.next])
    ensures j <= |t| && TakePayload(t, j, wireType) == Ok(Took(took.p, j + took.next - i))
  {
    hide ReadVarint;
    if wireType == 0 {
      ReadVarintLocal(s, i, t, j, ReadVarint(s, i).value);
    } else if wireType == 2 {
      var len := ReadVarint(s, i).value;
      AtSplit(s, i, len.next, took.next, t, j);
      ReadVarintLocal(s, i, t, j, len);
      assert s[len.next..took.next] == t[j + len.next - i..j + took.next - i];
    } else {
      assert s[i..i + 4] == t[j..j + 4];
    }
  }

  lemma {:induction false} TakeUnknownLocal(s: Bytes, i: nat, t: Bytes, j: nat, next: nat)
    requires i < |s| && TakeUnknown(s, i) == Ok(next) && At(t, j, s[i..next])
    ensures j < |t| && TakeUnknown(t, j) == Ok(j + next - i)
  {
    hide SkipFrom;
    var a, b := s[i..], t[j..];
    assert a[0..next - i] == s[i..next] && b[0..next - i] == t[j..j + next - i];
    SkipLocal(a, 0, b, 0, 0, next - i);
  }

  /** One round of the loop does the same wherever its field stands. */
  lemma {:induction false} StepLocal<F>(
    sc: Schema<F>, s: Bytes, i: nat, t: Bytes, j: nat, m: Message<F>, has: set<int>, st: State<F>)
    requires i < |s| && Step(sc, s, i, m, has) == Ok(st) && At(t, j, s[i..st.next])
    ensures j < |t| && Step(sc, t, j, m, has) == Ok(State(st.m, st.has, j + st.next - i))
  {
    hide ReadVarint, TakePayload, TakeUnknown;
    var tag := ReadVarint(s, i).value;
    var num := ToInt32(tag.v / 8);
    if sc.wire(num).None? {
      TakeUnknownLocal(s, i, t, j, st.next);
      TagOfUnknown(s, i, tag, st.next);
      AtSplit(s, i, tag.next, st.next, t, j);
      ReadVarintLocal(s, i, t, j, tag);
      assert s[i..st.next] == t[j..j + st.next - i];
    } else {
      var took := TakePayload(s, tag.next, tag.v % 8).value;
      AtSplit(s, i, tag.next, st.next, t, j);
      ReadVarintLocal(s, i, t, j, tag);
      TakePayloadLocal(s, tag.next, t, j + tag.next - i, tag.v % 8, took);
    }
  }

  /** The tag of an unknown field is part of it. */
  lemma {:induction false} TagOfUnknown(s: Bytes, i: nat, tag: Read, next: nat)
    requires i < |s| && ReadVarint(s, i) == Ok(tag) && TakeUnknown(s, i) == Ok(next)
    ensures tag.next <= next
  {
    SkipPastTag(s[i..]);
    hide SkipField, ReadFrom;
    SuffixReadVarint(s, i);
  }

  /** The loop up to the end of the buffer, without the final look at the required fields. */
  function Collect<F>(sc: Schema<F>, s: Bytes, i: nat, m: Message<F>, has: set<int>): (r: Result<State<F>>)
    requires i <= |s|
    ensures r.Ok? ==> r.value.next == |s|
    decreases |s| - i
  {
    if i == |s| then Ok(State(m, has, i))
    else
      var st :- Step(sc, s, i, m, has);
      Collect(sc, s, st.next, st.m, st.has)
  }

  lemma {:induction false} ParseIsCollect<F>(sc: Schema<F>, s: Bytes, i: nat, m: Message<F>, has: set<int>)
    requires i <= |s|
    ensures Parse(sc, s, i, m, has)
         == match Collect(sc, s, i, m, has)
            case Err(e) => Err(e)
            case Ok(st) => if sc.required <= st.has then Ok(st.m) else Err(RequiredNotSet)
    decreases |s| - i
  {
    hide Step;
    if i < |s| && Step(sc, s, i, m, has).Ok? {
      var st := Step(sc, s, i, m, has).value;
      ParseIsCollect(sc, s, st.next, st.m, st.has);
    }
  }

  /** Behind what has been collected from a, parsing a + b is parsing b. */
  lemma {:induction false} ParseThrough<F>(
    sc: Schema<F>, a: Bytes, b: Bytes, i: nat, m: Message<F>, has: set<int>, st: State<F>)
    requires i <= |a| && |a + b| <= MAX_LEN && Collect(sc, a, i, m, has) == Ok(st)
    ensures Parse(sc, a + b, i, m, has) == Parse(sc, a + b, |a|, st.m, st.has)
    decreases |a| - i
  {
    hide Step, Parse;
    if i < |a| {
      var next := Step(sc, a, i, m, has).value;
      assert (a + b)[i..next.next] == a[i..next.next];
      StepLocal(sc, a, i, a + b, i, m, has, next);
      ParseStep(sc, a + b, i, m, has, next);
      ParseThrough(sc, a, b, next.next, next.m, next.has, st);
    }
  }

  /** Fields seen before are kept beside those seen now, and make no other difference. */
  lemma {:induction false} CollectBeside<F>(
    sc: Schema<F>, s: Bytes, i: nat, m: Message<F>, has: set<int>, seen: set<int>, st: State<F>)
    requires i <= |s| && Collect(sc, s, i, m, has) == Ok(st)
    ensures Collect(sc, s, i, m, seen + has) == Ok(st.(has := seen + st.has))
    decreases |s| - i
  {
    hide ReadVarint, TakePayload, TakeUnknown;
    if i < |s| {
      var next := Step(sc, s, i, m, has).value;
      StepBeside(sc, s, i, m, has, seen, next);
      CollectBeside(sc, s, next.next, next.m, next.has, seen, st);
    }
  }

  lemma {:induction false} StepBeside<F>(
    sc: Schema<F>, s: Bytes, i: nat, m: Message<F>, has: set<int>, seen: set<int>, st: State<F>)
    requires i < |s| && Step(sc, s, i, m, has) == Ok(st)
    ensures Step(sc, s, i, m, seen + has) == Ok(st.(has := seen + st.has))
  {
    hide ReadVarint, TakePayload, TakeUnknown;
    var num := ToInt32(ReadVarint(s, i).value.v / 8);
    assert seen + has + {num} * sc.required == seen + (has + {num} * sc.required);
  }

  /** Behind a, collecting from a + b is collecting from b. */
  lemma {:induction false} CollectBehind<F>(
    sc: Schema<F>, a: Bytes, b: Bytes, i: nat, m: Message<F>, has: set<int>, st: State<F>)
    requires i <= |b| && |a + b| <= MAX_LEN && Collect(sc, b, i, m, has) == Ok(st)
    ensures Collect(sc, a + b, |a| + i, m, has) == Ok(st.(next := |a| + st.next))
    decreases |b| - i
  {
    hide Step;
    if i < |b| {
      var next := Step(sc, b, i, m, has).value;
      assert (a + b)[|a| + i..|a| + next.next] == b[i..next.next];
      StepLocal(sc, b, i, a + b, |a| + i, m, has, next);
      CollectBehind(sc, a, b, next.next, next.m, next.has, st);
    }
  }

  /**
   * If reading a makes m0 into sa.m and reading b makes that into sb.m, reading a + b makes m0 into sb.m; the
   * required fields may be spread over both.
   */
  lemma {:induction false} ConcatenationParses<F>(
    sc: Schema<F>, a: Bytes, b: Bytes, m0: Message<F>, sa: State<F>, sb: State<F>)
    requires |a + b| <= MAX_LEN
    requires Collect(sc, a, 0, m0, {}) == Ok(sa) && Collect(sc, b, 0, sa.m, {}) == Ok(sb)
    ensures Parse(sc, a + b, 0, m0, {})
         == if sc.required <= sa.has + sb.has then Ok(sb.m) else Err(RequiredNotSet)
  {
    hide Step, Parse, Collect;
    ParseThrough(sc, a, b, 0, m0, {}, sa);
    assert sa.has + {} == sa.has;
    CollectBeside(sc, b, 0, sa.m, {}, sa.has, sb);
    CollectBehind(sc, a, b, 0, sa.m, sa.has, sb.(has := sa.has + sb.has));
    ParseIsCollect(sc, a + b, |a|, sa.m, sa.has);
  }

  /**
   * Of every schema: if a parses m0 into m and b parses m into merged, a followed by b parses m0 into merged. Later
   * scalar fields replace earlier ones, lists and unknown fields are appended.
   */
  lemma {:induction false} ConcatenationMerges<F>(
    sc: Schema<F>, a: Bytes, b: Bytes, m0: Message<F>, m: Message<F>, merged: Message<F>)
    requires |a + b| <= MAX_LEN
    requires Parse(sc, a, 0, m0, {}) == Ok(m) && Parse(sc, b, 0, m, {}) == Ok(merged)
    ensures Parse(sc, a + b, 0, m0, {}) == Ok(merged)
  {
    hide Step, Parse, Collect;
    ParseIsCollect(sc, a, 0, m0, {});
    ParseIsCollect(sc, b, 0, m, {});
    var sa := Collect(sc, a, 0, m0, {}).value;
    ConcatenationParses(sc, a, b, m0, sa, Collect(sc, b, 0, m, {}).value);
  }
}
