/** Storing an incompressible body as one LZ4 block of literals, and reading such a block back. */
module LiteralBlocks {
  import opened Wire

  /** The bytes that extend a literal length of 15: runs of 255, then the remainder. */
  function Extension(m: nat): (e: seq<Byte>)
    ensures |e| == m / 255 + 1
  {
    if m >= 255 then [255] + Extension(m - 255) else [m]
  }

  /** Token and literal length. */
  function Header(n: nat): (h: seq<Byte>)
    ensures 1 <= |h| <= n / 255 + 16
  {
    if n < 15 then [16 * n] else [0xF0] + Extension(n - 15)
  }

  function Block(src: seq<Byte>): seq<Byte> {
    Header(|src|) + src
  }

  datatype Length = Length(n: nat, next: nat)

  function ReadExtension(b: seq<Byte>, i: nat, n: nat): (r: Option<Length>)
    requires i <= |b|
    ensures r.Some? ==> r.value.next <= |b|
    decreases |b| - i
  {
    if i == |b| then None
    else if b[i] == 255 then ReadExtension(b, i + 1, n + 255)
    else Some(Length(n + b[i], i + 1))
  }

  /** The last sequence of a block: token, length, literals up to the end and no match. */
  function Decode(b: seq<Byte>): Option<seq<Byte>> {
    if b == [] then None
    else
      var short := b[0] / 16;
      var len := if short == 15 then ReadExtension(b, 1, 15) else Some(Length(short, 1));
      if len.None? || len.value.next + len.value.n != |b| then None
      else Some(b[len.value.next..])
  }

  lemma {:induction false} ExtensionRoundTrip(b: seq<Byte>, i: nat, n: nat, m: nat)
    requires i + |Extension(m)| <= |b| && b[i..i + |Extension(m)|] == Extension(m)
    ensures ReadExtension(b, i, n) == Some(Length(n + m, i + |Extension(m)|))
    decreases m
  {
    var e := Extension(m);
    assert b[i] == b[i..i + |e|][0] == e[0];
    if m >= 255 {
      assert b[i + 1..i + 1 + |Extension(m - 255)|] == b[i..i + |e|][1..];
      ExtensionRoundTrip(b, i + 1, n + 255, m - 255);
    }
  }

  /** A length cut short is a run of 255s with nothing after it. */
  lemma {:induction false} ExtensionCut(b: seq<Byte>, i: nat, n: nat, m: nat, k: nat)
    requires k < |Extension(m)| && i + k == |b| && b[i..] == Extension(m)[..k]
    ensures ReadExtension(b, i, n) == None
    decreases m
  {
    if k > 0 {
      assert b[i] == b[i..][0] == Extension(m)[0];
      assert m >= 255;
      assert b[i + 1..] == b[i..][1..] == Extension(m - 255)[..k - 1];
      ExtensionCut(b, i + 1, n + 255, m - 255, k - 1);
    }
  }

  lemma {:induction false} BlockRoundTrip(src: seq<Byte>)
    ensures Decode(Block(src)) == Some(src)
    ensures |Block(src)| <= |src| + |src| / 255 + 16
  {
    var n, b := |src|, Block(src);
    if n >= 15 {
      assert b[1..1 + |Extension(n - 15)|] == Extension(n - 15);
      ExtensionRoundTrip(b, 1, 15, n - 15);
    }
    assert b[|Header(n)|..] == src;
  }

  /** A header without its literals, whole or cut short, is no block. */
  lemma {:induction false} HeaderAlone(n: nat, k: nat)
    requires n > 0 && 0 < k <= |Header(n)|
    ensures Decode(Header(n)[..k]) == None
  {
    var b := Header(n)[..k];
    if n >= 15 {
      var e := Extension(n - 15);
      if k == |Header(n)| {
        assert b[1..1 + |e|] == e;
        ExtensionRoundTrip(b, 1, 15, n - 15);
      } else {
        assert b[1..] == e[..k - 1];
        ExtensionCut(b, 1, 15, n - 15, k - 1);
      }
    }
  }

  /** The first di bytes of dst are the first di bytes of h, the others as they were. */
  ghost predicate Filled(dst: array<Byte>, was: seq<Byte>, h: seq<Byte>, di: nat)
    reads dst
  {
    && |was| == dst.Length && di <= dst.Length && di <= |h|
    && (forall k :: 0 <= k < di ==> dst[k] == h[k])
    && (forall k :: di <= k < dst.Length ==> dst[k] == was[k])
  }

  lemma {:induction false} FilledPrefix(dst: array<Byte>, was: seq<Byte>, h: seq<Byte>, di: nat)
    requires Filled(dst, was, h, di)
    ensures dst[..di] == h[..di] && dst[di..] == was[di..]
  {
  }

  method Put(dst: array<Byte>, di: nat, b: Byte, ghost was: seq<Byte>, ghost h: seq<Byte>)
    requires Filled(dst, was, h, di) && di < dst.Length && di < |h| && h[di] == b
    modifies dst
    ensures Filled(dst, was, h, di + 1)
  {
    dst[di] := b;
  }

  /** Go's `copy(dst[di:], src)` where src fits. */
  method Copy(dst: array<Byte>, di: nat, src: seq<Byte>, ghost was: seq<Byte>, ghost h: seq<Byte>)
    requires Filled(dst, was, h, di) && di + |src| <= dst.Length && di == |h|
    modifies dst
    ensures Filled(dst, was, h + src, di + |src|)
  {
    forall k | 0 <= k < |src| { dst[di + k] := src[k]; }
    forall k | di <= k < di + |src| ensures dst[k] == (h + src)[k] {
      assert dst[di + (k - di)] == src[k - di];
    }
  }

  lemma {:induction false} ExtensionHead(m: nat, k: nat)
    requires k <= m / 255
    ensures Extension(m)[k] == if m - 255 * k >= 255 then 255 else m - 255 * k
  {
    if m >= 255 && k > 0 { ExtensionHead(m - 255, k - 1); }
  }

  /** How much of the block is written to a buffer of length dn. */
  function Stored(n: nat, dn: nat): nat {
    if |Header(n)| + n <= dn then |Header(n)| + n else if |Header(n)| <= dn then |Header(n)| else dn
  }

  /** The most of the block that fits without cutting the literals: all of it, or some of the header. */
  lemma {:induction false} StoredIsMost(n: nat, dn: nat, k: nat)
    requires k <= dn && (k == |Header(n)| + n || k <= |Header(n)|)
    ensures k <= Stored(n, dn) <= dn
    ensures Stored(n, dn) == |Header(n)| + n || Stored(n, dn) <= |Header(n)|
  {
  }

  /**
   * `copyIncompressible`: the whole block if dst has room for it, else as much of the header as fits.
   * What it wrote decodes to src exactly when the block fits.
   */
  method CopyIncompressible(src: seq<Byte>, dst: array<Byte>) returns (di: nat)
    requires dst.Length > 0
    modifies dst
    ensures di == Stored(|src|, dst.Length) <= dst.Length
    ensures dst[..di] == Block(src)[..di] && dst[di..] == old(dst[..])[di..]
    ensures Decode(dst[..di]) == Some(src) <==> |Block(src)| <= dst.Length
  {
    hide Decode, Filled, Extension;
    ghost var h, was := Header(|src|), dst[..];
    var lLen, dn := |src|, dst.Length;
    di := 0;
    if lLen < 0xF {
      Put(dst, di, lLen * 16, was, h);
    } else {
      Put(dst, di, 0xF0, was, h);
      di := di + 1;
      if di == dn {
        HeaderOnly(src, dst, was, di);
        return;
      }
      lLen := lLen - 0xF;
      while lLen >= 0xFF
        invariant 1 <= di < dn && lLen == |src| - 0xF - 255 * (di - 1) && 0 <= lLen
        invariant Filled(dst, was, h, di)
      {
        ExtensionHead(|src| - 0xF, di - 1);
        Put(dst, di, 0xFF, was, h);
        di := di + 1;
        if di == dn {
          HeaderOnly(src, dst, was, di);
          return;
        }
        lLen := lLen - 0xFF;
      }
      ExtensionHead(|src| - 0xF, di - 1);
      Put(dst, di, lLen, was, h);
    }
    di := di + 1;
    if di + |src| > dn {
      HeaderOnly(src, dst, was, di);
      return;
    }
    Copy(dst, di, src, was, h);
    di := di + |src|;
    BlockRoundTrip(src);
    FilledPrefix(dst, was, Block(src), di);
    assert Block(src)[..di] == Block(src);
  }

  /** The state when dst is full, or too short for the literals. */
  lemma {:induction false} HeaderOnly(src: seq<Byte>, dst: array<Byte>, was: seq<Byte>, di: nat)
    requires 0 < di && Filled(dst, was, Header(|src|), di) && di == Stored(|src|, dst.Length)
    requires |Block(src)| > dst.Length
    ensures dst[..di] == Block(src)[..di] && dst[di..] == was[di..]
    ensures Decode(dst[..di]) != Some(src)
  {
    FilledPrefix(dst, was, Header(|src|), di);
    HeaderAlone(|src|, di);
  }
}
