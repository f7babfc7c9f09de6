/** Strict base64 (sections 3.5 and 4 of RFC 4648): the decoder of key material. */
module Base64Model {
  import opened Base

  const PAD: byte := 0x3D

  /** The standard alphabet. */
  function Symbol(v: nat): byte
    requires v < 64
  {
    if v < 26 then (v + 0x41) as byte
    else if v < 52 then (v - 26 + 0x61) as byte
    else if v < 62 then (v - 52 + 0x30) as byte
    else if v == 62 then 0x2B
    else 0x2F
  }

  function Sextet(b: byte): Option<nat> {
    if 0x41 <= b <= 0x5A then Some(b as nat - 0x41)
    else if 0x61 <= b <= 0x7A then Some(b as nat - 0x61 + 26)
    else if 0x30 <= b <= 0x39 then Some(b as nat - 0x30 + 52)
    else if b == 0x2B then Some(62)
    else if b == 0x2F then Some(63)
    else None
  }

  lemma SextetExact(b: byte, v: nat)
    ensures Sextet(b) == Some(v) <==> v < 64 && b == Symbol(v)
    ensures b == PAD ==> Sextet(b).None?
  {
  }

  // ---- the canonical encoding ----

  /** Three bytes as 24 bits. */
  function Bits(b: seq<byte>): nat
    requires |b| == 3
  {
    b[0] as nat * 0x1_0000 + b[1] as nat * 0x100 + b[2] as nat
  }

  /** 24 bits as four symbols. */
  function Symbols(bits: nat): seq<byte>
    requires bits < 0x100_0000
  {
    [Symbol(bits / 0x4_0000), Symbol(bits / 0x1000 % 64), Symbol(bits / 64 % 64), Symbol(bits % 64)]
  }

  /** One to three bytes, filled up with zero bits and padded. */
  function EncodeGroup(b: seq<byte>): (g: seq<byte>)
    requires 1 <= |b| <= 3
    ensures |g| == 4
  {
    if |b| == 3 then Symbols(Bits(b))
    else if |b| == 2 then Symbols(Bits(b + [0]))[..3] + [PAD]
    else Symbols(Bits(b + [0, 0]))[..2] + [PAD, PAD]
  }

  function Encode(b: seq<byte>): seq<byte> {
    if b == [] then []
    else if |b| <= 3 then EncodeGroup(b)
    else EncodeGroup(b[..3]) + Encode(b[3..])
  }

  // ---- decoding ----

  /** How many padding characters `g` ends in. */
  function Padding(g: seq<byte>): (n: nat)
    ensures n <= |g|
  {
    if g == [] || g[|g| - 1] != PAD then 0 else 1 + Padding(g[..|g| - 1])
  }

  /** The value of the symbols, most significant first, if they all are symbols. */
  function Value(g: seq<byte>): Option<nat> {
    if g == [] then Some(0)
    else
      var front :- Value(g[..|g| - 1]);
      var v :- Sextet(g[|g| - 1]);
      Some(front * 64 + v)
  }

  function Pow64(n: nat): nat {
    if n == 0 then 1 else 64 * Pow64(n - 1)
  }

  /** The bytes of a 24-bit group. */
  function Bytes(bits: nat): seq<byte> {
    [(bits / 0x1_0000 % 256) as byte, (bits / 0x100 % 256) as byte, (bits % 256) as byte]
  }

  /** One group of four; padding only in the last, and then over zero bits. */
  function DecodeGroup(g: seq<byte>, last: bool): Option<seq<byte>>
    requires |g| == 4
  {
    var padding := Padding(g);
    if padding > 2 || (padding > 0 && !last) then None
    else
      var value :- Value(g[..4 - padding]);
      var bytes := Bytes(value * Pow64(padding));
      if exists i | 3 - padding <= i < 3 :: bytes[i] != 0 then None else Some(bytes[..3 - padding])
  }

  function Decode(encoded: seq<byte>): Option<seq<byte>> {
    if encoded == [] || |encoded| % 4 != 0 then None
    else if |encoded| == 4 then DecodeGroup(encoded, true)
    else
      var first :- DecodeGroup(encoded[..4], false);
      var rest :- Decode(encoded[4..]);
      Some(first + rest)
  }

  // ---- groups ----

  lemma ValueOf4(a: byte, b: byte, c: byte, d: byte)
    ensures var (x, y, z, w) := (Sextet(a), Sextet(b), Sextet(c), Sextet(d));
            Value([a, b, c, d]) ==
            if x.Some? && y.Some? && z.Some? && w.Some?
            then Some(x.value * 0x4_0000 + y.value * 0x1000 + z.value * 64 + w.value) else None
  {
    ValueOf3(a, b, c);
    assert [a, b, c, d][..3] == [a, b, c];
  }

  lemma ValueOf3(a: byte, b: byte, c: byte)
    ensures var (x, y, z) := (Sextet(a), Sextet(b), Sextet(c));
            Value([a, b, c]) ==
            if x.Some? && y.Some? && z.Some? then Some(x.value * 0x1000 + y.value * 64 + z.value) else None
  {
    ValueOf2(a, b);
    assert [a, b, c][..2] == [a, b];
  }

  lemma ValueOf2(a: byte, b: byte)
    ensures var (x, y) := (Sextet(a), Sextet(b));
            Value([a, b]) == if x.Some? && y.Some? then Some(x.value * 64 + y.value) else None
  {
    assert [a, b][..1] == [a];
    assert [a][..0] == [];
    assert Value([a][..0]) == Some(0);
    assert Value([a]) == Sextet(a);
  }

  /** Four sextets and three bytes are the same 24 bits. */
  lemma BitsExact(bits: nat, b: seq<byte>)
    requires bits < 0x100_0000 && |b| == 3
    ensures Bytes(bits) == b <==> Bits(b) == bits
  {
    assert bits == bits / 0x100 * 0x100 + bits % 0x100;
    assert bits / 0x100 == bits / 0x1_0000 * 0x100 + bits / 0x100 % 0x100;
    if Bits(b) == bits {
      assert bits / 0x100 == b[0] as nat * 0x100 + b[1] as nat;
      assert bits / 0x1_0000 == b[0] as nat;
    }
  }

  lemma SymbolsExact(x: nat, y: nat, z: nat, w: nat, bits: nat)
    requires x < 64 && y < 64 && z < 64 && w < 64 && bits < 0x100_0000
    ensures bits == x * 0x4_0000 + y * 0x1000 + z * 64 + w <==>
            bits / 0x4_0000 == x && bits / 0x1000 % 64 == y && bits / 64 % 64 == z && bits % 64 == w
  {
    assert bits == bits / 64 * 64 + bits % 64;
    assert bits / 64 == bits / 0x1000 * 64 + bits / 64 % 64;
    assert bits / 0x1000 == bits / 0x4_0000 * 64 + bits / 0x1000 % 64;
    if bits == x * 0x4_0000 + y * 0x1000 + z * 64 + w {
      assert bits / 64 == x * 0x1000 + y * 64 + z;
      assert bits / 0x1000 == x * 64 + y;
      assert bits / 0x4_0000 == x;
    }
  }

  /** A full group decodes exactly to the three bytes it encodes. */
  lemma FullGroup(g: seq<byte>, b: seq<byte>)
    requires |g| == 4 && |b| == 3
    ensures Value(g).Some? && Bytes(Value(g).value) == b <==> g == EncodeGroup(b)
  {
    assert g == [g[0], g[1], g[2], g[3]];
    ValueOf4(g[0], g[1], g[2], g[3]);
    var bits := Bits(b);
    SextetExact(g[0], bits / 0x4_0000);
    SextetExact(g[1], bits / 0x1000 % 64);
    SextetExact(g[2], bits / 64 % 64);
    SextetExact(g[3], bits % 64);
    if Value(g).Some? {
      var (x, y, z, w) := (Sextet(g[0]).value, Sextet(g[1]).value, Sextet(g[2]).value, Sextet(g[3]).value);
      SextetExact(g[0], x);
      SextetExact(g[1], y);
      SextetExact(g[2], z);
      SextetExact(g[3], w);
      BitsExact(Value(g).value, b);
      SymbolsExact(x, y, z, w, bits);
    } else if g == EncodeGroup(b) {
      assert false;
    }
  }

  lemma PaddingOf4(g: seq<byte>)
    requires |g| == 4
    ensures Padding(g) == 0 <==> g[3] != PAD
    ensures Padding(g) == 1 <==> g[3] == PAD && g[2] != PAD
    ensures Padding(g) == 2 <==> g[3] == PAD && g[2] == PAD && g[1] != PAD
  {
    if g[3] == PAD {
      assert Padding(g) == 1 + Padding(g[..3]);
      assert g[..3][2] == g[2];
      if g[2] == PAD {
        assert Padding(g[..3]) == 1 + Padding(g[..3][..2]);
        assert g[..3][..2][1] == g[1];
      }
    }
  }

  /** A missing sextet counts as zero. */
  lemma FilledValue(s: seq<byte>)
    ensures Value(s + [Symbol(0)]) == if Value(s).Some? then Some(Value(s).value * 64) else None
  {
    assert (s + [Symbol(0)])[..|s|] == s;
  }

  /** A padded group with its padding replaced by zero symbols. */
  function Filled(g: seq<byte>, padding: nat): seq<byte>
    requires |g| == 4 && padding <= 2
  {
    g[..4 - padding] + if padding == 0 then [] else if padding == 1 then [Symbol(0)] else [Symbol(0), Symbol(0)]
  }

  lemma FilledGroup(g: seq<byte>, padding: nat)
    requires |g| == 4 && padding <= 2
    ensures Value(Filled(g, padding)) ==
            if Value(g[..4 - padding]).Some? then Some(Value(g[..4 - padding]).value * Pow64(padding)) else None
  {
    var s := g[..4 - padding];
    if padding == 0 {
      assert Filled(g, 0) == s;
    } else {
      FilledValue(s);
      if padding == 2 {
        FilledValue(s + [Symbol(0)]);
        assert Filled(g, 2) == s + [Symbol(0)] + [Symbol(0)];
        assert Pow64(2) == 64 * Pow64(1) == 64 * 64;
      }
    }
  }

  function Zeros(n: nat): seq<byte>
    requires n <= 2
  {
    if n == 0 then [] else if n == 1 then [0] else [0, 0]
  }

  lemma NotPadding(v: nat)
    requires v < 64
    ensures Symbol(v) != PAD
  {
  }

  lemma TwoBytes(x: nat, y: nat)
    ensures (x * 0x1_0000 + y * 0x100) % 64 == 0
  {
    assert x * 0x1_0000 + y * 0x100 == (x * 1024 + y * 4) * 64;
  }

  lemma OnePad(g: seq<byte>, b: seq<byte>)
    requires |g| == 4 && |b| == 2
    ensures g == EncodeGroup(b) <==> Padding(g) == 1 && Filled(g, 1) == EncodeGroup(b + [0])
  {
    PaddingOf4(g);
    var bits := Bits(b + [0]);
    NotPadding(bits / 64 % 64);
    var symbols := Symbols(bits);
    TwoBytes(b[0] as nat, b[1] as nat);
    assert symbols == symbols[..3] + [Symbol(0)];
    assert g == g[..3] + [g[3]];
    hide Symbols, Bits;
    assert Filled(g, 1) == g[..3] + [Symbol(0)];
    assert EncodeGroup(b + [0]) == symbols;
    if Filled(g, 1) == symbols { assert g[..3] == Filled(g, 1)[..3]; }
    if g == EncodeGroup(b) { assert g[2] == symbols[2]; }
  }

  lemma TopByte(n: nat)
    ensures n * 0x1_0000 % 64 == 0 && n * 0x1_0000 / 64 % 64 == 0
  {
    assert n * 0x1_0000 == n * 1024 * 64;
    assert n * 0x1_0000 / 64 == n * 16 * 64;
  }

  lemma TwoPads(g: seq<byte>, b: seq<byte>)
    requires |g| == 4 && |b| == 1
    ensures g == EncodeGroup(b) <==> Padding(g) == 2 && Filled(g, 2) == EncodeGroup(b + [0, 0])
  {
    PaddingOf4(g);
    var bits := Bits(b + [0, 0]);
    NotPadding(bits / 0x1000 % 64);
    var symbols := Symbols(bits);
    TopByte(b[0] as nat);
    assert symbols == symbols[..2] + [Symbol(0), Symbol(0)];
    assert g == g[..2] + [g[2], g[3]];
    hide Symbols, Bits;
    assert Filled(g, 2) == g[..2] + [Symbol(0), Symbol(0)];
    assert EncodeGroup(b + [0, 0]) == symbols;
    if Filled(g, 2) == symbols { assert g[..2] == Filled(g, 2)[..2]; }
    if g == EncodeGroup(b) { assert g[1] == symbols[1]; }
  }

  /** Padding stands exactly for the zero symbols of the filled-up bytes. */
  lemma PaddedExact(g: seq<byte>, b: seq<byte>)
    requires |g| == 4 && 1 <= |b| <= 3
    ensures var padding := 3 - |b|;
            g == EncodeGroup(b) <==> Padding(g) == padding && Filled(g, padding) == EncodeGroup(b + Zeros(padding))
  {
    if |b| == 1 {
      TwoPads(g, b);
    } else if |b| == 2 {
      OnePad(g, b);
    } else {
      PaddingOf4(g);
      NotPadding(Bits(b) % 64);
      assert b + Zeros(0) == b && Filled(g, 0) == g;
    }
  }

  /** A group is accepted exactly when it encodes one to three bytes, fewer than three only
      at the end, and it is decoded to those bytes. */
  lemma GroupExact(g: seq<byte>, last: bool, b: seq<byte>)
    requires |g| == 4
    ensures DecodeGroup(g, last) == Some(b) <==>
            1 <= |b| <= 3 && (|b| == 3 || last) && g == EncodeGroup(b)
  {
    var padding := Padding(g);
    if padding <= 2 {
      FilledGroup(g, padding);
      if |b| == 3 - padding {
        hide EncodeGroup, Value, Filled, Padding;
        PaddedExact(g, b);
        var full := b + Zeros(padding);
        FullGroup(Filled(g, padding), full);
        ZeroTail(g, last, b);
      } else if 1 <= |b| <= 3 {
        PaddedExact(g, b);
      }
    } else if 1 <= |b| <= 3 {
      PaddedExact(g, b);
    }
  }

  lemma ZeroTail(g: seq<byte>, last: bool, b: seq<byte>)
    requires |g| == 4 && Padding(g) <= 2 && |b| == 3 - Padding(g)
    ensures var padding := Padding(g);
            DecodeGroup(g, last) == Some(b) <==>
            && (padding == 0 || last) && Value(g[..4 - padding]).Some?
            && Bytes(Value(g[..4 - padding]).value * Pow64(padding)) == b + Zeros(padding)
  {
    var padding := Padding(g);
    if Value(g[..4 - padding]).Some? {
      var bytes := Bytes(Value(g[..4 - padding]).value * Pow64(padding));
      assert bytes == bytes[..3 - padding] + bytes[3 - padding..];
    }
  }

  // ---- whole texts ----

  lemma {:induction false} EncodedLength(b: seq<byte>)
    ensures |Encode(b)| % 4 == 0 && (b == [] <==> Encode(b) == []) && (1 <= |b| <= 3 <==> |Encode(b)| == 4)
  {
    hide EncodeGroup;
    if |b| > 3 {
      EncodedLength(b[3..]);
      assert |Encode(b)| == 4 + |Encode(b[3..])|;
    }
  }

  /** The decoder is the exact inverse of the canonical encoding: an accepted text is the
      encoding of what it decodes to, and every non-empty encoding is accepted. So every
      key has one accepted text. */
  lemma {:induction false} DecodeExact(encoded: seq<byte>, b: seq<byte>)
    ensures Decode(encoded) == Some(b) <==> b != [] && encoded == Encode(b)
    decreases |encoded|
  {
    EncodedLength(b);
    if encoded != [] && |encoded| % 4 == 0 {
      if |encoded| == 4 {
        GroupExact(encoded, true, b);
      } else {
        hide DecodeGroup, EncodeGroup;
        if |b| > 3 {
          GroupExact(encoded[..4], false, b[..3]);
          DecodeExact(encoded[4..], b[3..]);
          assert b == b[..3] + b[3..];
          assert encoded == encoded[..4] + encoded[4..];
        }
        if Decode(encoded) == Some(b) {
          var first := DecodeGroup(encoded[..4], false).value;
          var rest := Decode(encoded[4..]).value;
          GroupExact(encoded[..4], false, first);
          DecodeExact(encoded[4..], rest);
          assert b[..3] == first && b[3..] == rest;
        }
      }
    }
  }

  function Prefixed(out: seq<byte>, rest: Option<seq<byte>>): Option<seq<byte>> {
    if rest.None? then None else Some(out + rest.value)
  }

  lemma PrefixedOn(out: seq<byte>, first: seq<byte>, rest: Option<seq<byte>>)
    ensures Prefixed([], rest) == rest
    ensures Prefixed(out, Prefixed(first, rest)) == Prefixed(out + first, rest)
  {
    if rest.Some? {
      assert [] + rest.value == rest.value;
      assert out + (first + rest.value) == out + first + rest.value;
    }
  }

  /** Group by group into one output. */
  method DecodeGroups(encoded: seq<byte>) returns (r: Option<seq<byte>>)
    ensures r == Decode(encoded)
  {
    hide DecodeGroup;
    if encoded == [] || |encoded| % 4 != 0 {
      return None;
    }
    var out: seq<byte> := [];
    var rest := encoded;
    PrefixedOn([], [], Decode(encoded));
    while rest != []
      invariant |rest| % 4 == 0
      invariant Decode(encoded) == if rest == [] then Some(out) else Prefixed(out, Decode(rest))
      decreases |rest|
    {
      var bytes := ReadGroup(rest[..4], |rest| == 4);
      assert |rest| == 4 ==> rest[..4] == rest;
      if bytes.None? {
        return None;
      }
      PrefixedOn(out, bytes.value, Decode(rest[4..]));
      out := out + bytes.value;
      rest := rest[4..];
    }
    return Some(out);
  }

  /** `decode_base64`. */
  method DecodeBase64(encoded: seq<byte>) returns (r: Option<seq<byte>>)
    ensures forall b :: r == Some(b) <==> b != [] && encoded == Encode(b)
  {
    r := DecodeGroups(encoded);
    forall b ensures r == Some(b) <==> b != [] && encoded == Encode(b) {
      DecodeExact(encoded, b);
    }
  }

  method CountPadding(group: seq<byte>) returns (padding: nat)
    requires |group| == 4
    ensures padding == Padding(group)
  {
    padding := 0;
    assert group[..4] == group;
    while padding < 4 && group[3 - padding] == PAD
      invariant 0 <= padding <= 4
      invariant Padding(group) == padding + Padding(group[..4 - padding])
    {
      assert group[..4 - padding][..3 - padding] == group[..3 - padding];
      padding := padding + 1;
    }
  }

  method ReadValue(symbols: seq<byte>) returns (r: Option<nat>)
    ensures r == Value(symbols)
  {
    var bits := 0;
    for i := 0 to |symbols|
      invariant Value(symbols[..i]) == Some(bits)
    {
      assert symbols[..i + 1][..i] == symbols[..i];
      var v := Sextet(symbols[i]);
      if v.None? {
        ValueNone(symbols, i + 1);
        return None;
      }
      bits := bits * 64 + v.value;
    }
    assert symbols[..|symbols|] == symbols;
    return Some(bits);
  }

  method ReadGroup(group: seq<byte>, last: bool) returns (r: Option<seq<byte>>)
    requires |group| == 4
    ensures r == DecodeGroup(group, last)
  {
    hide Value, Padding;
    var padding := CountPadding(group);
    if padding > 2 || (padding > 0 && !last) {
      return None;
    }
    var value := ReadValue(group[..4 - padding]);
    if value.None? {
      return None;
    }
    var bytes := Bytes(value.value * Pow64(padding));
    for i := 3 - padding to 3
      invariant forall k | 3 - padding <= k < i :: bytes[k] == 0
    {
      if bytes[i] != 0 {
        return None;
      }
    }
    return Some(bytes[..3 - padding]);
  }

  lemma {:induction false} ValueNone(g: seq<byte>, i: nat)
    requires i <= |g| && Value(g[..i]).None?
    ensures Value(g).None?
    decreases |g| - i
  {
    if i == |g| {
      assert g[..i] == g;
    } else {
      assert g[..i + 1][..i] == g[..i];
      ValueNone(g, i + 1);
    }
  }
}
