/** Big-endian 32-bit integers and the strings they prefix (section 5 of RFC 4251). */
module LengthPrefix {
  import opened Base

  const TWO32: nat := 0x1_0000_0000

  function Ascii(text: string): seq<byte>
    requires forall i | 0 <= i < |text| :: text[i] < 128 as char
  {
    seq(|text|, i requires 0 <= i < |text| => text[i] as byte)
  }

  function U32(n: nat): (r: seq<byte>)
    requires n < TWO32
    ensures |r| == 4
  {
    [(n / 0x100_0000) as byte, (n / 0x1_0000 % 256) as byte, (n / 0x100 % 256) as byte, (n % 256) as byte]
  }

  function FromU32(s: seq<byte>): nat
    requires |s| >= 4
  {
    s[0] as nat * 0x100_0000 + s[1] as nat * 0x1_0000 + s[2] as nat * 0x100 + s[3] as nat
  }

  function Str(b: seq<byte>): seq<byte>
    requires |b| < TWO32
  {
    U32(|b|) + b
  }

  function ReadU32(s: seq<byte>): Option<(nat, seq<byte>)> {
    if |s| < 4 then None else Some((FromU32(s), s[4..]))
  }

  function ReadByte(s: seq<byte>): Option<(byte, seq<byte>)> {
    if s == [] then None else Some((s[0], s[1..]))
  }

  function ReadString(s: seq<byte>): Option<(seq<byte>, seq<byte>)> {
    if |s| < 4 then None
    else
      var n := FromU32(s);
      if n > |s| - 4 then None else Some((s[4..4 + n], s[4 + n..]))
  }

  lemma U32RoundTrip(n: nat, rest: seq<byte>)
    requires n < TWO32
    ensures FromU32(U32(n) + rest) == n
    ensures (U32(n) + rest)[4..] == rest
  {
    U32Digits(n);
    var s := U32(n) + rest;
    assert s[0] == U32(n)[0] && s[1] == U32(n)[1] && s[2] == U32(n)[2] && s[3] == U32(n)[3];
    hide U32;
  }

  /** The four bytes spell the number, most significant first. */
  lemma U32Digits(n: nat)
    requires n < TWO32
    ensures FromU32(U32(n)) == n
    ensures var b := U32(n);
            n == ((b[0] as nat * 256 + b[1] as nat) * 256 + b[2] as nat) * 256 + b[3] as nat
  {
    assert n / 0x100 == n / 0x1_0000 * 0x100 + n / 0x100 % 256;
    assert n / 0x1_0000 == n / 0x100_0000 * 0x100 + n / 0x1_0000 % 256;
  }

  lemma FromU32Exact(s: seq<byte>)
    requires |s| >= 4
    ensures FromU32(s) < TWO32 && U32(FromU32(s)) == s[..4]
  {
    var a, b, c, d := s[0] as nat, s[1] as nat, s[2] as nat, s[3] as nat;
    var n := FromU32(s);
    assert n / 0x100 == a * 0x1_0000 + b * 0x100 + c;
    assert n / 0x1_0000 == a * 0x100 + b;
    assert n / 0x100_0000 == a;
  }

  /** A string is read exactly from its encoding. */
  lemma ReadStringExact(s: seq<byte>, v: seq<byte>, rest: seq<byte>)
    ensures ReadString(s) == Some((v, rest)) <==> |v| < TWO32 && s == Str(v) + rest
  {
    if |v| < TWO32 && s == Str(v) + rest {
      U32RoundTrip(|v|, v + rest);
      assert s == U32(|v|) + (v + rest);
      assert FromU32(s) == |v|;
      assert s[4..4 + |v|] == v;
      assert s[4 + |v|..] == rest;
    }
    if ReadString(s) == Some((v, rest)) {
      FromU32Exact(s);
      assert s == s[..4] + s[4..4 + |v|] + s[4 + |v|..];
    }
  }

  lemma ReadU32Exact(s: seq<byte>, n: nat, rest: seq<byte>)
    ensures ReadU32(s) == Some((n, rest)) <==> n < TWO32 && s == U32(n) + rest
  {
    if n < TWO32 && s == U32(n) + rest { U32RoundTrip(n, rest); }
    if ReadU32(s) == Some((n, rest)) {
      FromU32Exact(s);
      assert s == s[..4] + s[4..];
    }
  }

  lemma ReadByteExact(s: seq<byte>, b: byte, rest: seq<byte>)
    ensures ReadByte(s) == Some((b, rest)) <==> s == [b] + rest
  {
    if s != [] { assert s == [s[0]] + s[1..]; }
  }
}
