/** One-time codes, derived twice: in the vault helper and in the panel. */
module TotpModel {
  import opened Base
  import opened Base32Model
  import opened DecimalText

  // ---- derivation ----

  datatype Algorithm = Sha1 | Sha256 | Steam

  datatype Params = Params(algorithm: Algorithm, digits: nat, secret: seq<nat>)

  const STEAM: string := "23456789BCDFGHJKMNPQRTVWXY"

  /** HMAC with the algorithm's hash: a function of the secret and the message. */
  type Mac = (Algorithm, seq<nat>, seq<nat>) -> seq<nat>

  ghost predicate MacOk(mac: Mac) {
    forall a, secret, message :: IsHash(mac(a, secret, message), if a == Sha256 then 32 else 20)
  }

  predicate IsHash(h: seq<nat>, n: nat) {
    |h| == n && forall i | 0 <= i < |h| :: h[i] < 256
  }

  predicate ParamsOk(p: Params) {
    1 <= p.digits <= 9
  }

  function Byte(n: nat, unit: nat): nat
    requires unit > 0
  {
    n / unit % 256
  }

  /** `u64::to_be_bytes`. */
  function BigEndian(counter: nat): seq<nat> {
    [Byte(counter, 0x100_0000_0000_0000), Byte(counter, 0x1_0000_0000_0000), Byte(counter, 0x100_0000_0000),
     Byte(counter, 0x1_0000_0000), Byte(counter, 0x100_0000), Byte(counter, 0x1_0000), Byte(counter, 0x100),
     Byte(counter, 1)]
  }

  /** The panel's two halves, each shifted as 32 bits. */
  function TwoHalves(counter: nat): seq<nat> {
    var hi, lo := counter / 0x1_0000_0000 % 0x1_0000_0000, counter % 0x1_0000_0000;
    [Byte(hi, 0x100_0000), Byte(hi, 0x1_0000), Byte(hi, 0x100), Byte(hi, 1),
     Byte(lo, 0x100_0000), Byte(lo, 0x1_0000), Byte(lo, 0x100), Byte(lo, 1)]
  }

  /** The number these bytes spell, most significant first. */
  function FromBytes(bytes: seq<nat>): nat {
    if bytes == [] then 0 else FromBytes(bytes[..|bytes| - 1]) * 256 + bytes[|bytes| - 1]
  }

  lemma FromBytesNext(bytes: seq<nat>, b: nat)
    ensures FromBytes(bytes + [b]) == FromBytes(bytes) * 256 + b
  {
    assert (bytes + [b])[..|bytes|] == bytes;
  }

  /** One byte more. */
  lemma NextByte(counter: nat, unit: nat)
    requires unit > 0
    ensures counter / unit == counter / (256 * unit) * 256 + Byte(counter, unit)
  {
    DivideOn(counter, unit, counter / unit, counter % unit, 256);
  }

  /** Dividing twice is dividing once by the product. */
  lemma DivideOn(n: nat, unit: nat, q: nat, r: nat, m: nat)
    requires unit > 0 && m > 0 && n == unit * q + r && r < unit
    ensures m * unit > 0 && n / (m * unit) == q / m
  {
    var d, e := q / m, q % m;
    assert q == m * d + e;
    Regroup(unit, m, d, e);
    Apart(unit, m, e);
    Positive(m, unit);
    DivideUnique(n, m * unit, d, unit * e + r);
  }

  lemma Positive(a: nat, b: nat)
    requires a > 0 && b > 0
    ensures a * b > 0
  {
  }

  lemma Regroup(unit: nat, m: nat, d: nat, e: nat)
    ensures unit * (m * d + e) == m * unit * d + unit * e && unit * m == m * unit
  {
  }

  /** The bytes from the top down to this unit spell the counter divided by it. */
  predicate Spells(bytes: seq<nat>, counter: nat, unit: nat)
    requires unit > 0
  {
    FromBytes(bytes) == counter / unit
  }

  lemma SpellsNext(bytes: seq<nat>, counter: nat, unit: nat)
    requires unit > 0 && Spells(bytes, counter, 256 * unit)
    ensures Spells(bytes + [Byte(counter, unit)], counter, unit)
  {
    hide FromBytes, Byte;
    FromBytesNext(bytes, Byte(counter, unit));
    NextByte(counter, unit);
  }

  /** The eight bytes spell the counter. */
  lemma BigEndianReads(counter: nat)
    requires counter < 0x1_0000_0000_0000_0000
    ensures FromBytes(BigEndian(counter)) == counter
  {
    var b := BigEndian(counter);
    SpellsNothing();
    assert Spells([], counter, 0x1_0000_0000_0000_0000);
    hide FromBytes, Byte, Spells;
    SpellsNext([], counter, 0x100_0000_0000_0000);
    SpellsNext([] + [b[0]], counter, 0x1_0000_0000_0000);
    SpellsNext([] + [b[0]] + [b[1]], counter, 0x100_0000_0000);
    SpellsNext([] + [b[0]] + [b[1]] + [b[2]], counter, 0x1_0000_0000);
    SpellsNext(b[..4], counter, 0x100_0000) by { assert b[..4] == [] + [b[0]] + [b[1]] + [b[2]] + [b[3]]; }
    SpellsNext(b[..5], counter, 0x1_0000) by { assert b[..5] == b[..4] + [b[4]]; }
    SpellsNext(b[..6], counter, 0x100) by { assert b[..6] == b[..5] + [b[5]]; }
    SpellsNext(b[..7], counter, 1) by { assert b[..7] == b[..6] + [b[6]]; }
    assert b == b[..7] + [b[7]];
    SpellsAll(b, counter);
  }

  lemma SpellsAll(bytes: seq<nat>, counter: nat)
    requires Spells(bytes, counter, 1)
    ensures FromBytes(bytes) == counter
  {
    hide FromBytes;
  }

  lemma SpellsNothing()
    ensures FromBytes([]) == 0
  {
  }

  /** Below 2^53, where the panel's numbers are exact, they are the same eight bytes. */
  lemma SameTime(counter: nat)
    requires counter < 0x20_0000_0000_0000
    ensures TwoHalves(counter) == BigEndian(counter)
  {
    var hi, lo := counter / 0x1_0000_0000, counter % 0x1_0000_0000;
    assert counter == hi * 0x1_0000_0000 + lo;
    SmallHigh(counter);
    HighBytes(counter, hi, lo);
    TopLowByte(counter, hi, lo);
    MiddleLowByte(counter, hi, lo);
    LastBytes(counter, hi, lo);
  }

  lemma SmallHigh(counter: nat)
    requires counter < 0x20_0000_0000_0000
    ensures counter / 0x1_0000_0000 % 0x1_0000_0000 == counter / 0x1_0000_0000
  {
    assert counter / 0x1_0000_0000 < 0x20_0000;
  }

  lemma HighBytes(counter: nat, hi: nat, lo: nat)
    requires counter == hi * 0x1_0000_0000 + lo && lo < 0x1_0000_0000
    ensures Byte(counter, 0x100_0000_0000_0000) == Byte(hi, 0x100_0000)
    ensures Byte(counter, 0x1_0000_0000_0000) == Byte(hi, 0x1_0000)
    ensures Byte(counter, 0x100_0000_0000) == Byte(hi, 0x100)
    ensures Byte(counter, 0x1_0000_0000) == Byte(hi, 1)
  {
    assert counter / 0x100_0000_0000_0000 == hi / 0x100_0000;
    assert counter / 0x1_0000_0000_0000 == hi / 0x1_0000;
    assert counter / 0x100_0000_0000 == hi / 0x100;
    assert counter / 0x1_0000_0000 == hi;
  }

  lemma TopLowByte(counter: nat, hi: nat, lo: nat)
    requires counter == hi * 0x1_0000_0000 + lo && lo < 0x1_0000_0000
    ensures Byte(counter, 0x100_0000) == Byte(lo, 0x100_0000)
  {
    var y := lo / 0x100_0000;
    assert counter == (hi * 256 + y) * 0x100_0000 + lo % 0x100_0000;
    assert counter / 0x100_0000 == hi * 256 + y;
  }

  lemma MiddleLowByte(counter: nat, hi: nat, lo: nat)
    requires counter == hi * 0x1_0000_0000 + lo && lo < 0x1_0000_0000
    ensures Byte(counter, 0x1_0000) == Byte(lo, 0x1_0000)
  {
    var y := lo / 0x1_0000;
    QuotientBack(hi * 0x1_0000 + y, lo % 0x1_0000);
    LowByteOf(hi * 256, y);
  }

  lemma QuotientBack(a: nat, r: nat)
    requires r < 0x1_0000
    ensures (a * 0x1_0000 + r) / 0x1_0000 == a
  {
  }

  lemma LowByteOf(a: nat, y: nat)
    ensures (a * 256 + y) % 256 == y % 256
  {
  }

  lemma LastBytes(counter: nat, hi: nat, lo: nat)
    requires counter == hi * 0x1_0000_0000 + lo && lo < 0x1_0000_0000
    ensures Byte(counter, 0x100) == Byte(lo, 0x100) && Byte(counter, 1) == Byte(lo, 1)
  {
    var y := lo / 256;
    assert counter == (hi * 0x100_0000 + y) * 256 + lo % 256;
    assert counter / 256 == hi * 0x1_0000 * 256 + y;
  }

  /** Dynamic truncation (section 5.3 of RFC 4226): 31 bits from where the last byte points. */
  function Truncate(hash: seq<nat>): (n: nat)
    requires |hash| >= 20 && IsHash(hash, |hash|)
    ensures n < 0x8000_0000
  {
    var at := hash[|hash| - 1] % 16;
    hash[at] % 128 * 0x100_0000 + hash[at + 1] * 0x1_0000 + hash[at + 2] * 0x100 + hash[at + 3]
  }

  /** Shift left. */
  function Shl(x: nat, n: nat): nat {
    if n == 0 then x else 2 * Shl(x, n - 1)
  }

  /** Bitwise or. */
  function Or(x: nat, y: nat): nat {
    if x == 0 then y
    else if y == 0 then x
    else 2 * Or(x / 2, y / 2) + if x % 2 == 1 || y % 2 == 1 then 1 else 0
  }

  /** The helper's number: four shifted bytes, joined by or. */
  function OrBinary(hash: seq<nat>): nat
    requires |hash| >= 20 && IsHash(hash, |hash|)
  {
    var at := hash[|hash| - 1] % 16;
    Or(Or(Or(Shl(hash[at] % 128, 24), Shl(hash[at + 1], 16)), Shl(hash[at + 2], 8)), hash[at + 3])
  }

  /** The panel's: one product and two shifts, added up. */
  function SumBinary(hash: seq<nat>): nat
    requires |hash| >= 20 && IsHash(hash, |hash|)
  {
    var at := hash[|hash| - 1] % 16;
    hash[at] % 128 * 0x100_0000 + Shl(hash[at + 1], 16) + Shl(hash[at + 2], 8) + hash[at + 3]
  }

  lemma ShlEight(x: nat)
    ensures Shl(x, 8) == x * 256
  {
    assert Shl(x, 8) == 2 * Shl(x, 7) == 4 * Shl(x, 6) == 8 * Shl(x, 5) == 16 * Shl(x, 4);
    assert Shl(x, 4) == 2 * Shl(x, 3) == 4 * Shl(x, 2) == 8 * Shl(x, 1) == 16 * Shl(x, 0);
  }

  lemma {:induction false} ShlTwice(x: nat, m: nat, n: nat)
    ensures Shl(Shl(x, m), n) == Shl(x, m + n)
  {
    if n > 0 { ShlTwice(x, m, n - 1); }
  }

  /** Or of bits that do not overlap is their sum. */
  lemma {:induction false} OrIsSum(x: nat, n: nat, y: nat)
    requires y < Shl(1, n)
    ensures Or(Shl(x, n), y) == Shl(x, n) + y
  {
    if n > 0 && x > 0 && y > 0 {
      ShlPositive(x, n - 1);
      OrIsSum(x, n - 1, y / 2);
    } else if x == 0 {
      ShlZero(n);
    }
  }

  lemma {:induction false} ShlZero(n: nat)
    ensures Shl(0, n) == 0
  {
    if n > 0 { ShlZero(n - 1); }
  }

  lemma {:induction false} ShlPositive(x: nat, n: nat)
    requires x > 0
    ensures Shl(x, n) > 0
  {
    if n > 0 { ShlPositive(x, n - 1); }
  }

  /** Both ways of putting the four bytes together give the truncated number. */
  lemma BinariesAgree(hash: seq<nat>)
    requires |hash| >= 20 && IsHash(hash, |hash|)
    ensures OrBinary(hash) == Truncate(hash) == SumBinary(hash)
  {
    var at := hash[|hash| - 1] % 16;
    FourBytes(hash[at] % 128, hash[at + 1], hash[at + 2], hash[at + 3]);
  }

  lemma FourBytes(a: nat, b: nat, c: nat, d: nat)
    requires a < 128 && b < 256 && c < 256 && d < 256
    ensures Or(Or(Or(Shl(a, 24), Shl(b, 16)), Shl(c, 8)), d) == a * 0x100_0000 + b * 0x1_0000 + c * 0x100 + d
    ensures Shl(b, 16) == b * 0x1_0000 && Shl(c, 8) == c * 0x100
  {
    hide Or, Shl;
    ShlWide(1);
    ShlWide(a);
    ShlWide(b);
    ShlWide(c);
    OrIsSum(a, 24, Shl(b, 16));
    OrNext(a * 256 + b, c, d);
  }

  lemma OrNext(ab: nat, c: nat, d: nat)
    requires c < 256 && d < 256
    ensures Or(Or(ab * 0x1_0000, Shl(c, 8)), d) == ab * 0x1_0000 + c * 256 + d
  {
    hide Or, Shl;
    ShlWide(1);
    ShlWide(ab);
    ShlWide(c);
    OrIsSum(ab, 16, Shl(c, 8));
    var abc := ab * 256 + c;
    ShlWide(abc);
    assert abc * 256 == ab * 0x1_0000 + c * 256;
    OrIsSum(abc, 8, d);
  }

  lemma ShlWide(x: nat)
    ensures Shl(x, 8) == x * 256 && Shl(x, 16) == x * 0x1_0000 && Shl(x, 24) == x * 0x100_0000
  {
    hide Shl;
    ShlEight(x);
    ShlTwice(x, 8, 8);
    ShlEight(x * 256);
    ShlTwice(x, 16, 8);
    ShlEight(x * 0x1_0000);
  }

  // ---- printing ----

  /** Padded on the left. */
  function Padded(text: string, width: nat): string
    decreases width - |text|
  {
    if |text| >= width then text else Padded("0" + text, width)
  }

  lemma {:induction false} ZeroReads(text: string)
    ensures ReadDecimal("0" + text) == ReadDecimal(text)
  {
    if text == "" {
      assert ("0" + text)[..0] == "";
    } else {
      ZeroReads(text[..|text| - 1]);
      assert ("0" + text)[..|text|] == "0" + text[..|text| - 1];
    }
  }

  lemma {:induction false} PaddedReads(text: string, width: nat)
    ensures ReadDecimal(Padded(text, width)) == ReadDecimal(text)
    ensures |Padded(text, width)| == if |text| >= width then |text| else width
    decreases width - |text|
  {
    if |text| < width {
      ZeroReads(text);
      PaddedReads("0" + text, width);
    }
  }

  /** A decimal code has exactly the digits asked for and reads as the truncated hash modulo
      that power of ten. */
  lemma CodeExact(n: nat, digits: nat)
    requires digits >= 1
    ensures Pow10(digits) > 0
    ensures var code := Padded(Decimal(n % Pow10(digits)), digits);
            |code| == digits && ReadDecimal(code) == Some(n % Pow10(digits))
  {
    Pow10Positive(digits);
    var m := n % Pow10(digits);
    DecimalFits(m, digits);
    DecimalReads(m);
    PaddedReads(Decimal(m), digits);
  }

  /** A Steam code: the base-26 digits of the number, least significant first. */
  function SteamCode(n: nat, digits: nat): string {
    if digits == 0 then "" else [SteamChar(n % 26)] + SteamCode(n / 26, digits - 1)
  }

  function SteamChar(v: nat): char
    requires v < 26
  {
    assert |STEAM| == 26;
    STEAM[v]
  }

  function Pow26(n: nat): (r: nat)
    ensures r > 0
  {
    if n == 0 then 1 else 26 * Pow26(n - 1)
  }

  lemma DivideOnce(n: nat, i: nat)
    ensures n / 26 / Pow26(i) == n / Pow26(i + 1)
  {
    DivideOn(n, 26, n / 26, n % 26, Pow26(i));
  }

  lemma DivideUnique(n: nat, m: nat, d: nat, r: nat)
    requires m > 0 && n == m * d + r && r < m
    ensures n / m == d
  {
    var e, rest := n / m, n % m;
    assert n == m * e + rest;
    if e > d { Apart(m, e, d); }
    if d > e { Apart(m, d, e); }
  }

  lemma {:induction false} Apart(m: nat, a: nat, b: nat)
    requires a > b
    ensures m * a >= m * b + m
  {
    if a > b + 1 { Apart(m, a - 1, b); }
    assert m * a == m * (a - 1) + m;
  }

  /** A Steam code has exactly the digits asked for: character i is the alphabet's at the
      number divided by 26 to the i, modulo 26. */
  lemma {:induction false} SteamCodeExact(n: nat, digits: nat)
    ensures |SteamCode(n, digits)| == digits
    ensures forall i | 0 <= i < digits ::
              SteamCode(n, digits)[i] == "23456789BCDFGHJKMNPQRTVWXY"[n / Pow26(i) % 26]
  {
    if digits > 0 {
      SteamCodeExact(n / 26, digits - 1);
      forall i | 0 <= i < digits ensures SteamCode(n, digits)[i] == "23456789BCDFGHJKMNPQRTVWXY"[n / Pow26(i) % 26] {
        if i == 0 {
          assert Pow26(0) == 1 && n / Pow26(0) == n;
          assert SteamCode(n, digits)[0] == SteamChar(n % 26);
        } else {
          DivideOnce(n, i - 1);
          assert SteamCode(n, digits)[i] == SteamCode(n / 26, digits - 1)[i - 1];
        }
      }
    }
  }

  method SteamDigits(n: nat, digits: nat) returns (code: string)
    ensures code == SteamCode(n, digits)
  {
    hide SteamChar;
    var full := n;
    code := "";
    for i := 0 to digits
      invariant code + SteamCode(full, digits - i) == SteamCode(n, digits)
    {
      code := code + [SteamChar(full % 26)];
      full := full / 26;
    }
  }

  /** The code for a counter, as both are meant to derive it. */
  function Code(p: Params, hash: seq<nat>): string
    requires ParamsOk(p) && |hash| >= 20 && IsHash(hash, |hash|)
  {
    var binary := Truncate(hash);
    if p.algorithm == Steam then SteamCode(binary, p.digits)
    else
      Pow10Positive(p.digits);
      Padded(Decimal(binary % Pow10(p.digits)), p.digits)
  }

  /** The vault helper's derivation. */
  method Derive(p: Params, counter: nat, mac: Mac) returns (code: string)
    requires ParamsOk(p) && MacOk(mac)
    ensures IsHash(mac(p.algorithm, p.secret, BigEndian(counter)), if p.algorithm == Sha256 then 32 else 20)
    ensures code == Code(p, mac(p.algorithm, p.secret, BigEndian(counter)))
    ensures |code| == p.digits
  {
    var hash := mac(p.algorithm, p.secret, BigEndian(counter));
    assert IsHash(hash, if p.algorithm == Sha256 then 32 else 20);
    BinariesAgree(hash);
    var binary := OrBinary(hash);
    CodeExact(binary, p.digits);
    if p.algorithm == Steam {
      SteamCodeExact(binary, p.digits);
      code := SteamDigits(binary, p.digits);
      return;
    }
    code := Padded(Decimal(binary % Pow10(p.digits)), p.digits);
  }

  /** The panel's, which pads in a loop. */
  method DeriveOtp(p: Params, counter: nat, mac: Mac) returns (code: string)
    requires ParamsOk(p) && MacOk(mac)
    ensures IsHash(mac(p.algorithm, p.secret, TwoHalves(counter)), if p.algorithm == Sha256 then 32 else 20)
    ensures code == Code(p, mac(p.algorithm, p.secret, TwoHalves(counter)))
    ensures |code| == p.digits
  {
    var hash := mac(p.algorithm, p.secret, TwoHalves(counter));
    assert IsHash(hash, if p.algorithm == Sha256 then 32 else 20);
    BinariesAgree(hash);
    var binary := SumBinary(hash);
    CodeExact(binary, p.digits);
    if p.algorithm == Steam {
      SteamCodeExact(binary, p.digits);
      code := SteamDigits(binary, p.digits);
      return;
    }
    code := Decimal(binary % Pow10(p.digits));
    while |code| < p.digits
      invariant Padded(code, p.digits) == Padded(Decimal(binary % Pow10(p.digits)), p.digits)
      invariant |code| <= p.digits || code == Decimal(binary % Pow10(p.digits))
      decreases p.digits - |code|
    {
      code := "0" + code;
    }
  }

  /** For the same secret, hash and counter the two give the same code, of exactly the digits
      asked for, whenever the two decoders give the same bytes. */
  method BothAgree(bytes: seq<byte>, text: string, up: char -> string, algorithm: Algorithm, digits: nat, counter: nat,
                   mac: Mac)
      returns (helper: string, panel: string)
    requires 1 <= digits <= 9 && MacOk(mac) && counter < 0x20_0000_0000_0000
    requires bytes == Utf8Text(text)
    requires UpperLaw(up) && (NoStrays(text, up) || Lost(text, up))
    ensures helper == panel && |helper| == digits
  {
    SameTime(counter);
    SameSecretExactly(text, up);
    var secret := Base32(bytes);
    helper := Derive(Params(algorithm, digits, secret), counter, mac);
    var decoded := DecodeBase32(text, up);
    panel := DeriveOtp(Params(algorithm, digits, decoded), counter, mac);
  }

  /** The code both derive from a decoded secret. */
  ghost function CodeFor(algorithm: Algorithm, digits: nat, secret: seq<nat>, counter: nat, mac: Mac): string
    requires 1 <= digits <= 9 && MacOk(mac)
  {
    var hash := mac(algorithm, secret, BigEndian(counter));
    assert IsHash(hash, if algorithm == Sha256 then 32 else 20);
    Code(Params(algorithm, digits, secret), hash)
  }

  /** Whatever the hash function, the two secrets give the same code. */
  ghost predicate SameCodes(a: seq<nat>, b: seq<nat>, algorithm: Algorithm, digits: nat, counter: nat)
    requires 1 <= digits <= 9
  {
    forall mac | MacOk(mac) ::
      CodeFor(algorithm, digits, a, counter, mac) == CodeFor(algorithm, digits, b, counter, mac)
  }

  function HashOf(n: nat, v: nat): (h: seq<nat>)
    requires n >= 20 && v < 256
    ensures IsHash(h, n)
  {
    seq(n, i => if i == 3 then v else 0)
  }

  /** A hash function that tells `secret` from all others. */
  function Telling(secret: seq<nat>): Mac {
    (a: Algorithm, s: seq<nat>, message: seq<nat>) =>
      HashOf(if a == Sha256 then 32 else 20, if s == secret then 0 else 1)
  }

  lemma CodesApart(algorithm: Algorithm, digits: nat, n: nat, p: Params)
    requires 1 <= digits <= 9 && n >= 20 && p.algorithm == algorithm && p.digits == digits
    ensures Code(p, HashOf(n, 0)) != Code(p, HashOf(n, 1))
  {
    hide Truncate, HashOf, SteamCode, Padded, Pow10, ReadDecimal, Decimal;
    TruncatesTo(n, 0);
    TruncatesTo(n, 1);
    if algorithm == Steam { SteamApart(digits); } else { DecimalApart(digits); }
  }

  lemma TruncatesTo(n: nat, v: nat)
    requires n >= 20 && v < 256
    ensures Truncate(HashOf(n, v)) == v
  {
  }

  lemma SteamApart(digits: nat)
    requires digits >= 1
    ensures SteamCode(0, digits) != SteamCode(1, digits)
  {
    assert SteamCode(0, digits)[0] == SteamChar(0) && SteamCode(1, digits)[0] == SteamChar(1);
  }

  lemma DecimalApart(digits: nat)
    requires digits >= 1
    ensures Pow10(digits) > 0
    ensures Padded(Decimal(0 % Pow10(digits)), digits) != Padded(Decimal(1 % Pow10(digits)), digits)
  {
    hide Padded, ReadDecimal, Decimal;
    Pow10Positive(digits - 1);
    CodeExact(0, digits);
    CodeExact(1, digits);
    SmallRemainder(Pow10(digits));
  }

  lemma SmallRemainder(m: nat)
    requires m >= 2
    ensures 0 % m == 0 && 1 % m == 1
  {
  }

  /** The codes agree for every hash function if and only if the two decoders give the same
      bytes. */
  lemma CodesAgreeExactly(text: string, up: char -> string, algorithm: Algorithm, digits: nat, counter: nat)
    requires 1 <= digits <= 9 && UpperLaw(up)
    ensures var helper := Bytes(Groups(UpperAll(ByteText(Utf8Text(text)))));
            var panel := Bytes(Groups(UpperText(text, up)));
            SameCodes(helper, panel, algorithm, digits, counter) <==> NoStrays(text, up) || Lost(text, up)
  {
    hide Code, Bytes, Groups, UpperAll, UpperText, Utf8Text, ByteText, NoStrays, Lost, BigEndian, HashOf;
    SameSecretExactly(text, up);
    var a, b := Bytes(Groups(UpperAll(ByteText(Utf8Text(text))))), Bytes(Groups(UpperText(text, up)));
    if a != b {
      var mac := Telling(a);
      assert MacOk(mac);
      CodesApart(algorithm, digits, if algorithm == Sha256 then 32 else 20, Params(algorithm, digits, a));
      CodeIgnoresSecret(algorithm, digits, a, b, HashOf(if algorithm == Sha256 then 32 else 20, 1));
      assert CodeFor(algorithm, digits, a, counter, mac) != CodeFor(algorithm, digits, b, counter, mac);
    }
  }

  lemma CodeIgnoresSecret(algorithm: Algorithm, digits: nat, a: seq<nat>, b: seq<nat>, hash: seq<nat>)
    requires 1 <= digits <= 9 && |hash| >= 20 && IsHash(hash, |hash|)
    ensures Code(Params(algorithm, digits, a), hash) == Code(Params(algorithm, digits, b), hash)
  {
  }

  /** An ASCII secret is always one of them. */
  lemma AsciiHasNoStrays(text: string, up: char -> string)
    requires UpperLaw(up) && IsAscii(text)
    ensures NoStrays(text, up)
    ensures Bytes(Groups(UpperText(text, up))) == Bytes(Groups(UpperAll(ByteText(Utf8Text(text)))))
  {
    SameSecretExactly(text, up);
  }
}
