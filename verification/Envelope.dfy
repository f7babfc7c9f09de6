/** The quick-unlock envelope: one data key, wrapped once per way of unlocking.

    Cryptography is symbolic. A box opens with the key and associated data it was sealed
    with and no others; HKDF gives a key per (input, info). The associated data and the
    HKDF info are real bytes, so that distinct fields bind distinctly has to be proved. */
module EnvelopeModel {
  import opened Base
  import opened DecimalText
  import opened LengthPrefix
  import Base64Model

  type Bytes = seq<byte>

  datatype Error = Malformed | Policy | AccountMismatch | WrongKey | Missing

  datatype Result<+T> = Ok(value: T) | Err(error: Error) {
    predicate IsFailure() {
      Err?
    }

    function PropagateFailure<U>(): Result<U>
      requires Err?
    {
      Err(error)
    }

    function Extract(): T
      requires Ok?
    {
      value
    }
  }

  const MAX_PASSWORD_BYTES: nat := 4096
  const MAX_FIDO_WRAPS: nat := 16
  const MAX_TEXT_CHARS: nat := 1024
  const ARGON2_MIN_MEMORY_KIB: nat := 64 * 1024
  const ARGON2_MIN_ITERATIONS: nat := 3
  const PIN_ARGON2_MIN_MEMORY_KIB: nat := 256 * 1024
  const PIN_ARGON2_MIN_ITERATIONS: nat := 4
  const ARGON2_MAX_MEMORY_KIB: nat := 4 * 1024 * 1024
  const ARGON2_MAX_ITERATIONS: nat := 64
  const ARGON2_MAX_PARALLELISM: nat := 16
  const ARGON2_SALT_MIN_CHARS: nat := 22
  const ARGON2_SALT_MAX_CHARS: nat := 64
  const FIDO_SALT_LEN: nat := 32
  const MAX_CREDENTIAL_BYTES: nat := 1024

  const DOMAIN: Bytes := Ascii("qs-bitwarden-unlock-v1")
  const ARGON2ID: Bytes := Ascii("argon2id")
  const PASSWORD: Bytes := Ascii("password")
  const WRAP: Bytes := Ascii("wrap")
  const MASTER: Bytes := Ascii("master")
  const PIN: Bytes := Ascii("pin")
  const FIDO: Bytes := Ascii("fido")

  // ---- symbolic cryptography ----

  datatype Key = Random(serial: nat) | Derived(input: Bytes, info: Bytes)

  datatype Plain = Secret(bytes: Bytes) | Wrapped(key: Key)

  datatype Sealed = Sealed(key: Key, aad: Bytes, plain: Plain)

  function Unseal(box: Sealed, key: Key, aad: Bytes): Result<Plain> {
    if box.key == key && box.aad == aad then Ok(box.plain) else Err(WrongKey)
  }

  function Kek(input: Bytes, purpose: Bytes): Key {
    Derived(input, DOMAIN + (Ascii(" kek ") + purpose))
  }

  /** One key per purpose. */
  lemma KekExact(input: Bytes, purpose: Bytes, input': Bytes, purpose': Bytes)
    ensures Kek(input, purpose) == Kek(input', purpose') <==> input == input' && purpose == purpose'
  {
    if Kek(input, purpose) == Kek(input', purpose') {
      AppendExact(DOMAIN, Ascii(" kek ") + purpose, Ascii(" kek ") + purpose');
      AppendExact(Ascii(" kek "), purpose, purpose');
    }
  }

  lemma AppendExact(head: Bytes, a: Bytes, b: Bytes)
    ensures head + a == head + b <==> a == b
  {
    assert (head + a)[|head|..] == a && (head + b)[|head|..] == b;
  }

  // ---- associated data ----

  /** A part behind its length, clamped to 32 bits. */
  function Prefixed(part: Bytes): Bytes {
    U32(Min(|part|, TWO32 - 1)) + part
  }

  function Parts(parts: seq<Bytes>): Bytes {
    if parts == [] then [] else Prefixed(parts[0]) + Parts(parts[1..])
  }

  function Aad(parts: seq<Bytes>): Bytes {
    DOMAIN + Parts(parts)
  }

  predicate AllShort(parts: seq<Bytes>) {
    forall i | 0 <= i < |parts| :: |parts[i]| < TWO32
  }

  lemma {:induction false} PartsInjective(xs: seq<Bytes>, ys: seq<Bytes>)
    requires AllShort(xs) && AllShort(ys) && Parts(xs) == Parts(ys)
    ensures xs == ys
  {
    if xs != [] && ys != [] {
      ReadStringExact(Parts(xs), xs[0], Parts(xs[1..]));
      ReadStringExact(Parts(ys), ys[0], Parts(ys[1..]));
      PartsInjective(xs[1..], ys[1..]);
      assert xs == [xs[0]] + xs[1..] && ys == [ys[0]] + ys[1..];
    }
  }

  /** Distinct lists of parts bind distinctly, as long as every part is under 4 GiB. */
  lemma AadInjective(xs: seq<Bytes>, ys: seq<Bytes>)
    requires AllShort(xs) && AllShort(ys)
    ensures Aad(xs) == Aad(ys) <==> xs == ys
  {
    if Aad(xs) == Aad(ys) {
      AppendExact(DOMAIN, Parts(xs), Parts(ys));
      PartsInjective(xs, ys);
    }
  }

  // ---- when the encoding is ambiguous ----

  /** The length of a part this long is clamped, or reads like a clamped one. */
  predicate Clamped(part: Bytes) {
    |part| >= TWO32 - 1
  }

  /** A different list of parts is encoded the same. */
  ghost predicate Ambiguous(xs: seq<Bytes>) {
    exists ys :: ys != xs && Aad(ys) == Aad(xs)
  }

  ghost predicate SplitsAs(part: Bytes, at: nat, rest: seq<Bytes>) {
    TWO32 - 1 <= at <= |part| && rest != [] && part[at..] == Parts(rest)
  }

  /** The end of the part itself reads as further parts. */
  ghost predicate Splits(part: Bytes) {
    exists at: nat, rest :: SplitsAs(part, at, rest)
  }

  /** A clamped part followed by others, or a last one whose end reads as further parts. */
  ghost predicate Swallows(xs: seq<Bytes>) {
    || (exists i :: 0 <= i < |xs| - 1 && Clamped(xs[i]))
    || (xs != [] && Splits(xs[|xs| - 1]))
  }

  lemma {:induction false} PartsOn(xs: seq<Bytes>, ys: seq<Bytes>)
    ensures Parts(xs + ys) == Parts(xs) + Parts(ys)
  {
    hide U32, Prefixed;
    if xs == [] {
      assert xs + ys == ys;
    } else {
      PartsOn(xs[1..], ys);
      assert (xs + ys)[1..] == xs[1..] + ys;
      assert Parts(xs + ys) == Prefixed(xs[0]) + (Parts(xs[1..]) + Parts(ys));
    }
  }

  lemma PartsOfOne(x: Bytes)
    ensures Parts([x]) == Prefixed(x)
  {
    assert [x][1..] == [];
  }

  lemma PartsLonger(rest: seq<Bytes>)
    requires rest != []
    ensures |Parts(rest)| >= 4
  {
    assert |Prefixed(rest[0])| >= 4;
  }

  lemma ClampedPrefix(long: Bytes, tail: Bytes)
    requires Clamped(long)
    ensures Prefixed(long + tail) == Prefixed(long) + tail
  {
    hide U32;
  }

  /** A part of 2^32 - 1 bytes or more swallows whatever follows it, wherever it stands. */
  lemma LongPartsCollide(before: seq<Bytes>, long: Bytes, rest: seq<Bytes>)
    requires Clamped(long) && rest != []
    ensures Aad(before + [long] + rest) == Aad(before + [long + Parts(rest)])
    ensures before + [long] + rest != before + [long + Parts(rest)]
  {
    hide U32, Prefixed;
    var tail := Parts(rest);
    PartsOn(before + [long], rest);
    PartsOn(before, [long]);
    PartsOn(before, [long + tail]);
    PartsOfOne(long);
    PartsOfOne(long + tail);
    ClampedPrefix(long, tail);
    PartsLonger(rest);
    assert Parts(before) + Prefixed(long) + tail == Parts(before) + (Prefixed(long) + tail);
    assert (before + [long] + rest)[|before|] == long;
    assert (before + [long + tail])[|before|] == long + tail;
  }

  lemma SwallowsIsAmbiguous(xs: seq<Bytes>)
    requires Swallows(xs)
    ensures Ambiguous(xs)
  {
    hide Aad, Parts;
    if exists i :: 0 <= i < |xs| - 1 && Clamped(xs[i]) {
      var i :| 0 <= i < |xs| - 1 && Clamped(xs[i]);
      assert xs == xs[..i] + [xs[i]] + xs[i + 1..];
      LongPartsCollide(xs[..i], xs[i], xs[i + 1..]);
    } else {
      var last := xs[|xs| - 1];
      var before := xs[..|xs| - 1];
      var at: nat, rest :| SplitsAs(last, at, rest);
      assert last == last[..at] + last[at..];
      assert xs == before + [last];
      LongPartsCollide(before, last[..at], rest);
    }
  }

  /** What an encoding starts with gives away the length of its first part, unless clamped. */
  lemma FirstLength(x: Bytes, tail: Bytes)
    ensures |Prefixed(x) + tail| >= 4 && FromU32(Prefixed(x) + tail) == Min(|x|, TWO32 - 1)
  {
    U32RoundTrip(Min(|x|, TWO32 - 1), x + tail);
    assert Prefixed(x) + tail == U32(Min(|x|, TWO32 - 1)) + (x + tail);
  }

  lemma AfterLength(x: Bytes, tail: Bytes)
    ensures (Prefixed(x) + tail)[4..] == x + tail
  {
  }

  lemma {:induction false} AmbiguousSwallows(xs: seq<Bytes>, ys: seq<Bytes>)
    requires xs != ys && Parts(xs) == Parts(ys)
    ensures Swallows(xs)
    decreases |xs|
  {
    hide U32, Prefixed;
    if xs == [] {
      PartsLonger(ys);
      assert false;
    } else if ys == [] {
      PartsLonger(xs);
      assert false;
    } else {
      var (x, y) := (xs[0], ys[0]);
      FirstLength(x, Parts(xs[1..]));
      FirstLength(y, Parts(ys[1..]));
      AfterLength(x, Parts(xs[1..]));
      AfterLength(y, Parts(ys[1..]));
      assert x + Parts(xs[1..]) == y + Parts(ys[1..]);
      if |x| == |y| {
        assert x == (x + Parts(xs[1..]))[..|x|] && y == (y + Parts(ys[1..]))[..|x|];
        assert Parts(xs[1..]) == (x + Parts(xs[1..]))[|x|..] && Parts(ys[1..]) == (y + Parts(ys[1..]))[|x|..];
        assert xs == [x] + xs[1..] && ys == [y] + ys[1..];
        AmbiguousSwallows(xs[1..], ys[1..]);
        SwallowsLater(xs);
      } else if |xs| == 1 {
        assert x == x + Parts(xs[1..]);
        assert SplitsAs(x, |y|, ys[1..]) by { SplitPoint(x, y, ys[1..]); }
      } else {
        assert Clamped(xs[0]);
      }
    }
  }

  lemma SplitPoint(x: Bytes, y: Bytes, rest: seq<Bytes>)
    requires x == y + Parts(rest) && |x| != |y| && Clamped(y)
    ensures SplitsAs(x, |y|, rest)
  {
    assert x[|y|..] == Parts(rest);
    assert rest != [] by { assert rest == [] ==> Parts(rest) == []; }
  }

  lemma SwallowsLater(xs: seq<Bytes>)
    requires xs != [] && Swallows(xs[1..])
    ensures Swallows(xs)
  {
    hide Splits;
    if exists i :: 0 <= i < |xs[1..]| - 1 && Clamped(xs[1..][i]) {
      var i :| 0 <= i < |xs[1..]| - 1 && Clamped(xs[1..][i]);
      assert Clamped(xs[i + 1]);
    }
  }

  /** The exact condition: a list of parts shares its encoding with another if and only if
      a part of 2^32 - 1 bytes or more is followed by others, or the last one carries an
      encoding of further parts behind that many bytes. */
  lemma AadAmbiguousExactly(xs: seq<Bytes>)
    ensures Ambiguous(xs) <==> Swallows(xs)
  {
    if Ambiguous(xs) {
      var ys :| ys != xs && Aad(ys) == Aad(xs);
      AppendExact(DOMAIN, Parts(xs), Parts(ys));
      AmbiguousSwallows(xs, ys);
    }
    if Swallows(xs) { SwallowsIsAmbiguous(xs); }
  }

  /** The loop that builds it. */
  method BuildAad(parts: seq<Bytes>) returns (out: Bytes)
    ensures out == Aad(parts)
  {
    out := DOMAIN;
    for i := 0 to |parts|
      invariant out + Parts(parts[i..]) == Aad(parts)
    {
      assert parts[i..][1..] == parts[i + 1..];
      out := out + U32(if |parts[i]| < TWO32 then |parts[i]| else TWO32 - 1);
      out := out + parts[i];
    }
  }

  /** The bytes of `u32::to_string`. */
  function DecimalBytes(n: nat): (r: Bytes)
    ensures |r| == |Decimal(n)|
  {
    var text := Decimal(n);
    seq(|text|, i requires 0 <= i < |text| => text[i] as byte)
  }

  lemma DecimalInjective(m: nat, n: nat)
    requires DecimalBytes(m) == DecimalBytes(n)
    ensures m == n
  {
    var a, b := Decimal(m), Decimal(n);
    assert forall i | 0 <= i < |a| :: a[i] as byte == DecimalBytes(m)[i] == DecimalBytes(n)[i] == b[i] as byte;
    assert a == b;
    DecimalReads(m);
    DecimalReads(n);
  }

  lemma DecimalShort(n: nat)
    requires n < TWO32
    ensures |DecimalBytes(n)| <= 10
  {
    DecimalFits(n, 10);
  }

  // ---- accounts and parameters ----

  datatype Account = Account(id: Bytes, server: Bytes)

  datatype Params = Params(alg: Bytes, salt: Bytes, m: nat, t: nat, p: nat)

  /** Characters of valid UTF-8: bytes that do not continue one. */
  function Chars(text: Bytes): nat {
    if text == [] then 0 else Chars(text[1..]) + if 0x80 <= text[0] < 0xC0 then 0 else 1
  }

  /** A control character: C0, delete, or C1 (two bytes). */
  predicate ControlAt(text: Bytes, i: nat)
    requires i < |text|
  {
    || text[i] < 0x20 || text[i] == 0x7F
    || (text[i] == 0xC2 && i + 1 < |text| && 0x80 <= text[i + 1] <= 0x9F)
  }

  predicate TextOk(text: Bytes) {
    Chars(text) <= MAX_TEXT_CHARS && forall i | 0 <= i < |text| :: !ControlAt(text, i)
  }

  predicate AccountOk(a: Account) {
    a.id != [] && TextOk(a.id) && TextOk(a.server)
  }

  predicate SaltByte(b: byte) {
    0x30 <= b <= 0x39 || 0x41 <= b <= 0x5A || 0x61 <= b <= 0x7A || b == 0x2B || b == 0x2F || b == 0x3D
  }

  function CheckParams(p: Params): Result<()> {
    if p.alg != ARGON2ID then Err(Malformed)
    else if ARGON2_SALT_MIN_CHARS <= |p.salt| <= ARGON2_SALT_MAX_CHARS
            && (forall i | 0 <= i < |p.salt| :: SaltByte(p.salt[i]))
            && ARGON2_MIN_MEMORY_KIB <= p.m <= ARGON2_MAX_MEMORY_KIB
            && ARGON2_MIN_ITERATIONS <= p.t <= ARGON2_MAX_ITERATIONS
            && 1 <= p.p <= ARGON2_MAX_PARALLELISM then Ok(())
    else Err(Policy)
  }

  function CheckPin(p: Params): Result<()> {
    var _ :- CheckParams(p);
    if p.m < PIN_ARGON2_MIN_MEMORY_KIB || p.t < PIN_ARGON2_MIN_ITERATIONS then Err(Policy) else Ok(())
  }

  function CheckPassword(password: Bytes): Result<()> {
    if password == [] || |password| > MAX_PASSWORD_BYTES then Err(Policy) else Ok(())
  }

  function DecodeVec(text: Bytes): Option<Bytes> {
    if text == [] then Some([]) else Base64Model.Decode(text)
  }

  function CheckFido(cred: Bytes, rp: Bytes, salt: Bytes): Result<()> {
    var id := DecodeVec(cred);
    if id.None? then Err(Malformed)
    else if id.value == [] || |id.value| > MAX_CREDENTIAL_BYTES || rp == [] || !TextOk(rp) then Err(Policy)
    else
      var s := DecodeVec(salt);
      if s.None? then Err(Malformed) else if |s.value| != FIDO_SALT_LEN then Err(Policy) else Ok(())
  }

  // ---- what is bound into each box ----

  function CtAad(a: Account): Bytes {
    Aad([PASSWORD, a.id, a.server])
  }

  function WrapParts(a: Account, purpose: Bytes, kdf: Params): seq<Bytes> {
    [WRAP, purpose, a.id, a.server, kdf.alg, kdf.salt, DecimalBytes(kdf.m), DecimalBytes(kdf.t), DecimalBytes(kdf.p)]
  }

  function WrapAad(a: Account, purpose: Bytes, kdf: Params): Bytes {
    Aad(WrapParts(a, purpose, kdf))
  }

  function FidoParts(a: Account, cred: Bytes, rp: Bytes, salt: Bytes): seq<Bytes> {
    [WRAP, FIDO, a.id, a.server, cred, rp, salt]
  }

  function FidoAad(a: Account, cred: Bytes, rp: Bytes, salt: Bytes): Bytes {
    Aad(FidoParts(a, cred, rp, salt))
  }

  // ---- the envelope ----

  datatype PasswordWrap = PasswordWrap(kdf: Params, box: Sealed)

  datatype FidoWrap = FidoWrap(cred: Bytes, rp: Bytes, salt: Bytes, box: Sealed)

  datatype Envelope = Envelope(account: Account, stale: bool, ct: Sealed, master: PasswordWrap,
                               pin: Option<PasswordWrap>, fingerprint: Option<Key>, fido: seq<FidoWrap>)

  datatype Via = ByMaster(key: Bytes) | ByPin(key: Bytes) | ByFinger | ByFido(credential: Bytes, hmac: Bytes)

  datatype Method = PinMethod | FingerMethod | FidoMethod(credential: Bytes)

  /** The position of the wrap for this credential, or the number of wraps. */
  function FidoIndex(fido: seq<FidoWrap>, cred: Bytes): (at: nat)
    ensures at <= |fido|
    ensures at < |fido| ==> fido[at].cred == cred
    ensures forall i | 0 <= i < at :: fido[i].cred != cred
  {
    if fido == [] then 0 else if fido[0].cred == cred then 0 else 1 + FidoIndex(fido[1..], cred)
  }

  function KeyFrom(plain: Plain): Result<Key> {
    if plain.Wrapped? then Ok(plain.key) else Err(Malformed)
  }

  function Dek(e: Envelope, via: Via): Result<Key> {
    match via
    case ByMaster(input) =>
      var plain :- Unseal(e.master.box, Kek(input, MASTER), WrapAad(e.account, MASTER, e.master.kdf));
      KeyFrom(plain)
    case ByPin(input) =>
      if e.pin.None? then Err(Missing)
      else
        var plain :- Unseal(e.pin.value.box, Kek(input, PIN), WrapAad(e.account, PIN, e.pin.value.kdf));
        KeyFrom(plain)
    case ByFinger => if e.fingerprint.None? then Err(Missing) else Ok(e.fingerprint.value)
    case ByFido(cred, hmac) =>
      var at := FidoIndex(e.fido, cred);
      if at == |e.fido| then Err(Missing)
      else
        var w := e.fido[at];
        var plain :- Unseal(w.box, Kek(hmac, FIDO), FidoAad(e.account, w.cred, w.rp, w.salt));
        KeyFrom(plain)
  }

  function Open(e: Envelope, via: Via): Result<Bytes> {
    var dek :- Dek(e, via);
    var plain :- Unseal(e.ct, dek, CtAad(e.account));
    if plain.Secret? then Ok(plain.bytes) else Err(Malformed)
  }

  /** What `parse` accepts. Sealed boxes are well-formed by construction. */
  ghost predicate Validates(e: Envelope) {
    && AccountOk(e.account)
    && CheckParams(e.master.kdf).Ok?
    && (e.pin.Some? ==> CheckParams(e.pin.value.kdf).Ok?)
    && |e.fido| <= MAX_FIDO_WRAPS
    && (forall i | 0 <= i < |e.fido| :: CheckFido(e.fido[i].cred, e.fido[i].rp, e.fido[i].salt).Ok?)
    && (forall i, j | 0 <= i < j < |e.fido| :: e.fido[i].cred != e.fido[j].cred)
  }

  // ---- the reference: who opens what ----

  datatype Enrolled = Enrolled(kdf: Params, key: Bytes)

  datatype Token = Token(cred: Bytes, rp: Bytes, salt: Bytes, hmac: Bytes)

  /** One password, and for each way of unlocking the key that opens it. */
  datatype Safe = Safe(account: Account, password: Bytes, stale: bool, master: Enrolled,
                       pin: Option<Enrolled>, fingerprint: bool, fido: seq<Token>)

  function TokenIndex(fido: seq<Token>, cred: Bytes): (at: nat)
    ensures at <= |fido|
    ensures at < |fido| ==> fido[at].cred == cred
    ensures forall i | 0 <= i < at :: fido[i].cred != cred
  {
    if fido == [] then 0 else if fido[0].cred == cred then 0 else 1 + TokenIndex(fido[1..], cred)
  }

  /** Replace, or append at the end. */
  function PutAt<T>(xs: seq<T>, at: nat, x: T): (r: seq<T>)
    requires at <= |xs|
    ensures |r| == (if at == |xs| then |xs| + 1 else |xs|) && r[at] == x
    ensures forall i | 0 <= i < |xs| && i != at :: r[i] == xs[i]
  {
    if at == |xs| then xs + [x] else xs[at := x]
  }

  function Match(given: Bytes, expected: Bytes): Result<()> {
    if given == expected then Ok(()) else Err(WrongKey)
  }

  /** Whether this way unlocks. */
  function Unlocks(s: Safe, via: Via): Result<()> {
    match via
    case ByMaster(key) => Match(key, s.master.key)
    case ByPin(key) => if s.pin.None? then Err(Missing) else Match(key, s.pin.value.key)
    case ByFinger => if s.fingerprint then Ok(()) else Err(Missing)
    case ByFido(cred, hmac) =>
      var at := TokenIndex(s.fido, cred);
      if at == |s.fido| then Err(Missing) else Match(hmac, s.fido[at].hmac)
  }

  function OpenSafe(s: Safe, via: Via): Result<Bytes> {
    var _ :- Unlocks(s, via);
    Ok(s.password)
  }

  datatype Op = AddPin(auth: Via, kdf: Params, key: Bytes)
              | AddFingerprint(auth: Via)
              | AddFido(auth: Via, cred: Bytes, rp: Bytes, salt: Bytes, hmac: Bytes)
              | Remove(way: Method)
              | MarkStale
              | Rotate(auth: Via, password: Bytes, kdf: Params, key: Bytes)

  /** What each operation is for: change one entry, or refuse and change nothing. */
  function Change(s: Safe, op: Op): Result<Safe> {
    match op
    case AddPin(auth, kdf, key) =>
      var _ :- CheckPin(kdf);
      var _ :- Unlocks(s, auth);
      Ok(s.(pin := Some(Enrolled(kdf, key))))
    case AddFingerprint(auth) =>
      var _ :- Unlocks(s, auth);
      Ok(s.(fingerprint := true))
    case AddFido(auth, cred, rp, salt, hmac) =>
      var _ :- CheckFido(cred, rp, salt);
      var _ :- Unlocks(s, auth);
      var at := TokenIndex(s.fido, cred);
      if at == |s.fido| && |s.fido| >= MAX_FIDO_WRAPS then Err(Policy)
      else Ok(s.(fido := PutAt(s.fido, at, Token(cred, rp, salt, hmac))))
    case Remove(PinMethod) => if s.pin.None? then Err(Missing) else Ok(s.(pin := None))
    case Remove(FingerMethod) => if !s.fingerprint then Err(Missing) else Ok(s.(fingerprint := false))
    case Remove(FidoMethod(cred)) =>
      var at := TokenIndex(s.fido, cred);
      if at == |s.fido| then Err(Missing) else Ok(s.(fido := Without(s.fido, at)))
    case MarkStale => Ok(s.(stale := true))
    case Rotate(auth, password, kdf, key) =>
      var _ :- CheckPassword(password);
      var _ :- CheckParams(kdf);
      var _ :- Unlocks(s, auth);
      Ok(s.(password := password, master := Enrolled(kdf, key), stale := false))
  }

  function After(s: Safe, op: Op): Safe {
    var r := Change(s, op);
    if r.Ok? then r.value else s
  }

  // ---- the envelope represents the safe ----

  function WrapFor(a: Account, purpose: Bytes, way: Enrolled, dek: Key): PasswordWrap {
    PasswordWrap(way.kdf, Sealed(Kek(way.key, purpose), WrapAad(a, purpose, way.kdf), Wrapped(dek)))
  }

  function FidoFor(a: Account, t: Token, dek: Key): FidoWrap {
    FidoWrap(t.cred, t.rp, t.salt, Sealed(Kek(t.hmac, FIDO), FidoAad(a, t.cred, t.rp, t.salt), Wrapped(dek)))
  }

  ghost predicate Represents(e: Envelope, s: Safe, dek: Key) {
    && e.account == s.account && e.stale == s.stale
    && e.ct == Sealed(dek, CtAad(s.account), Secret(s.password))
    && e.master == WrapFor(s.account, MASTER, s.master, dek)
    && e.pin == (if s.pin.None? then None else Some(WrapFor(s.account, PIN, s.pin.value, dek)))
    && e.fingerprint == (if s.fingerprint then Some(dek) else None)
    && |e.fido| == |s.fido|
    && forall i | 0 <= i < |e.fido| :: e.fido[i] == FidoFor(s.account, s.fido[i], dek)
  }

  lemma SameIndex(e: Envelope, s: Safe, dek: Key, cred: Bytes)
    requires Represents(e, s, dek)
    ensures FidoIndex(e.fido, cred) == TokenIndex(s.fido, cred) && |e.fido| == |s.fido|
  {
    var a, b := FidoIndex(e.fido, cred), TokenIndex(s.fido, cred);
    assert a < |s.fido| ==> s.fido[a].cred == e.fido[a].cred;
    assert b < |s.fido| ==> s.fido[b].cred == e.fido[b].cred;
  }

  /** The data key is reached exactly the ways the safe says, by every input. */
  lemma DekIsReached(e: Envelope, s: Safe, dek: Key, via: Via)
    requires Represents(e, s, dek)
    ensures Dek(e, via) == if Unlocks(s, via).Ok? then Ok(dek) else Err(Unlocks(s, via).error)
  {
    hide Aad, FidoParts, WrapParts;
    match via
    case ByMaster(key) => KekExact(key, MASTER, s.master.key, MASTER);
    case ByPin(key) => if s.pin.Some? { KekExact(key, PIN, s.pin.value.key, PIN); }
    case ByFinger =>
    case ByFido(cred, hmac) =>
      SameIndex(e, s, dek, cred);
      var at := TokenIndex(s.fido, cred);
      if at < |s.fido| { KekExact(hmac, FIDO, s.fido[at].hmac, FIDO); }
  }

  /** Every method opens exactly the current password with its latest key. */
  lemma OpensAsTheSafe(e: Envelope, s: Safe, dek: Key, via: Via)
    requires Represents(e, s, dek)
    ensures Open(e, via) == OpenSafe(s, via)
  {
    hide Aad;
    DekIsReached(e, s, dek, via);
  }

  // ---- what the operations mean ----

  /** How to use the way an operation enrols or replaces. */
  function Enrols(op: Op): Option<Via> {
    match op
    case AddPin(_, _, key) => Some(ByPin(key))
    case AddFingerprint(_) => Some(ByFinger)
    case AddFido(_, cred, _, _, hmac) => Some(ByFido(cred, hmac))
    case Rotate(_, _, _, key) => Some(ByMaster(key))
    case _ => None
  }

  predicate SameWay(v: Via, w: Via) {
    match (v, w)
    case (ByMaster(_), ByMaster(_)) => true
    case (ByPin(_), ByPin(_)) => true
    case (ByFinger, ByFinger) => true
    case (ByFido(c, _), ByFido(d, _)) => c == d
    case _ => false
  }

  predicate Names(way: Method, v: Via) {
    match (way, v)
    case (PinMethod, ByPin(_)) => true
    case (FingerMethod, ByFinger) => true
    case (FidoMethod(c), ByFido(d, _)) => c == d
    case _ => false
  }

  /** A safe's tokens have distinct credentials. */
  predicate DistinctTokens(s: Safe) {
    forall i, j | 0 <= i < j < |s.fido| :: s.fido[i].cred != s.fido[j].cred
  }

  lemma TokenAt(fido: seq<Token>, cred: Bytes, at: nat)
    requires forall i, j | 0 <= i < j < |fido| :: fido[i].cred != fido[j].cred
    requires at < |fido| && fido[at].cred == cred
    ensures TokenIndex(fido, cred) == at
  {
    var k := TokenIndex(fido, cred);
    assert forall i | 0 <= i < at :: fido[i].cred != fido[at].cred;
  }

  lemma NoToken(fido: seq<Token>, cred: Bytes)
    requires forall i | 0 <= i < |fido| :: fido[i].cred != cred
    ensures TokenIndex(fido, cred) == |fido|
  {
  }

  /** After enrolling, exactly the new key opens that way; after removing, it is missing;
      every other way answers as before. Rotation changes the password for all of them. */
  lemma ChangesOneWay(s: Safe, op: Op, via: Via)
    requires DistinctTokens(s) && Change(s, op).Ok?
    ensures var s' := Change(s, op).value;
            && DistinctTokens(s')
            && s'.password == (if op.Rotate? then op.password else s.password)
            && (Enrols(op).Some? && SameWay(Enrols(op).value, via) ==>
                  Unlocks(s', via) == if via == Enrols(op).value then Ok(()) else Err(WrongKey))
            && (op.Remove? && Names(op.way, via) ==> Unlocks(s', via) == Err(Missing))
            && ((Enrols(op).Some? ==> !SameWay(Enrols(op).value, via)) && (op.Remove? ==> !Names(op.way, via)) ==>
                  Unlocks(s', via) == Unlocks(s, via))
  {
    if op.AddFido? {
      AddingToken(s, op, via);
    } else if op.Remove? && op.way.FidoMethod? {
      RemovingToken(s, op, via);
    }
  }

  lemma AddedTokens(fido: seq<Token>, t: Token, cred: Bytes)
    requires forall i, j | 0 <= i < j < |fido| :: fido[i].cred != fido[j].cred
    ensures var at := TokenIndex(fido, t.cred);
            var more := PutAt(fido, at, t);
            && (forall i, j | 0 <= i < j < |more| :: more[i].cred != more[j].cred)
            && TokenIndex(more, cred) ==
               if cred == t.cred then at
               else if TokenIndex(fido, cred) < |fido| then TokenIndex(fido, cred) else |more|
  {
    hide PutAt;
    var at := TokenIndex(fido, t.cred);
    var more := PutAt(fido, at, t);
    forall i | 0 <= i < |fido| && i != at ensures fido[i].cred != t.cred {
      if at < i { assert fido[at].cred != fido[i].cred; }
    }
    assert forall i, j | 0 <= i < j < |more| :: more[i].cred != more[j].cred;
    if cred == t.cred {
      TokenAt(more, cred, at);
    } else {
      var k := TokenIndex(fido, cred);
      if k < |fido| { TokenAt(more, cred, k); } else { NoToken(more, cred); }
    }
  }

  lemma AddingToken(s: Safe, op: Op, via: Via)
    requires DistinctTokens(s) && Change(s, op).Ok? && op.AddFido?
    ensures var s' := Change(s, op).value;
            && DistinctTokens(s')
            && (via.ByFido? && via.credential == op.cred ==>
                  Unlocks(s', via) == if via.hmac == op.hmac then Ok(()) else Err(WrongKey))
            && (!(via.ByFido? && via.credential == op.cred) ==> Unlocks(s', via) == Unlocks(s, via))
  {
    hide CheckFido, PutAt;
    AddedTokens(s.fido, Token(op.cred, op.rp, op.salt, op.hmac), if via.ByFido? then via.credential else []);
  }

  lemma RemovedTokens(fido: seq<Token>, at: nat, cred: Bytes)
    requires forall i, j | 0 <= i < j < |fido| :: fido[i].cred != fido[j].cred
    requires at < |fido|
    ensures var rest := Without(fido, at);
            var k := TokenIndex(fido, cred);
            && (forall i, j | 0 <= i < j < |rest| :: rest[i].cred != rest[j].cred)
            && TokenIndex(rest, cred) ==
               if cred == fido[at].cred then |rest| else if k < at then k else k - 1
  {
    var rest := Without(fido, at);
    var k := TokenIndex(fido, cred);
    if cred == fido[at].cred {
      forall i | 0 <= i < |rest| ensures rest[i].cred != cred {
        if i >= at { assert fido[at].cred != fido[i + 1].cred; }
      }
      NoToken(rest, cred);
    } else if k < |fido| {
      TokenAt(rest, cred, if k < at then k else k - 1);
    } else {
      NoToken(rest, cred);
    }
  }

  lemma RemovingToken(s: Safe, op: Op, via: Via)
    requires DistinctTokens(s) && Change(s, op).Ok? && op.Remove? && op.way.FidoMethod?
    ensures var s' := Change(s, op).value;
            && DistinctTokens(s')
            && (via.ByFido? && via.credential == op.way.credential ==> Unlocks(s', via) == Err(Missing))
            && (!(via.ByFido? && via.credential == op.way.credential) ==> Unlocks(s', via) == Unlocks(s, via))
  {
    hide Without;
    var at := TokenIndex(s.fido, op.way.credential);
    RemovedTokens(s.fido, at, if via.ByFido? then via.credential else []);
  }
}
