/** Which envelopes are made, read back and changed, and for what the others are refused. */
module EnvelopeRules {
  import opened Base
  import opened LengthPrefix
  import opened EnvelopeModel
  import opened EnvelopeObject

  // ---- the limits ----

  /** Base64 characters, padding included. */
  predicate SaltText(salt: Bytes) {
    forall i | 0 <= i < |salt| ::
      var c := salt[i] as char;
      '0' <= c <= '9' || 'A' <= c <= 'Z' || 'a' <= c <= 'z' || c == '+' || c == '/' || c == '='
  }

  /** Argon2id with 64 MiB to 4 GiB of memory, 3 to 64 rounds, 1 to 16 lanes and a salt of 22
      to 64 characters. */
  predicate ArgonOk(p: Params) {
    && p.alg == Ascii("argon2id")
    && 22 <= |p.salt| <= 64 && SaltText(p.salt)
    && 65_536 <= p.m <= 4_194_304 && 3 <= p.t <= 64 && 1 <= p.p <= 16
  }

  /** A PIN takes at least 256 MiB and 4 rounds. */
  predicate PinOk(p: Params) {
    ArgonOk(p) && p.m >= 262_144 && p.t >= 4
  }

  predicate PasswordOk(password: Bytes) {
    0 < |password| <= 4096
  }

  /** At most 1024 characters, and no control character among them. */
  predicate CleanText(text: Bytes) {
    && Chars(text) <= 1024
    && forall i | 0 <= i < |text| ::
         && 0x20 <= text[i] && text[i] != 0x7F
         && (text[i] == 0xC2 && i + 1 < |text| ==> !(0x80 <= text[i + 1] <= 0x9F))
  }

  predicate OwnerOk(a: Account) {
    a.id != [] && CleanText(a.id) && CleanText(a.server)
  }

  /** A credential of 1 to 1024 bytes, a named relying party and a salt of 32 bytes. */
  predicate TokenOk(cred: Bytes, rp: Bytes, salt: Bytes) {
    && DecodeVec(cred).Some? && 0 < |DecodeVec(cred).value| <= 1024
    && rp != [] && CleanText(rp)
    && DecodeVec(salt).Some? && |DecodeVec(salt).value| == 32
  }

  lemma ParamsExact(p: Params)
    ensures CheckParams(p).Ok? <==> ArgonOk(p)
    ensures CheckPin(p).Ok? <==> PinOk(p)
    ensures CheckParams(p).Err? ==> CheckParams(p) == Err(if p.alg != Ascii("argon2id") then Malformed else Policy)
    ensures CheckPin(p).Err? ==> CheckPin(p) == Err(if p.alg != Ascii("argon2id") then Malformed else Policy)
  {
    hide Ascii;
    SaltExact(p.salt);
  }

  lemma SaltExact(salt: Bytes)
    ensures SaltText(salt) <==> forall i | 0 <= i < |salt| :: SaltByte(salt[i])
  {
    if SaltText(salt) {
      forall i | 0 <= i < |salt| ensures SaltByte(salt[i]) {
        var c := salt[i] as char;
        assert '0' <= c <= '9' || 'A' <= c <= 'Z' || 'a' <= c <= 'z' || c == '+' || c == '/' || c == '=';
      }
    }
  }

  lemma TextExact(text: Bytes)
    ensures TextOk(text) <==> CleanText(text)
  {
    if TextOk(text) {
      forall i | 0 <= i < |text|
        ensures && 0x20 <= text[i] && text[i] != 0x7F
                && (text[i] == 0xC2 && i + 1 < |text| ==> !(0x80 <= text[i + 1] <= 0x9F))
      {
        assert !ControlAt(text, i);
      }
    }
    if CleanText(text) {
      forall i | 0 <= i < |text| ensures !ControlAt(text, i) {
        assert 0x20 <= text[i];
      }
    }
  }

  /** What is wrong with a token, in the order it is looked at. */
  function TokenError(cred: Bytes, rp: Bytes, salt: Bytes): Error {
    if DecodeVec(cred).None? then Malformed
    else if !(0 < |DecodeVec(cred).value| <= 1024) || rp == [] || !CleanText(rp) then Policy
    else if DecodeVec(salt).None? then Malformed
    else Policy
  }

  lemma TokenExact(cred: Bytes, rp: Bytes, salt: Bytes)
    ensures CheckFido(cred, rp, salt).Ok? <==> TokenOk(cred, rp, salt)
    ensures CheckFido(cred, rp, salt).Err? ==> CheckFido(cred, rp, salt) == Err(TokenError(cred, rp, salt))
  {
    hide DecodeVec, CleanText, TextOk;
    TextExact(rp);
  }

  // ---- what is made and read back ----

  /** An envelope is accepted when it is read back if and only if its account is named in
      clean text, its key derivations are within the limits, and it has at most sixteen
      tokens, all proper and none twice. */
  lemma AcceptedExactly(e: Envelope)
    ensures Validates(e) <==>
            && OwnerOk(e.account)
            && ArgonOk(e.master.kdf) && (e.pin.Some? ==> ArgonOk(e.pin.value.kdf))
            && |e.fido| <= 16
            && (forall i | 0 <= i < |e.fido| :: TokenOk(e.fido[i].cred, e.fido[i].rp, e.fido[i].salt))
            && (forall i, j | 0 <= i < j < |e.fido| :: e.fido[i].cred != e.fido[j].cred)
  {
    hide CheckParams, CheckFido, ArgonOk, TokenOk, TextOk, CleanText;
    TextExact(e.account.id);
    TextExact(e.account.server);
    ParamsExact(e.master.kdf);
    if e.pin.Some? { ParamsExact(e.pin.value.kdf); }
    forall i | 0 <= i < |e.fido|
      ensures CheckFido(e.fido[i].cred, e.fido[i].rp, e.fido[i].salt).Ok? <==>
              TokenOk(e.fido[i].cred, e.fido[i].rp, e.fido[i].salt)
    {
      TokenExact(e.fido[i].cred, e.fido[i].rp, e.fido[i].salt);
    }
  }

  /** One is made if and only if the account, the derivation and the password are within
      the limits; the first that is not says why. */
  lemma MadeExactly(owner: Account, password: Bytes, kdf: Params)
    ensures CheckCreate(owner, password, kdf) ==
            if !OwnerOk(owner) then Err(Policy)
            else if kdf.alg != Ascii("argon2id") then Err(Malformed)
            else if !ArgonOk(kdf) || !PasswordOk(password) then Err(Policy)
            else Ok(())
  {
    hide CheckParams, ArgonOk, TextOk, CleanText, Ascii;
    TextExact(owner.id);
    TextExact(owner.server);
    ParamsExact(kdf);
    if ArgonOk(kdf) { ArgonNamed(kdf); }
  }

  lemma ArgonNamed(p: Params)
    requires ArgonOk(p)
    ensures p.alg == Ascii("argon2id")
  {
  }

  // ---- what is changed ----

  /** This way is enrolled. */
  predicate Enrolled(s: Safe, via: Via) {
    match via
    case ByMaster(_) => true
    case ByPin(_) => s.pin.Some?
    case ByFinger => s.fingerprint
    case ByFido(cred, _) => HasToken(s, cred)
  }

  predicate HasToken(s: Safe, cred: Bytes) {
    exists i :: 0 <= i < |s.fido| && s.fido[i].cred == cred
  }

  /** ... and this is its key. */
  predicate Opens(s: Safe, via: Via) {
    match via
    case ByMaster(key) => key == s.master.key
    case ByPin(key) => s.pin.Some? && key == s.pin.value.key
    case ByFinger => s.fingerprint
    case ByFido(cred, hmac) => exists i :: 0 <= i < |s.fido| && s.fido[i].cred == cred && s.fido[i].hmac == hmac
  }

  function AuthError(s: Safe, via: Via): Error {
    if Enrolled(s, via) then WrongKey else Missing
  }

  lemma UnlocksExactly(s: Safe, via: Via)
    requires DistinctTokens(s)
    ensures Unlocks(s, via).Ok? <==> Opens(s, via)
    ensures Unlocks(s, via).Err? ==> Unlocks(s, via) == Err(AuthError(s, via))
  {
    if via.ByFido? {
      var at := TokenIndex(s.fido, via.credential);
      forall i | 0 <= i < |s.fido| && s.fido[i].cred == via.credential ensures i == at {
        TokenAt(s.fido, via.credential, i);
      }
    }
  }

  /** Who may change what: enrolling and rotating take a way that opens and values within
      the limits, and a seventeenth token is too many; what is removed must be there. */
  predicate Permitted(s: Safe, op: Op) {
    match op
    case AddPin(auth, kdf, _) => PinOk(kdf) && Opens(s, auth)
    case AddFingerprint(auth) => Opens(s, auth)
    case AddFido(auth, cred, rp, salt, _) =>
      TokenOk(cred, rp, salt) && Opens(s, auth) && (HasToken(s, cred) || |s.fido| < 16)
    case Remove(PinMethod) => s.pin.Some?
    case Remove(FingerMethod) => s.fingerprint
    case Remove(FidoMethod(cred)) => HasToken(s, cred)
    case MarkStale => true
    case Rotate(auth, password, kdf, _) => PasswordOk(password) && ArgonOk(kdf) && Opens(s, auth)
  }

  /** Why an operation that is not permitted is refused. */
  function Refusal(s: Safe, op: Op): Error {
    match op
    case AddPin(auth, kdf, _) =>
      if kdf.alg != Ascii("argon2id") then Malformed
      else if !PinOk(kdf) then Policy
      else AuthError(s, auth)
    case AddFingerprint(auth) => AuthError(s, auth)
    case AddFido(auth, cred, rp, salt, _) =>
      if !TokenOk(cred, rp, salt) then TokenError(cred, rp, salt)
      else if !Opens(s, auth) then AuthError(s, auth)
      else Policy
    case Rotate(auth, password, kdf, _) =>
      if !PasswordOk(password) then Policy
      else if kdf.alg != Ascii("argon2id") then Malformed
      else if !ArgonOk(kdf) then Policy
      else AuthError(s, auth)
    case _ => Missing
  }

  /** An operation goes through if and only if it is permitted, and is refused for the first
      thing that is wrong. */
  lemma ChangesExactly(s: Safe, op: Op)
    requires DistinctTokens(s)
    ensures Change(s, op).Ok? <==> Permitted(s, op)
    ensures Change(s, op).Err? ==> Change(s, op) == Err(Refusal(s, op))
  {
    hide CheckPin, CheckParams, CheckFido, ArgonOk, TokenOk, TokenError, Unlocks, Opens, AuthError, DistinctTokens,
         Ascii, Enrolled;
    match op
    case AddPin(auth, kdf, _) =>
      ParamsExact(kdf);
      if PinOk(kdf) { ArgonNamed(kdf); }
      UnlocksExactly(s, auth);
    case AddFingerprint(auth) => UnlocksExactly(s, auth);
    case AddFido(auth, cred, rp, salt, _) =>
      TokenExact(cred, rp, salt);
      UnlocksExactly(s, auth);
      FoundExactly(s, cred);
    case Remove(FidoMethod(cred)) => FoundExactly(s, cred);
    case Rotate(auth, _, kdf, _) =>
      ParamsExact(kdf);
      if ArgonOk(kdf) { ArgonNamed(kdf); }
      UnlocksExactly(s, auth);
    case _ =>
  }

  lemma FoundExactly(s: Safe, cred: Bytes)
    ensures TokenIndex(s.fido, cred) < |s.fido| <==> HasToken(s, cred)
  {
  }

  /** What an operation leaves besides the keys: the account always, the staleness flag but
      for marking and rotating, and the parameters a key was enrolled with. */
  lemma RestStays(s: Safe, op: Op)
    requires Change(s, op).Ok?
    ensures var s' := Change(s, op).value;
            && s'.account == s.account
            && s'.stale == (if op.MarkStale? then true else if op.Rotate? then false else s.stale)
            && s'.master == (if op.Rotate? then EnvelopeModel.Enrolled(op.kdf, op.key) else s.master)
            && s'.pin == (if op.AddPin? then Some(EnvelopeModel.Enrolled(op.kdf, op.key))
                          else if op == Remove(PinMethod) then None else s.pin)
            && s'.fingerprint == (op.AddFingerprint? || (s.fingerprint && op != Remove(FingerMethod)))
            && (!op.AddFido? && !(op.Remove? && op.way.FidoMethod?) ==> s'.fido == s.fido)
            && (op.AddFido? ==> Token(op.cred, op.rp, op.salt, op.hmac) in s'.fido)
  {
    hide CheckPin, CheckParams, CheckFido, CheckPassword, Unlocks, PutAt;
    if op.AddFido? {
      var at := TokenIndex(s.fido, op.cred);
      assert PutAt(s.fido, at, Token(op.cred, op.rp, op.salt, op.hmac))[at] == Token(op.cred, op.rp, op.salt, op.hmac);
    }
  }

  // ---- the bytes ----

  /** What is bound into each box, and the names the keys are derived under. */
  lemma BoundBytes(a: Account, kdf: Params, cred: Bytes, rp: Bytes, salt: Bytes, input: Bytes)
    ensures var domain := Ascii("qs-bitwarden-unlock-v1");
            var numbers := [DecimalBytes(kdf.m), DecimalBytes(kdf.t), DecimalBytes(kdf.p)];
            && CtAad(a) == domain + Parts([Ascii("password"), a.id, a.server])
            && WrapAad(a, MASTER, kdf) ==
               domain + Parts([Ascii("wrap"), Ascii("master"), a.id, a.server, kdf.alg, kdf.salt] + numbers)
            && WrapAad(a, PIN, kdf) ==
               domain + Parts([Ascii("wrap"), Ascii("pin"), a.id, a.server, kdf.alg, kdf.salt] + numbers)
            && FidoAad(a, cred, rp, salt) ==
               domain + Parts([Ascii("wrap"), Ascii("fido"), a.id, a.server, cred, rp, salt])
            && Kek(input, MASTER) == Derived(input, domain + Ascii(" kek ") + Ascii("master"))
            && Kek(input, PIN) == Derived(input, domain + Ascii(" kek ") + Ascii("pin"))
            && Kek(input, FIDO) == Derived(input, domain + Ascii(" kek ") + Ascii("fido"))
  {
    hide Ascii, Parts, DecimalBytes;
    var numbers := [DecimalBytes(kdf.m), DecimalBytes(kdf.t), DecimalBytes(kdf.p)];
    assert WrapParts(a, MASTER, kdf) ==
           [Ascii("wrap"), Ascii("master"), a.id, a.server, kdf.alg, kdf.salt] + numbers;
    assert WrapParts(a, PIN, kdf) == [Ascii("wrap"), Ascii("pin"), a.id, a.server, kdf.alg, kdf.salt] + numbers;
    assert DOMAIN + (Ascii(" kek ") + MASTER) == DOMAIN + Ascii(" kek ") + MASTER;
    assert DOMAIN + (Ascii(" kek ") + PIN) == DOMAIN + Ascii(" kek ") + PIN;
    assert DOMAIN + (Ascii(" kek ") + FIDO) == DOMAIN + Ascii(" kek ") + FIDO;
  }
}
