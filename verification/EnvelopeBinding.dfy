/** Every field of a wrap is bound into its box: edited, moved or tried with another
    purpose's key, a wrap does not open. */
module EnvelopeBinding {
  import opened Base
  import opened LengthPrefix
  import opened EnvelopeModel

  predicate ShortAccount(a: Account) {
    |a.id| < TWO32 && |a.server| < TWO32
  }

  predicate ShortParams(p: Params) {
    |p.alg| < TWO32 && |p.salt| < TWO32 && p.m < TWO32 && p.t < TWO32 && p.p < TWO32
  }

  predicate ShortFido(w: FidoWrap) {
    |w.cred| < TWO32 && |w.rp| < TWO32 && |w.salt| < TWO32
  }

  /** True of any envelope that is read: they are at most 64 KiB in all. */
  predicate Short(e: Envelope) {
    && ShortAccount(e.account) && ShortParams(e.master.kdf)
    && (e.pin.Some? ==> ShortParams(e.pin.value.kdf))
    && forall i | 0 <= i < |e.fido| :: ShortFido(e.fido[i])
  }

  lemma Constants()
    ensures |MASTER| == 6 && |PIN| == 3 && |FIDO| == 4 && |WRAP| == 4 && |PASSWORD| == 8
  {
  }

  lemma ShortWrapParts(a: Account, purpose: Bytes, kdf: Params)
    requires ShortAccount(a) && ShortParams(kdf) && |purpose| < TWO32
    ensures AllShort(WrapParts(a, purpose, kdf))
  {
    Constants();
    DecimalShort(kdf.m);
    DecimalShort(kdf.t);
    DecimalShort(kdf.p);
  }

  /** The associated data of a password wrap determines the account, the purpose and every
      parameter. */
  lemma WrapAadExact(a: Account, purpose: Bytes, kdf: Params, a': Account, purpose': Bytes, kdf': Params)
    requires ShortAccount(a) && ShortParams(kdf) && |purpose| < TWO32
    requires ShortAccount(a') && ShortParams(kdf') && |purpose'| < TWO32
    ensures WrapAad(a, purpose, kdf) == WrapAad(a', purpose', kdf') <==> a == a' && purpose == purpose' && kdf == kdf'
  {
    if WrapAad(a, purpose, kdf) == WrapAad(a', purpose', kdf') {
      var xs, ys := WrapParts(a, purpose, kdf), WrapParts(a', purpose', kdf');
      ShortWrapParts(a, purpose, kdf);
      ShortWrapParts(a', purpose', kdf');
      AadInjective(xs, ys);
      assert xs[1] == ys[1] && xs[2] == ys[2] && xs[3] == ys[3] && xs[4] == ys[4] && xs[5] == ys[5];
      assert xs[6] == ys[6] && xs[7] == ys[7] && xs[8] == ys[8];
      DecimalInjective(kdf.m, kdf'.m);
      DecimalInjective(kdf.t, kdf'.t);
      DecimalInjective(kdf.p, kdf'.p);
    }
  }

  lemma FidoAadExact(a: Account, cred: Bytes, rp: Bytes, salt: Bytes, a': Account, cred': Bytes, rp': Bytes,
                     salt': Bytes)
    requires ShortAccount(a) && |cred| < TWO32 && |rp| < TWO32 && |salt| < TWO32
    requires ShortAccount(a') && |cred'| < TWO32 && |rp'| < TWO32 && |salt'| < TWO32
    ensures FidoAad(a, cred, rp, salt) == FidoAad(a', cred', rp', salt') <==>
            a == a' && cred == cred' && rp == rp' && salt == salt'
  {
    if FidoAad(a, cred, rp, salt) == FidoAad(a', cred', rp', salt') {
      Constants();
      var xs, ys := FidoParts(a, cred, rp, salt), FidoParts(a', cred', rp', salt');
      AadInjective(xs, ys);
      assert xs[2] == ys[2] && xs[3] == ys[3] && xs[4] == ys[4] && xs[5] == ys[5] && xs[6] == ys[6];
    }
  }

  /** The three kinds of box never share associated data. */
  lemma KindsApart(a: Account, purpose: Bytes, kdf: Params, a': Account, cred: Bytes, rp: Bytes, salt: Bytes,
                   a'': Account)
    requires ShortAccount(a) && ShortParams(kdf) && |purpose| < TWO32
    requires ShortAccount(a') && |cred| < TWO32 && |rp| < TWO32 && |salt| < TWO32 && ShortAccount(a'')
    ensures WrapAad(a, purpose, kdf) != FidoAad(a', cred, rp, salt)
    ensures WrapAad(a, purpose, kdf) != CtAad(a'') && FidoAad(a', cred, rp, salt) != CtAad(a'')
  {
    Constants();
    ShortWrapParts(a, purpose, kdf);
    AadInjective(WrapParts(a, purpose, kdf), FidoParts(a', cred, rp, salt));
    AadInjective(WrapParts(a, purpose, kdf), [PASSWORD, a''.id, a''.server]);
    AadInjective(FidoParts(a', cred, rp, salt), [PASSWORD, a''.id, a''.server]);
  }

  lemma CtAadExact(a: Account, a': Account)
    requires ShortAccount(a) && ShortAccount(a')
    ensures CtAad(a) == CtAad(a') <==> a == a'
  {
    if CtAad(a) == CtAad(a') {
      Constants();
      var xs, ys := [PASSWORD, a.id, a.server], [PASSWORD, a'.id, a'.server];
      AadInjective(xs, ys);
      assert xs[1] == ys[1] && xs[2] == ys[2];
    }
  }

  /** Everything sealed in an envelope. */
  predicate IsBox(e: Envelope, box: Sealed) {
    || box == e.ct || box == e.master.box
    || (e.pin.Some? && box == e.pin.value.box)
    || IsFidoBox(e, box)
  }

  /** Assembled from the boxes of `e`, in any places, with any other fields. */
  predicate Spliced(e': Envelope, e: Envelope) {
    && IsBox(e, e'.ct) && IsBox(e, e'.master.box)
    && (e'.pin.Some? ==> IsBox(e, e'.pin.value.box))
    && forall i | 0 <= i < |e'.fido| :: IsBox(e, e'.fido[i].box)
  }

  predicate IsFidoBox(e: Envelope, box: Sealed) {
    exists i :: 0 <= i < |e.fido| && box == e.fido[i].box
  }

  lemma FidoBoxIsNoOther(e: Envelope, s: Safe, dek: Key, box: Sealed, a: Account, purpose: Bytes, kdf: Params)
    requires Represents(e, s, dek) && Short(e) && IsFidoBox(e, box)
    requires ShortAccount(a) && ShortParams(kdf) && |purpose| < TWO32
    ensures box.aad != WrapAad(a, purpose, kdf) && box.aad != CtAad(a)
  {
    hide Aad, WrapParts, FidoParts;
    var i :| 0 <= i < |e.fido| && box == e.fido[i].box;
    KindsApart(a, purpose, kdf, e.account, e.fido[i].cred, e.fido[i].rp, e.fido[i].salt, a);
  }

  /** A box of `e` that opens as a password wrap is `e`'s own wrap for that purpose. */
  lemma OpensAsWrap(e: Envelope, s: Safe, dek: Key, box: Sealed, a: Account, purpose: Bytes, kdf: Params, key: Bytes)
    requires Represents(e, s, dek) && Short(e) && IsBox(e, box)
    requires ShortAccount(a) && ShortParams(kdf) && (purpose == MASTER || purpose == PIN)
    requires Unseal(box, Kek(key, purpose), WrapAad(a, purpose, kdf)).Ok?
    ensures a == e.account
    ensures purpose == MASTER ==> PasswordWrap(kdf, box) == e.master && key == s.master.key
    ensures purpose == PIN ==> e.pin == Some(PasswordWrap(kdf, box)) && key == s.pin.value.key
  {
    Constants();
    hide Aad, WrapParts, FidoParts;
    if box == e.ct {
      KindsApart(a, purpose, kdf, a, [], [], [], e.account);
    } else if box == e.master.box {
      WrapAadExact(a, purpose, kdf, e.account, MASTER, e.master.kdf);
      KekExact(key, purpose, s.master.key, MASTER);
    } else if e.pin.Some? && box == e.pin.value.box {
      WrapAadExact(a, purpose, kdf, e.account, PIN, e.pin.value.kdf);
      KekExact(key, purpose, s.pin.value.key, PIN);
    } else {
      FidoBoxIsNoOther(e, s, dek, box, a, purpose, kdf);
      assert false;
    }
  }

  /** A box of `e` that opens as a token's wrap is `e`'s own wrap for that token. */
  lemma OpensAsFido(e: Envelope, s: Safe, dek: Key, box: Sealed, a: Account, cred: Bytes, rp: Bytes, salt: Bytes,
                    hmac: Bytes)
      returns (i: nat)
    requires Represents(e, s, dek) && Short(e) && IsBox(e, box)
    requires ShortAccount(a) && |cred| < TWO32 && |rp| < TWO32 && |salt| < TWO32
    requires Unseal(box, Kek(hmac, FIDO), FidoAad(a, cred, rp, salt)).Ok?
    ensures a == e.account && i < |e.fido| && e.fido[i] == FidoWrap(cred, rp, salt, box) && hmac == s.fido[i].hmac
  {
    Constants();
    hide Aad, WrapParts, FidoParts;
    i := 0;
    if box == e.ct {
      KindsApart(a, PIN, e.master.kdf, a, cred, rp, salt, e.account);
    } else if box == e.master.box {
      KindsApart(e.account, MASTER, e.master.kdf, a, cred, rp, salt, a);
    } else if e.pin.Some? && box == e.pin.value.box {
      KindsApart(e.account, PIN, e.pin.value.kdf, a, cred, rp, salt, a);
    } else {
      i :| 0 <= i < |e.fido| && box == e.fido[i].box;
      FidoAadExact(a, cred, rp, salt, e.account, e.fido[i].cred, e.fido[i].rp, e.fido[i].salt);
      KekExact(hmac, FIDO, s.fido[i].hmac, FIDO);
    }
  }

  /** The wrap a way of unlocking uses. */
  function WrapBox(e: Envelope, via: Via): Option<(Account, Params, Bytes, Bytes, Sealed)> {
    match via
    case ByMaster(_) => Some((e.account, e.master.kdf, [], [], e.master.box))
    case ByPin(_) => if e.pin.None? then None else Some((e.account, e.pin.value.kdf, [], [], e.pin.value.box))
    case ByFinger => None
    case ByFido(cred, _) =>
      var at := FidoIndex(e.fido, cred);
      if at == |e.fido| then None
      else Some((e.account, Params([], [], 0, 0, 0), e.fido[at].rp, e.fido[at].salt, e.fido[at].box))
  }

  lemma OwnToken(e: Envelope, s: Safe, dek: Key, i: nat)
    requires Represents(e, s, dek) && Validates(e) && i < |e.fido|
    ensures FidoIndex(e.fido, e.fido[i].cred) == i && TokenIndex(s.fido, e.fido[i].cred) == i
  {
    SameIndex(e, s, dek, e.fido[i].cred);
    TokenAt(s.fido, s.fido[i].cred, i);
  }

  /** Put together from an envelope's boxes, an envelope gives up its data key only where
      account, parameters and box are all the original's, to that way's own key. Edit any
      bound field, move a box to another place, try another purpose's key: nothing. */
  lemma SplicedOpensNothing(e: Envelope, s: Safe, dek: Key, e': Envelope, via: Via)
    requires Represents(e, s, dek) && Validates(e) && Short(e) && Short(e') && Spliced(e', e)
    requires !via.ByFinger? && Dek(e', via).Ok?
    ensures WrapBox(e', via) == WrapBox(e, via) && Unlocks(s, via).Ok? && Dek(e', via) == Ok(dek)
  {
    hide Aad, WrapParts, FidoParts;
    match via
    case ByMaster(key) => OpensAsWrap(e, s, dek, e'.master.box, e'.account, MASTER, e'.master.kdf, key);
    case ByPin(key) => OpensAsWrap(e, s, dek, e'.pin.value.box, e'.account, PIN, e'.pin.value.kdf, key);
    case ByFido(cred, hmac) =>
      var w := e'.fido[FidoIndex(e'.fido, cred)];
      var i := OpensAsFido(e, s, dek, w.box, e'.account, w.cred, w.rp, w.salt, hmac);
      OwnToken(e, s, dek, i);
  }

  /** ... and what it then opens is the current password of the same account. */
  lemma SplicedOpensThePassword(e: Envelope, s: Safe, dek: Key, e': Envelope, via: Via)
    requires Represents(e, s, dek) && Short(e) && Short(e') && Spliced(e', e)
    requires Open(e', via).Ok?
    ensures e'.account == e.account && Open(e', via) == Ok(s.password)
  {
    Constants();
    hide Aad, WrapParts, FidoParts;
    var a := e'.account;
    CtAadExact(a, e.account);
    if e'.ct == e.master.box {
      KindsApart(e.account, MASTER, e.master.kdf, a, [], [], [], a);
    } else if e.pin.Some? && e'.ct == e.pin.value.box {
      KindsApart(e.account, PIN, e.pin.value.kdf, a, [], [], [], a);
    } else if e'.ct != e.ct {
      FidoBoxIsNoOther(e, s, dek, e'.ct, a, PIN, e.master.kdf);
      assert false;
    }
  }

  // ---- rollback ----

  /** The earlier envelope had a wrap for this way. */
  predicate Had(prior: Envelope, via: Via) {
    match via
    case ByMaster(_) => true
    case ByPin(_) => prior.pin.Some?
    case ByFinger => prior.fingerprint.Some?
    case ByFido(cred, _) => FidoIndex(prior.fido, cred) < |prior.fido|
  }

  /** `e` with that one wrap put back, in its place among the current ones. */
  function Restored(e: Envelope, prior: Envelope, via: Via): Envelope
    requires Had(prior, via)
  {
    match via
    case ByMaster(_) => e.(master := prior.master)
    case ByPin(_) => e.(pin := prior.pin)
    case ByFinger => e.(fingerprint := prior.fingerprint)
    case ByFido(cred, _) =>
      e.(fido := PutAt(e.fido, FidoIndex(e.fido, cred), prior.fido[FidoIndex(prior.fido, cred)]))
  }

  predicate HadSafe(prior: Safe, via: Via) {
    match via
    case ByMaster(_) => true
    case ByPin(_) => prior.pin.Some?
    case ByFinger => prior.fingerprint
    case ByFido(cred, _) => TokenIndex(prior.fido, cred) < |prior.fido|
  }

  function RestoredSafe(s: Safe, prior: Safe, via: Via): Safe
    requires HadSafe(prior, via)
  {
    match via
    case ByMaster(_) => s.(master := prior.master)
    case ByPin(_) => s.(pin := prior.pin)
    case ByFinger => s.(fingerprint := prior.fingerprint)
    case ByFido(cred, _) =>
      s.(fido := PutAt(s.fido, TokenIndex(s.fido, cred), prior.fido[TokenIndex(prior.fido, cred)]))
  }

  lemma RestoredRepresents(prior: Envelope, past: Safe, e: Envelope, s: Safe, dek: Key, via: Via)
    requires Represents(prior, past, dek) && Represents(e, s, dek) && past.account == s.account && Had(prior, via)
    ensures HadSafe(past, via) && Represents(Restored(e, prior, via), RestoredSafe(s, past, via), dek)
  {
    hide Aad;
    if via.ByFido? {
      SameIndex(prior, past, dek, via.credential);
      SameIndex(e, s, dek, via.credential);
    }
  }

  /** Another way in: another kind, or another credential. */
  predicate OtherWay(via: Via, other: Via) {
    match via
    case ByMaster(_) => !other.ByMaster?
    case ByPin(_) => !other.ByPin?
    case ByFinger => !other.ByFinger?
    case ByFido(cred, _) => other.ByFido? ==> other.credential != cred
  }

  lemma RestoredUnlocks(s: Safe, past: Safe, via: Via, other: Via)
    requires HadSafe(past, via) && OtherWay(via, other)
    ensures Unlocks(RestoredSafe(s, past, via), via) == Unlocks(past, via)
    ensures Unlocks(RestoredSafe(s, past, via), other) == Unlocks(s, other)
  {
    if via.ByFido? {
      var at := TokenIndex(s.fido, via.credential);
      var token := past.fido[TokenIndex(past.fido, via.credential)];
      PutIndex(s.fido, at, token, via.credential);
      if other.ByFido? { PutIndex(s.fido, at, token, other.credential); }
    }
  }

  /** Putting a token in its own place moves no other. */
  lemma PutIndex(fido: seq<Token>, at: nat, token: Token, cred: Bytes)
    requires at == TokenIndex(fido, token.cred)
    ensures var fido' := PutAt(fido, at, token);
            if cred == token.cred then TokenIndex(fido', cred) == at
            else if TokenIndex(fido, cred) < |fido| then
              var k := TokenIndex(fido, cred);
              TokenIndex(fido', cred) == k && fido'[k] == fido[k]
            else TokenIndex(fido', cred) == |fido'|
  {
    var fido' := PutAt(fido, at, token);
    var a, b := TokenIndex(fido, cred), TokenIndex(fido', cred);
    assert forall i | 0 <= i < |fido| && i != at :: fido'[i] == fido[i];
    assert fido'[at] == token;
  }

  /** What the format does not protect against: the data key never changes, so a wrap from
      an earlier envelope of the same account, put back, opens the current password exactly
      where it opened the password of its time, and by exactly its own key. Every other way
      opens as before. */
  lemma RollbackOpens(prior: Envelope, past: Safe, e: Envelope, s: Safe, dek: Key, via: Via, other: Via)
    requires Represents(prior, past, dek) && Represents(e, s, dek) && past.account == s.account
    requires Had(prior, via) && OtherWay(via, other)
    ensures Open(Restored(e, prior, via), via) ==
            if Unlocks(past, via).Ok? then Ok(s.password) else Err(Unlocks(past, via).error)
    ensures Open(Restored(e, prior, via), other) == Open(e, other)
  {
    hide Aad, Open, Dek, Unlocks, Represents, RestoredSafe, Restored;
    RestoredRepresents(prior, past, e, s, dek, via);
    RestoredUnlocks(s, past, via, other);
    SamePassword(s, past, via);
    OpensAsTheSafe(Restored(e, prior, via), RestoredSafe(s, past, via), dek, via);
    OpensAsTheSafe(Restored(e, prior, via), RestoredSafe(s, past, via), dek, other);
    OpensAsTheSafe(e, s, dek, other);
  }

  lemma SamePassword(s: Safe, past: Safe, via: Via)
    requires HadSafe(past, via)
    ensures RestoredSafe(s, past, via).password == s.password
  {
  }
}
