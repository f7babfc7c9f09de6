/** The envelope as the object its operations change, proved against the safe it stands for. */
module EnvelopeObject {
  import opened Base
  import opened EnvelopeModel

  class EnvelopeBox {
    const account: Account
    var stale: bool
    var ct: Sealed
    var master: PasswordWrap
    var pin: Option<PasswordWrap>
    var fingerprint: Option<Key>
    var fido: seq<FidoWrap>
    ghost var safe: Safe
    ghost const dek: Key

    function View(): Envelope
      reads this
    {
      Envelope(account, stale, ct, master, pin, fingerprint, fido)
    }

    /** The fields represent the safe, and would be accepted when read back. */
    ghost predicate Valid()
      reads this
    {
      Represents(View(), safe, dek) && Validates(View())
    }

    /** A random data key, the password sealed under it, and the master wrap only. */
    constructor (owner: Account, password: Bytes, kdf: Params, key: Bytes, random: Key)
      requires AccountOk(owner) && CheckParams(kdf).Ok? && CheckPassword(password).Ok?
      ensures Valid() && dek == random
      ensures safe == Safe(owner, password, false, Enrolled(kdf, key), None, false, [])
    {
      account, stale, dek := owner, false, random;
      ct := Sealed(random, CtAad(owner), Secret(password));
      master := WrapFor(owner, MASTER, Enrolled(kdf, key), random);
      pin, fingerprint, fido := None, None, [];
      safe := Safe(owner, password, false, Enrolled(kdf, key), None, false, []);
    }

    /** The password through one method: what the safe says, for every input. */
    method Open(via: Via) returns (r: Result<Bytes>)
      requires Valid()
      ensures r == OpenSafe(safe, via)
    {
      OpensAsTheSafe(View(), safe, dek, via);
      r := EnvelopeModel.Open(View(), via);
    }

    method Reach(auth: Via) returns (r: Result<Key>)
      requires Valid()
      ensures r == if Unlocks(safe, auth).Ok? then Ok(dek) else Err(Unlocks(safe, auth).error)
    {
      DekIsReached(View(), safe, dek, auth);
      r := Dek(View(), auth);
    }

    method SetPin(auth: Via, kdf: Params, key: Bytes) returns (r: Result<()>)
      requires Valid()
      modifies this
      ensures Valid() && Follows(old(safe), AddPin(auth, kdf, key), safe, r)
    {
      hide Aad, Dek, Unlocks;
      var checked := CheckPin(kdf);
      if checked.Err? {
        return checked;
      }
      var reached := Reach(auth);
      if reached.Err? {
        return Err(reached.error);
      }
      pin := Some(WrapFor(account, PIN, Enrolled(kdf, key), reached.value));
      safe := After(safe, AddPin(auth, kdf, key));
      return Ok(());
    }

    method SetFingerprint(auth: Via) returns (r: Result<()>)
      requires Valid()
      modifies this
      ensures Valid() && Follows(old(safe), AddFingerprint(auth), safe, r)
    {
      hide Aad, Dek, Unlocks;
      var reached := Reach(auth);
      if reached.Err? {
        return Err(reached.error);
      }
      fingerprint := Some(reached.value);
      safe := After(safe, AddFingerprint(auth));
      return Ok(());
    }

    method FindToken(cred: Bytes) returns (at: nat)
      requires Valid()
      ensures at == TokenIndex(safe.fido, cred)
      ensures at <= |fido| == |safe.fido| && (at < |fido| ==> fido[at].cred == cred)
      ensures forall i | 0 <= i < at :: fido[i].cred != cred
    {
      hide Aad, Represents, Validates;
      SameIndex(View(), safe, dek, cred);
      at := 0;
      while at < |fido| && fido[at].cred != cred
        invariant at <= |fido| && forall i | 0 <= i < at :: fido[i].cred != cred
      {
        at := at + 1;
      }
    }

    method SetToken(auth: Via, cred: Bytes, rp: Bytes, salt: Bytes, hmac: Bytes) returns (r: Result<()>)
      requires Valid()
      modifies this
      ensures Valid() && Follows(old(safe), AddFido(auth, cred, rp, salt, hmac), safe, r)
    {
      hide Aad, Dek, Unlocks, CheckFido;
      var checked := CheckFido(cred, rp, salt);
      if checked.Err? {
        return checked;
      }
      var reached := Reach(auth);
      if reached.Err? {
        return Err(reached.error);
      }
      var replacing := FindToken(cred);
      if replacing == |fido| && |fido| >= MAX_FIDO_WRAPS {
        return Err(Policy);
      }
      var wrap := FidoFor(account, Token(cred, rp, salt, hmac), reached.value);
      if replacing == |fido| {
        fido := fido + [wrap];
      } else {
        fido := fido[replacing := wrap];
      }
      TokenPut(old(View()), safe, dek, Token(cred, rp, salt, hmac), replacing);
      hide Represents, Validates;
      safe := After(safe, AddFido(auth, cred, rp, salt, hmac));
      return Ok(());
    }

    method DropToken(cred: Bytes) returns (r: Result<()>)
      requires Valid()
      modifies this
      ensures Valid() && Follows(old(safe), Remove(FidoMethod(cred)), safe, r)
    {
      hide Aad, CheckFido, CheckParams, Without;
      var at := FindToken(cred);
      if at == |fido| {
        return Err(Missing);
      }
      fido := Without(fido, at);
      safe := After(safe, Remove(FidoMethod(cred)));
      return Ok(());
    }

    method Drop(way: Method) returns (r: Result<()>)
      requires Valid()
      modifies this
      ensures Valid() && Follows(old(safe), Remove(way), safe, r)
    {
      hide Aad;
      if way.FidoMethod? {
        r := DropToken(way.credential);
        return;
      }
      if way.PinMethod? {
        if pin.None? {
          return Err(Missing);
        }
        pin := None;
      } else {
        if fingerprint.None? {
          return Err(Missing);
        }
        fingerprint := None;
      }
      safe := After(safe, Remove(way));
      return Ok(());
    }

    method SetStale()
      requires Valid()
      modifies this
      ensures Valid() && Follows(old(safe), MarkStale, safe, Ok(()))
    {
      stale := true;
      safe := After(safe, MarkStale);
    }

    /** The data key stays, so every other wrap stays valid for the new password. */
    method Reseal(auth: Via, password: Bytes, kdf: Params, key: Bytes) returns (r: Result<()>)
      requires Valid()
      modifies this
      ensures Valid() && Follows(old(safe), Rotate(auth, password, kdf, key), safe, r)
    {
      hide Aad, Dek, Unlocks;
      var ok := CheckPassword(password);
      if ok.Err? {
        return ok;
      }
      var checked := CheckParams(kdf);
      if checked.Err? {
        return checked;
      }
      var reached := Reach(auth);
      if reached.Err? {
        return Err(reached.error);
      }
      ct := Sealed(reached.value, CtAad(account), Secret(password));
      master := WrapFor(account, MASTER, Enrolled(kdf, key), reached.value);
      stale := false;
      safe := After(safe, Rotate(auth, password, kdf, key));
      return Ok(());
    }

    method Apply(op: Op) returns (r: Result<()>)
      requires Valid()
      modifies this
      ensures Valid() && Follows(old(safe), op, safe, r)
    {
      hide Represents, Validates, Change;
      match op
      case AddPin(auth, kdf, key) => r := SetPin(auth, kdf, key);
      case AddFingerprint(auth) => r := SetFingerprint(auth);
      case AddFido(auth, cred, rp, salt, hmac) => r := SetToken(auth, cred, rp, salt, hmac);
      case Remove(way) => r := Drop(way);
      case MarkStale =>
        SetStale();
        r := Ok(());
      case Rotate(auth, password, kdf, key) => r := Reseal(auth, password, kdf, key);
    }
  }

  /** A wrap and the token it stands for, put in the same place. */
  lemma TokenPut(e: Envelope, s: Safe, dek: Key, t: Token, at: nat)
    requires Represents(e, s, dek) && Validates(e) && CheckFido(t.cred, t.rp, t.salt).Ok?
    requires at == TokenIndex(s.fido, t.cred) && (at == |s.fido| ==> |s.fido| < MAX_FIDO_WRAPS)
    ensures var e' := e.(fido := PutAt(e.fido, at, FidoFor(s.account, t, dek)));
            var s' := s.(fido := PutAt(s.fido, at, t));
            Represents(e', s', dek) && Validates(e')
  {
    hide PutAt, CheckFido, CheckParams, Aad, TextOk;
    SameIndex(e, s, dek, t.cred);
    var fido := PutAt(e.fido, at, FidoFor(s.account, t, dek));
    forall i | 0 <= i < |e.fido| && i != at ensures e.fido[i].cred != t.cred {
      if at < i { assert e.fido[at].cred != e.fido[i].cred; }
    }
    assert forall i, j | 0 <= i < j < |fido| :: fido[i].cred != fido[j].cred;
  }

  /** The operation did to the safe what it is for, with the right answer. */
  predicate Follows(before: Safe, op: Op, after: Safe, r: Result<()>) {
    && after == After(before, op)
    && r == (if Change(before, op).Ok? then Ok(()) else Err(Change(before, op).error))
  }

  function AfterAll(s: Safe, ops: seq<Op>): Safe {
    if ops == [] then s else After(AfterAll(s, ops[..|ops| - 1]), ops[|ops| - 1])
  }

  function NewSafe(owner: Account, password: Bytes, kdf: Params, key: Bytes): Safe {
    Safe(owner, password, false, Enrolled(kdf, key), None, false, [])
  }

  function CheckCreate(owner: Account, password: Bytes, kdf: Params): Result<()> {
    if !AccountOk(owner) then Err(Policy)
    else
      var _ :- CheckParams(kdf);
      CheckPassword(password)
  }

  /** Any life of an envelope, opened any way at the end. */
  method Live(owner: Account, password: Bytes, kdf: Params, key: Bytes, random: Key, ops: seq<Op>, via: Via)
      returns (r: Result<Bytes>)
    ensures r == if CheckCreate(owner, password, kdf).Err? then Err(CheckCreate(owner, password, kdf).error)
                 else OpenSafe(AfterAll(NewSafe(owner, password, kdf, key), ops), via)
  {
    hide Represents, Validates, Change, OpenSafe;
    var checked := CheckCreate(owner, password, kdf);
    if checked.Err? {
      return Err(checked.error);
    }
    var e := new EnvelopeBox(owner, password, kdf, key, random);
    for i := 0 to |ops|
      invariant fresh(e) && e.Valid() && e.safe == AfterAll(NewSafe(owner, password, kdf, key), ops[..i])
    {
      assert ops[..i + 1][..i] == ops[..i];
      var _ := e.Apply(ops[i]);
    }
    assert ops[..|ops|] == ops;
    r := e.Open(via);
  }
}
