/** The key store as the objects that hold it: the state tracker, a candidate load and the
    live store, each proved against the functions of `KeyStoreModel`. */
module KeyStoreObject {
  import opened Base
  import opened KeyStoreModel

  class StateTracker {
    var epoch: nat
    var state: VaultState

    function View(): Tracker
      reads this
    {
      Tracker(epoch, state)
    }

    constructor ()
      ensures View() == InitTracker
    {
      epoch := 0;
      state := LoggedOut;
    }

    method BeginLoad(newEpoch: nat) returns (ok: bool)
      modifies this
      ensures (ok, View()) == TrackLoad(old(View()), newEpoch)
    {
      if newEpoch <= epoch {
        return false;
      }
      epoch := newEpoch;
      state := Loading;
      return true;
    }

    method Publish(loadEpoch: nat) returns (ok: bool)
      modifies this
      ensures (ok, View()) == TrackPublish(old(View()), loadEpoch)
    {
      if epoch != loadEpoch || state != Loading {
        return false;
      }
      state := Unlocked;
      return true;
    }

    method Lock(lockEpoch: nat, hasPublicCache: bool)
      modifies this
      ensures View() == TrackLock(old(View()), lockEpoch, hasPublicCache)
    {
      epoch := Max(epoch, lockEpoch);
      state := if hasPublicCache then LockedCached else LockedEmpty;
    }

    method Logout(logoutEpoch: nat)
      modifies this
      ensures View() == TrackLogout(old(View()), logoutEpoch)
    {
      epoch := Max(epoch, logoutEpoch);
      state := LoggedOut;
    }
  }

  class CandidateLoad {
    var epoch: nat
    var seen: nat
    var failed: bool
    var public: seq<PublicIdentity>
    var private: seq<PrivateIdentity>
    var skipped: seq<(seq<byte>, SkipCode)>

    function View(): Candidate
      reads this
    {
      Candidate(epoch, seen, failed, public, private, skipped)
    }

    ghost predicate Valid()
      reads this
    {
      ValidCandidate(View())
    }

    constructor (loadEpoch: nat)
      ensures View() == Candidate(loadEpoch, 0, false, [], [], []) && Valid()
    {
      epoch, seen, failed, public, private, skipped := loadEpoch, 0, false, [], [], [];
    }

    method Skip(itemId: seq<byte>, code: SkipCode) returns (r: AddResult)
      modifies this`skipped
      ensures skipped == old(skipped) + [(itemId, code)] && r == Skipped(code)
    {
      skipped := skipped + [(itemId, code)];
      return Skipped(code);
    }

    /** Validate and add one item: a defect is a skip, a limit poisons the candidate. */
    method Add(item: Item) returns (r: AddResult)
      requires Valid()
      modifies this
      ensures Valid() && (View(), r) == KeyStoreModel.Add(old(View()), item)
      ensures AddSays(old(View()), item, View(), r)
    {
      hide AddSays;
      AddKeepsCandidate(View(), item);
      AddExact(View(), item);
      seen := seen + 1;
      if seen > MAX_KEYS {
        failed := true;
        return Refused(TooManyKeys);
      }
      if item.pemBytes > MAX_PEM_BYTES {
        failed := true;
        return Refused(PemTooLarge);
      }
      if |item.itemId| > MAX_METADATA_BYTES {
        failed := true;
        return Refused(MetadataTooLarge);
      }
      var name := Shorten(item.name);
      var defect := Check(item);
      if defect.Some? {
        r := Skip(item.itemId, defect.value);
        return;
      }
      var key := item.pem.key;
      var index := |public|;
      public := public + [PublicIdentity(item.itemId, name, key.fingerprint, key.openssh.value, key.blob.value)];
      private := private + [PrivateIdentity(key, index)];
      return Added;
    }

    /** Cut a long name back to a character boundary. */
    static method Shorten(name: seq<byte>) returns (short: seq<byte>)
      ensures short == TruncatedName(name)
      ensures |short| <= MAX_METADATA_BYTES && short <= name
    {
      if |name| <= MAX_METADATA_BYTES {
        return name;
      }
      var end := MAX_METADATA_BYTES;
      while end > 0 && !CharBoundary(name, end)
        invariant 0 <= end <= MAX_METADATA_BYTES
        invariant LastBoundary(name, end) == LastBoundary(name, MAX_METADATA_BYTES)
      {
        end := end - 1;
      }
      return name[..end];
    }

    /** The first of the checks the item fails. */
    method Check(item: Item) returns (defect: Option<SkipCode>)
      ensures defect == Defect(public, item)
      ensures defect.None? <==> Loadable(public, item)
      ensures defect.Some? ==> SkippedFor(public, item, defect.value)
    {
      hide Loadable, SkippedFor;
      DefectExact(public, item);
      if item.reprompt { return Some(RequiresReprompt); }
      if item.pem.Unreadable? { return Some(MalformedPrivateKey); }
      if item.pem.Unsupported? { return Some(UnsupportedKeyType); }
      if item.pem.InvalidRsa? { return Some(InvalidPrivateKey); }
      if item.metadata.None? { return Some(MalformedPublicKey); }
      var key := item.pem.key;
      if key.blob.None? { return Some(MalformedPrivateKey); }
      if item.metadata.value != key.blob { return Some(PublicKeyMismatch); }
      if key.fingerprint != item.fingerprint { return Some(FingerprintMismatch); }
      var duplicate := false;
      for i := 0 to |public|
        invariant duplicate <==> exists k :: 0 <= k < i && public[k].blob == key.blob.value
      {
        duplicate := duplicate || public[i].blob == key.blob.value;
      }
      if duplicate { return Some(Duplicate); }
      if key.openssh.None? { return Some(MalformedPublicKey); }
      return None;
    }
  }

  class KeyStore {
    const tracker: StateTracker
    var public: seq<PublicIdentity>
    var private: seq<PrivateIdentity>

    function View(): Store
      reads this, tracker
    {
      Store(tracker.View(), public, private)
    }

    ghost predicate Valid()
      reads this, tracker
    {
      ValidStore(View())
    }

    constructor ()
      ensures Valid() && View() == InitStore && fresh(tracker)
    {
      tracker := new StateTracker();
      public, private := [], [];
    }

    /** Enter loading and drop the previous private set before anything is validated. */
    method BeginLoad(epoch: nat, filteredBytes: nat) returns (load: CandidateLoad?)
      requires Valid()
      modifies this, tracker
      ensures Valid()
      ensures View() == KeyStoreModel.BeginLoad(old(View()), epoch, filteredBytes).0
      ensures load == null <==> KeyStoreModel.BeginLoad(old(View()), epoch, filteredBytes).1.None?
      ensures load != null ==> fresh(load) && load.Valid()
                               && Some(load.View()) == KeyStoreModel.BeginLoad(old(View()), epoch, filteredBytes).1
    {
      var begun := tracker.BeginLoad(epoch);
      if !begun {
        return null;
      }
      private := [];
      if filteredBytes > MAX_FILTERED_BYTES {
        return null;
      }
      load := new CandidateLoad(epoch);
    }

    /** Replace both sets with one validated load, or change nothing. */
    method Publish(load: CandidateLoad) returns (ok: bool)
      requires Valid() && load.Valid()
      modifies this, tracker
      ensures Valid() && (View(), ok) == KeyStoreModel.Publish(old(View()), load.View())
    {
      if load.failed {
        return false;
      }
      var published := tracker.Publish(load.epoch);
      if !published {
        return false;
      }
      public := load.public;
      private := load.private;
      return true;
    }

    method Lock(epoch: nat)
      requires Valid()
      modifies this, tracker
      ensures Valid() && View() == KeyStoreModel.Lock(old(View()), epoch)
    {
      tracker.Lock(epoch, |public| > 0);
      private := [];
    }

    method Logout(epoch: nat)
      requires Valid()
      modifies this, tracker
      ensures Valid() && View() == KeyStoreModel.Logout(old(View()), epoch)
    {
      tracker.Logout(epoch);
      private := [];
      public := [];
    }

    /** The key of `blob`; every private index is in range. */
    method Find(blob: Blob) returns (key: Option<PrivateKey>)
      requires Valid()
      ensures key == FindKey(View(), blob, 0)
      ensures key.Some? ==> key.value.blob == Some(blob)
    {
      FindKeyExact(View(), blob, 0);
      for i := 0 to |private|
        invariant FindKey(View(), blob, 0) == FindKey(View(), blob, i)
      {
        if public[private[i].index].blob == blob {
          return Some(private[i].key);
        }
      }
      return None;
    }

    method Authorize(blob: Blob) returns (permit: Option<Permit>)
      requires Valid()
      ensures permit == KeyStoreModel.Authorize(View(), blob)
      ensures permit.Some? <==> tracker.state == Unlocked && blob in Blobs(View())
    {
      FindKeyExact(View(), blob, 0);
      if tracker.state != Unlocked {
        return None;
      }
      var key := Find(blob);
      if key.None? {
        return None;
      }
      return Some(Permit(tracker.epoch, blob));
    }

    /** The last check in front of the signing primitive. */
    method Sign(permit: Permit, message: seq<byte>, flags: nat) returns (r: Option<Signature>)
      requires Valid()
      ensures r == KeyStoreModel.Sign(View(), permit, message, flags)
      ensures r.Some? ==> r.value.key.blob == Some(permit.blob) && Allows(tracker.View(), permit.epoch)
    {
      if tracker.epoch != permit.epoch || tracker.state != Unlocked {
        return None;
      }
      var key := Find(permit.blob);
      if key.None? || !Signable(key.value, flags) {
        return None;
      }
      return Some(Signature(key.value, message, flags));
    }
  }
}
