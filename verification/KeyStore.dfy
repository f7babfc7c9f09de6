/** The key store of the SSH agent: candidate loading, the vault state machine with
    its epoch counter, and the two checks that stand in front of every signature. */
module KeyStoreModel {
  import opened Base

  type Blob = seq<byte>

  const MAX_KEYS: nat := 128
  const MAX_PEM_BYTES: nat := 64 * 1024
  const MAX_METADATA_BYTES: nat := 256
  const MAX_FILTERED_BYTES: nat := 8 * 1024 * 1024

  // ---- vault state and epoch (state.rs) ----

  datatype VaultState = LoggedOut | Loading | Unlocked | LockedCached | LockedEmpty

  datatype Tracker = Tracker(epoch: nat, state: VaultState)

  const InitTracker := Tracker(0, LoggedOut)

  function TrackLoad(t: Tracker, epoch: nat): (r: (bool, Tracker)) {
    if epoch <= t.epoch then (false, t) else (true, Tracker(epoch, Loading))
  }

  function TrackPublish(t: Tracker, epoch: nat): (r: (bool, Tracker)) {
    if t.epoch != epoch || t.state != Loading then (false, t)
    else (true, t.(state := Unlocked))
  }

  function TrackLock(t: Tracker, epoch: nat, hasPublicCache: bool): Tracker {
    Tracker(Max(t.epoch, epoch), if hasPublicCache then LockedCached else LockedEmpty)
  }

  function TrackLogout(t: Tracker, epoch: nat): Tracker {
    Tracker(Max(t.epoch, epoch), LoggedOut)
  }

  predicate Allows(t: Tracker, epoch: nat) {
    t.epoch == epoch && t.state == Unlocked
  }

  // ---- keys and candidates (keystore.rs) ----

  datatype KeyType = Ed25519 | Rsa

  /** A parsed private key, with what the key itself yields: its public blob, its
      fingerprint and its one-line public form (`None` where encoding it fails). */
  datatype PrivateKey = PrivateKey(kind: KeyType, blob: Option<Blob>, fingerprint: string, openssh: Option<string>)

  /** What parsing the PEM of an item gives. */
  datatype Pem = Unreadable | Unsupported | InvalidRsa | Parsed(key: PrivateKey)

  datatype Item = Item(itemId: seq<byte>, name: seq<byte>, pemBytes: nat, pem: Pem,
                       metadata: Option<Option<Blob>>, fingerprint: string, reprompt: bool)

  datatype SkipCode = MalformedPrivateKey | InvalidPrivateKey | UnsupportedKeyType | MalformedPublicKey
                    | PublicKeyMismatch | FingerprintMismatch | RequiresReprompt | Duplicate

  datatype LoadError = StaleEpoch | FilteredPayloadTooLarge | TooManyKeys | PemTooLarge
                     | MetadataTooLarge | FailedCandidate

  datatype PublicIdentity = PublicIdentity(itemId: seq<byte>, name: seq<byte>, fingerprint: string,
                                           openssh: string, blob: Blob)
  datatype PrivateIdentity = PrivateIdentity(key: PrivateKey, index: nat)

  datatype Candidate = Candidate(epoch: nat, seen: nat, failed: bool, public: seq<PublicIdentity>,
                                 private: seq<PrivateIdentity>, skipped: seq<(seq<byte>, SkipCode)>)

  datatype AddResult = Added | Skipped(code: SkipCode) | Refused(error: LoadError)

  /** The UTF-8 character boundaries `String::truncate` may cut at. */
  predicate CharBoundary(text: seq<byte>, at: nat)
    requires at <= |text|
  {
    at == 0 || at == |text| || text[at] < 0x80 || text[at] >= 0xC0
  }

  function LastBoundary(text: seq<byte>, at: nat): (end: nat)
    requires at <= |text|
    ensures end <= at && CharBoundary(text, end)
    ensures forall i | end < i <= at :: !CharBoundary(text, i)
  {
    if CharBoundary(text, at) then at else LastBoundary(text, at - 1)
  }

  /** A name over the metadata limit is cut at the last character boundary within it. */
  function TruncatedName(name: seq<byte>): seq<byte> {
    if |name| > MAX_METADATA_BYTES then name[..LastBoundary(name, MAX_METADATA_BYTES)] else name
  }

  /** Why an item within the limits is not loaded, in the order the checks run. */
  function Defect(public: seq<PublicIdentity>, item: Item): Option<SkipCode> {
    if item.reprompt then Some(RequiresReprompt)
    else match item.pem
      case Unreadable => Some(MalformedPrivateKey)
      case Unsupported => Some(UnsupportedKeyType)
      case InvalidRsa => Some(InvalidPrivateKey)
      case Parsed(key) =>
        if item.metadata.None? then Some(MalformedPublicKey)
        else if key.blob.None? then Some(MalformedPrivateKey)
        else if item.metadata.value != key.blob then Some(PublicKeyMismatch)
        else if key.fingerprint != item.fingerprint then Some(FingerprintMismatch)
        else if exists i :: 0 <= i < |public| && public[i].blob == key.blob.value then Some(Duplicate)
        else if key.openssh.None? then Some(MalformedPublicKey)
        else None
  }

  function Add(c: Candidate, item: Item): (r: (Candidate, AddResult)) {
    var c := c.(seen := c.seen + 1);
    if c.seen > MAX_KEYS then (c.(failed := true), Refused(TooManyKeys))
    else if item.pemBytes > MAX_PEM_BYTES then (c.(failed := true), Refused(PemTooLarge))
    else if |item.itemId| > MAX_METADATA_BYTES then (c.(failed := true), Refused(MetadataTooLarge))
    else
      var defect := Defect(c.public, item);
      if defect.Some? then
        (c.(skipped := c.skipped + [(item.itemId, defect.value)]), Skipped(defect.value))
      else
        var key := item.pem.key;
        var identity := PublicIdentity(item.itemId, TruncatedName(item.name), key.fingerprint,
                                       key.openssh.value, key.blob.value);
        (c.(public := c.public + [identity], private := c.private + [PrivateIdentity(key, |c.public|)]), Added)
  }

  /** Every private key stands at the index of a public identity carrying its own blob,
      and no two public identities carry the same one. */
  ghost predicate Paired(public: seq<PublicIdentity>, private: seq<PrivateIdentity>) {
    && |private| <= |public| <= MAX_KEYS
    && (forall i | 0 <= i < |private| ::
          private[i].index == i && private[i].key.blob == Some(public[i].blob))
    && (forall i, j | 0 <= i < j < |public| :: public[i].blob != public[j].blob)
  }

  ghost predicate ValidCandidate(c: Candidate) {
    && Paired(c.public, c.private)
    && |c.private| == |c.public|
    && |c.public| <= c.seen
  }

  lemma AddKeepsCandidate(c: Candidate, item: Item)
    requires ValidCandidate(c)
    ensures ValidCandidate(Add(c, item).0)
    ensures Add(c, item).1.Refused? ==> Add(c, item).0.failed
  {
    var c' := Add(c, item).0;
    if Add(c, item).1.Added? {
      assert c'.public == c.public + [c'.public[|c.public|]];
    }
  }

  // ---- what becomes of an item ----

  /** Within the limits, of which 128 items in one load is the first. */
  predicate WithinLimits(seen: nat, item: Item) {
    seen < 128 && item.pemBytes <= 65536 && |item.itemId| <= 256
  }

  /** Its private key reads as a valid one of a supported kind, and nobody has to be asked
      for the master password first. */
  predicate Readable(item: Item) {
    !item.reprompt && item.pem.Parsed?
  }

  /** The vault's own copy of the public key is that of the private key. */
  predicate KeysMatch(item: Item) {
    Readable(item) && item.pem.key.blob.Some? && item.metadata == Some(item.pem.key.blob)
  }

  predicate Printed(item: Item) {
    KeysMatch(item) && item.fingerprint == item.pem.key.fingerprint
  }

  predicate Taken(public: seq<PublicIdentity>, item: Item)
    requires KeysMatch(item)
  {
    exists i :: 0 <= i < |public| && public[i].blob == item.pem.key.blob.value
  }

  /** Nothing is wrong with the item. */
  predicate Loadable(public: seq<PublicIdentity>, item: Item) {
    Printed(item) && !Taken(public, item) && item.pem.key.openssh.Some?
  }

  /** What each code means: everything checked before it is all right, and it is not. */
  predicate SkippedFor(public: seq<PublicIdentity>, item: Item, code: SkipCode) {
    match code
    case RequiresReprompt => item.reprompt
    case UnsupportedKeyType => !item.reprompt && item.pem.Unsupported?
    case InvalidPrivateKey => !item.reprompt && item.pem.InvalidRsa?
    case MalformedPrivateKey =>
      || (!item.reprompt && item.pem.Unreadable?)
      || (Readable(item) && item.metadata.Some? && item.pem.key.blob.None?)
    case PublicKeyMismatch =>
      Readable(item) && item.metadata.Some? && item.pem.key.blob.Some? && item.metadata.value != item.pem.key.blob
    case FingerprintMismatch => KeysMatch(item) && item.fingerprint != item.pem.key.fingerprint
    case Duplicate => Printed(item) && Taken(public, item)
    case MalformedPublicKey =>
      || (Readable(item) && item.metadata.None?)
      || (Printed(item) && !Taken(public, item) && item.pem.key.openssh.None?)
  }

  /** The public identity made of an item: its id, its name cut to 256 bytes at a character
      boundary, and the rest from the validated key. */
  ghost predicate IdentityOf(identity: PublicIdentity, item: Item) {
    && Printed(item)
    && identity.itemId == item.itemId && identity.fingerprint == item.fingerprint
    && Some(identity.blob) == item.pem.key.blob && Some(identity.openssh) == item.pem.key.openssh
    && identity.name <= item.name && |identity.name| <= 256
    && (|item.name| <= 256 ==> identity.name == item.name)
    && CharBoundary(item.name, |identity.name|)
    && forall i | |identity.name| < i <= |item.name| && i <= 256 :: !CharBoundary(item.name, i)
  }

  /** All that adding an item does. */
  ghost predicate AddSays(c: Candidate, item: Item, c': Candidate, r: AddResult) {
    && c'.epoch == c.epoch && c'.seen == c.seen + 1
    && (r.Refused? <==> !WithinLimits(c.seen, item))
    && (r.Added? <==> WithinLimits(c.seen, item) && Loadable(c.public, item))
    && (r.Refused? ==> c'.failed && r.error == LimitOf(c.seen, item))
    && (!r.Refused? ==> c'.failed == c.failed)
    && (r.Skipped? ==> SkippedFor(c.public, item, r.code) && c'.skipped == c.skipped + [(item.itemId, r.code)])
    && (!r.Skipped? ==> c'.skipped == c.skipped)
    && (!r.Added? ==> c'.public == c.public && c'.private == c.private)
    && (r.Added? ==>
          && |c'.public| == |c.public| + 1 && c'.public[..|c.public|] == c.public
          && IdentityOf(c'.public[|c.public|], item)
          && c'.private == c.private + [PrivateIdentity(item.pem.key, |c.public|)])
  }

  /** The limit an item beyond them exceeds first. */
  function LimitOf(seen: nat, item: Item): LoadError {
    if seen >= 128 then TooManyKeys else if item.pemBytes > 65536 then PemTooLarge else MetadataTooLarge
  }

  lemma DefectExact(public: seq<PublicIdentity>, item: Item)
    ensures Defect(public, item).None? <==> Loadable(public, item)
    ensures Defect(public, item).Some? ==> SkippedFor(public, item, Defect(public, item).value)
  {
  }

  /** An item is added if and only if it is within the limits and nothing is wrong with it;
      any other is refused for the first limit it exceeds or skipped for what is wrong. */
  lemma AddExact(c: Candidate, item: Item)
    ensures var (c', r) := Add(c, item); AddSays(c, item, c', r)
  {
    hide Defect, Loadable, SkippedFor, CharBoundary;
    DefectExact(c.public, item);
    var (c', r) := Add(c, item);
    if r.Added? {
      LoadableIsPrinted(c.public, item);
      NameCut(item.name);
      assert c'.public[..|c.public|] == c.public;
    }
  }

  lemma NameCut(name: seq<byte>)
    ensures var short := TruncatedName(name);
            && short <= name && |short| <= 256 && (|name| <= 256 ==> short == name)
            && CharBoundary(name, |short|)
            && forall i | |short| < i <= |name| && i <= 256 :: !CharBoundary(name, i)
  {
  }

  lemma LoadableIsPrinted(public: seq<PublicIdentity>, item: Item)
    requires Loadable(public, item)
    ensures Printed(item) && item.pem.key.openssh.Some?
  {
  }

  /** The codes exclude one another, so each is given exactly for what it says. */
  lemma OneCode(public: seq<PublicIdentity>, item: Item, code: SkipCode)
    requires SkippedFor(public, item, code)
    ensures Defect(public, item) == Some(code)
  {
  }

  // ---- the live store ----

  datatype Store = Store(tracker: Tracker, public: seq<PublicIdentity>, private: seq<PrivateIdentity>)

  const InitStore := Store(InitTracker, [], [])

  datatype Permit = Permit(epoch: nat, blob: Blob)
  datatype Signature = Signature(key: PrivateKey, message: seq<byte>, flags: nat)

  function BeginLoad(s: Store, epoch: nat, filteredBytes: nat): (Store, Option<Candidate>) {
    var (begun, t) := TrackLoad(s.tracker, epoch);
    if !begun then (s, None)
    else
      var s := Store(t, s.public, []);
      if filteredBytes > MAX_FILTERED_BYTES then (s, None)
      else (s, Some(Candidate(epoch, 0, false, [], [], [])))
  }

  function Publish(s: Store, load: Candidate): (Store, bool) {
    if load.failed then (s, false)
    else
      var (ok, t) := TrackPublish(s.tracker, load.epoch);
      if !ok then (s, false) else (Store(t, load.public, load.private), true)
  }

  function Lock(s: Store, epoch: nat): Store {
    Store(TrackLock(s.tracker, epoch, s.public != []), s.public, [])
  }

  function Logout(s: Store, epoch: nat): Store {
    Store(TrackLogout(s.tracker, epoch), [], [])
  }

  /** The first private key whose public identity carries `blob`, from position `from`. */
  function FindKey(s: Store, blob: Blob, from: nat): (r: Option<PrivateKey>)
    decreases |s.private| - from
  {
    if from >= |s.private| then None
    else
      var at := s.private[from].index;
      if at < |s.public| && s.public[at].blob == blob then Some(s.private[from].key)
      else FindKey(s, blob, from + 1)
  }

  function Authorize(s: Store, blob: Blob): Option<Permit> {
    if !Allows(s.tracker, s.tracker.epoch) || FindKey(s, blob, 0).None? then None
    else Some(Permit(s.tracker.epoch, blob))
  }

  /** The algorithm the request flags select, if the key has one for them (signing.rs). */
  predicate Signable(key: PrivateKey, flags: nat) {
    match key.kind
    case Ed25519 => flags == 0
    case Rsa => flags == 2 || flags == 4
  }

  function Sign(s: Store, permit: Permit, message: seq<byte>, flags: nat): Option<Signature> {
    if !Allows(s.tracker, permit.epoch) then None
    else
      var key := FindKey(s, permit.blob, 0);
      if key.None? || !Signable(key.value, flags) then None
      else Some(Signature(key.value, message, flags))
  }

  ghost predicate ValidStore(s: Store) {
    && Paired(s.public, s.private)
    && (s.private != [] ==> s.tracker.state == Unlocked)
  }

  ghost function Blobs(s: Store): set<Blob> {
    set i | 0 <= i < |s.private| && i < |s.public| :: s.public[i].blob
  }

  /** In a valid store the search finds a key exactly for the loaded blobs, and what it
      finds is that blob's own key. */
  lemma {:induction false} FindKeyExact(s: Store, blob: Blob, from: nat)
    requires ValidStore(s)
    ensures FindKey(s, blob, from).Some? <==>
            exists i :: from <= i < |s.private| && s.public[i].blob == blob
    ensures FindKey(s, blob, from).Some? ==> FindKey(s, blob, from).value.blob == Some(blob)
    decreases |s.private| - from
  {
    if from < |s.private| {
      FindKeyExact(s, blob, from + 1);
    }
  }

  // ---- runs of the store ----

  datatype Op = OpBegin(epoch: nat, filteredBytes: nat) | OpPublish(load: Candidate)
              | OpLock(epoch: nat) | OpLogout(epoch: nat)

  function Apply(s: Store, op: Op): Store {
    match op
    case OpBegin(epoch, n) => BeginLoad(s, epoch, n).0
    case OpPublish(load) => Publish(s, load).0
    case OpLock(epoch) => Lock(s, epoch)
    case OpLogout(epoch) => Logout(s, epoch)
  }

  function RunOps(s: Store, ops: seq<Op>): Store {
    if ops == [] then s else Apply(RunOps(s, ops[..|ops| - 1]), ops[|ops| - 1])
  }

  ghost predicate ValidOps(ops: seq<Op>) {
    forall i | 0 <= i < |ops| :: ops[i].OpPublish? ==> ValidCandidate(ops[i].load)
  }

  /** Private keys exist only while unlocked, each paired with its own public blob,
      after any operations; the epoch never goes back. */
  lemma {:induction false} StoreStaysValid(s: Store, ops: seq<Op>)
    requires ValidStore(s) && ValidOps(ops)
    ensures ValidStore(RunOps(s, ops))
    ensures s.tracker.epoch <= RunOps(s, ops).tracker.epoch
  {
    if ops != [] {
      StoreStaysValid(s, ops[..|ops| - 1]);
    }
  }

  /** The unlocked interval of `epoch` is over and cannot come back. */
  ghost predicate Over(t: Tracker, epoch: nat) {
    t.epoch > epoch || (t.epoch == epoch && t.state != Unlocked && t.state != Loading)
  }

  /** The same store, or one in which the other's interval is over. */
  ghost predicate Later(s': Store, s: Store) {
    s.tracker.epoch <= s'.tracker.epoch && (s' == s || Over(s'.tracker, s.tracker.epoch))
  }

  lemma LaterOn(a: Store, b: Store, c: Store)
    requires Later(b, a) && Later(c, b)
    ensures Later(c, a)
  {
  }

  lemma LocksAreLater(s: Store, epoch: nat)
    ensures Later(Lock(s, epoch), s) && Later(Logout(s, epoch), s)
  {
  }

  lemma {:induction false} OverForGood(s: Store, ops: seq<Op>, epoch: nat)
    requires Over(s.tracker, epoch)
    ensures Over(RunOps(s, ops).tracker, epoch)
  {
    if ops != [] {
      OverForGood(s, ops[..|ops| - 1], epoch);
    }
  }

  lemma {:induction false} RunSplit(s: Store, xs: seq<Op>, ys: seq<Op>)
    ensures RunOps(s, xs + ys) == RunOps(RunOps(s, xs), ys)
  {
    if ys == [] {
      assert xs + ys == xs;
    } else {
      RunSplit(s, xs, ys[..|ys| - 1]);
      assert (xs + ys)[..|xs + ys| - 1] == xs + ys[..|ys| - 1];
    }
  }

  /** One contiguous interval per epoch: if the store is unlocked at the same epoch before
      and after some operations, none of them changed anything at all. */
  lemma {:induction false} EpochWindow(s: Store, ops: seq<Op>, j: nat)
    requires Allows(s.tracker, s.tracker.epoch)
    requires Allows(RunOps(s, ops).tracker, s.tracker.epoch)
    requires j <= |ops|
    ensures RunOps(s, ops[..j]) == s
  {
    if j > 0 {
      EpochWindow(s, ops, j - 1);
      assert ops[..j][..j - 1] == ops[..j - 1];
      var s' := RunOps(s, ops[..j]);
      assert ops[..j] + ops[j..] == ops;
      RunSplit(s, ops[..j], ops[j..]);
      if s' != s {
        OverForGood(s', ops[j..], s.tracker.epoch);
        assert false;
      }
    }
  }

  /** A permit signs later only if nothing happened in between: not used within the
      interval it was issued in, it never signs afterwards, and what it signs with is
      the key of the blob it was issued for. */
  lemma PermitWindow(s: Store, ops: seq<Op>, blob: Blob, message: seq<byte>, flags: nat, j: nat)
    requires ValidStore(s) && ValidOps(ops)
    requires Authorize(s, blob).Some?
    requires Sign(RunOps(s, ops), Authorize(s, blob).value, message, flags).Some?
    requires j <= |ops|
    ensures RunOps(s, ops[..j]) == s
    ensures Sign(RunOps(s, ops), Authorize(s, blob).value, message, flags).value.key.blob == Some(blob)
    ensures blob in Blobs(s)
  {
    EpochWindow(s, ops, j);
    StoreStaysValid(s, ops);
    FindKeyExact(RunOps(s, ops), blob, 0);
    FindKeyExact(s, blob, 0);
  }
}
