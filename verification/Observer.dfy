/** What the agent exchanges with the world, and a reference monitor over it.

    The log holds only what passes through the agent's interfaces: requests delivered by
    clients, messages from the panel, messages to the panel, replies, clock readings and
    (the one internal event) a grant being opened. `Observer` is what somebody reading that
    log knows, and `Legal` says which signatures and grants they would call justified. It
    mentions none of the agent's tables. */
module ObserverModel {
  import opened Base
  import opened KeyStoreModel
  import opened ApprovalModel

  /** One reply channel: a fresh one for every request the server delivers. */
  type Chan = nat

  datatype ClientRequest = Identities | SignData(blob: Blob, message: seq<byte>, flags: nat) | SessionBind

  /** A delivered request, with the kind `classify_sign` reads from its data. */
  datatype Client = Client(peer: Peer, forwarded: bool, kind: SignKind, request: ClientRequest)

  function Scope(c: Client): SignScope {
    SignScope(c.kind, c.forwarded)
  }

  datatype Response = Failure | Signed(signature: Signature) | Listing(keys: seq<(Blob, seq<byte>)>)

  datatype Control = Hello | KeyLoadBegin(epoch: nat, loadId: seq<byte>) | KeyLoadEnd(epoch: nat, ok: bool)
                   | VaultLocked(epoch: nat) | VaultLoggedOut
                   | ApproveRequest(id: RequestId, duration: GrantDuration)
                   | Deny(id: RequestId) | UnlockCancelled(id: RequestId)
                   | Options(unlockOnDemand: bool) | RevokeGrants | RevokeOne(grantId: GrantId) | Shutdown

  /** Messages to the panel. `chan` on a prompt is the request it stands for; it is not
      part of the message. */
  datatype Output = Ready
                  | ApprovalRequired(id: RequestId, chan: Chan, key: PublicIdentity, peer: Peer,
                                     scope: SignScope, grantOffered: bool)
                  | UnlockRequired(id: RequestId, chan: Chan, cached: Option<PublicIdentity>, peer: Peer,
                                   scope: SignScope, grantOffered: bool)
                  | LockedAck(epoch: nat) | LoadFailed(epoch: nat)
                  | KeysLoaded(epoch: nat, count: nat) | PublicKey(epoch: nat, identity: PublicIdentity)
                  | RequestCancelled(id: RequestId, reason: string)
                  | GrantsChanged(grants: seq<Grant>)

  datatype Entry = Delivered(chan: Chan, client: Client) | Told(control: Control) | Emitted(output: Output)
                 | Replied(chan: Chan, response: Response) | Opened(grant: Grant, chan: Chan) | Clock(now: nat)

  /** Requests and the prompts raised for them. */
  datatype Book = Book(
    requests: map<Chan, Client>,          // delivered so far
    answered: map<Chan, Response>,        // and replied to
    prompts: map<RequestId, Chan>,        // every prompt raised for a sign request
    home: map<Chan, RequestId>)           // the latest of them for each request

  /** The published keys. */
  datatype Ring = Ring(announced: set<Blob>, keys: set<Blob>, unlocked: bool, epoch: nat)

  datatype Observer = Observer(
    now: nat, book: Book, ring: Ring,
    approved: map<Chan, GrantDuration>,   // what the panel approved
    grants: map<GrantId, Grant>)          // opened and not revoked

  const InitObserver := Observer(0, Book(map[], map[], map[], map[]), Ring({}, {}, false, 0), map[], map[])

  /** A lock voids every approval and grant along with the keys. */
  function Locked(o: Observer): Observer {
    o.(approved := map[], grants := map[], ring := o.ring.(unlocked := false))
  }

  /** The prompt is the latest one raised for its request, and that request still waits. */
  predicate IsCurrent(b: Book, id: RequestId) {
    && id in b.prompts
    && b.prompts[id] in b.home && b.home[b.prompts[id]] == id
    && b.prompts[id] !in b.answered
  }

  function Hear(o: Observer, c: Control): Observer {
    match c
    case ApproveRequest(id, duration) =>
      if IsCurrent(o.book, id) then o.(approved := o.approved[o.book.prompts[id] := duration]) else o
    case VaultLocked(_) => Locked(o)
    case VaultLoggedOut => Locked(o)
    case KeyLoadBegin(_, _) => o.(grants := map[], ring := o.ring.(unlocked := false))
    case RevokeGrants => o.(grants := map[], approved := map c | c in o.approved :: Once)
    case RevokeOne(g) => o.(grants := o.grants - {g})
    case _ => o
  }

  function Raise(b: Book, id: RequestId, chan: Chan): Book {
    b.(prompts := b.prompts[id := chan], home := b.home[chan := id])
  }

  function SeeOutput(o: Observer, out: Output): Observer {
    match out
    case ApprovalRequired(id, chan, _, _, _, _) => o.(book := Raise(o.book, id, chan))
    case UnlockRequired(id, chan, cached, _, _, _) =>
      if cached.Some? then o.(book := Raise(o.book, id, chan)) else o
    case PublicKey(_, identity) => o.(ring := o.ring.(announced := o.ring.announced + {identity.blob}))
    case KeysLoaded(epoch, _) => o.(ring := Ring({}, o.ring.announced, true, epoch))
    case LoadFailed(_) => o.(ring := o.ring.(unlocked := false))
    case _ => o
  }

  function Answered(b: Book, chan: Chan, r: Response): Book {
    b.(answered := b.answered[chan := r])
  }

  function See(o: Observer, e: Entry): Observer {
    match e
    case Delivered(chan, client) => o.(book := o.book.(requests := o.book.requests[chan := client]))
    case Told(c) => Hear(o, c)
    case Emitted(out) => SeeOutput(o, out)
    case Replied(chan, response) => o.(book := Answered(o.book, chan, response))
    case Opened(grant, _) => o.(grants := o.grants[grant.id := grant])
    case Clock(now) => o.(now := now)
  }

  /** The log, oldest entry innermost. */
  datatype Log = Empty | Then(past: Log, last: Entry)

  function Observe(log: Log): Observer {
    match log
    case Empty => InitObserver
    case Then(past, last) => See(Observe(past), last)
  }

  /** A request still waiting for its one reply. */
  predicate Open(b: Book, chan: Chan) {
    chan in b.requests && chan !in b.answered
  }

  predicate OpenSign(b: Book, chan: Chan) {
    Open(b, chan) && b.requests[chan].request.SignData?
  }

  /** A grant answers `c` at `now`: live, same epoch, key, kind of signature, user and program. */
  predicate Answers(g: Grant, epoch: nat, c: Client, now: nat)
    requires c.request.SignData?
  {
    && (g.expires.Some? ==> now < g.expires.value)
    && !c.forwarded && c.kind != SignKind.Other
    && g.epoch == epoch
    && g.blob == c.request.blob
    && g.kind == c.kind
    && g.peer.uid == c.peer.uid
    && g.peer.executable == c.peer.executable
  }

  /** The reply is made with the requested key over the requested data, that key is among
      the ones published and not since locked away, and either the panel approved this very
      request or an open grant answers it. */
  ghost predicate Justified(o: Observer, uid: nat, chan: Chan, sig: Signature)
    requires chan in o.book.requests
  {
    var c := o.book.requests[chan];
    && c.request.SignData?
    && c.peer.uid == uid
    && sig.message == c.request.message && sig.flags == c.request.flags
    && sig.key.blob == Some(c.request.blob)
    && (if sig.key.kind == Ed25519 then sig.flags == 0 else sig.flags == 2 || sig.flags == 4)
    && o.ring.unlocked && c.request.blob in o.ring.keys
    && (chan in o.approved || exists g :: g in o.grants && Answers(o.grants[g], o.ring.epoch, c, o.now))
  }

  /** When a window ends that is opened at `now`: after so many seconds, fifteen minutes at
      most, on a 64-bit millisecond clock; or only with the next lock. */
  function WindowEnd(duration: GrantDuration, now: nat): Option<nat> {
    if !duration.Seconds? then None
    else
      var end := now + 1000 * (if duration.n < 900 then duration.n else 900);
      Some(if end < 0xFFFF_FFFF_FFFF_FFFF then end else 0xFFFF_FFFF_FFFF_FFFF)
  }

  /** A window is asked for, and the request is neither forwarded nor unreadable. */
  predicate Opening(duration: GrantDuration, c: Client) {
    && (duration == UntilScreenLock || (duration.Seconds? && duration.n > 0))
    && !c.forwarded && c.kind != SignKind.Other
  }

  /** A grant is opened only by an approval with a window, for a grantable request, and
      covers exactly that request's key, kind, program and epoch, until the window ends. */
  ghost predicate GrantJustified(o: Observer, g: Grant, chan: Chan) {
    && OpenSign(o.book, chan)
    && chan in o.approved
    && Opening(o.approved[chan], o.book.requests[chan])
    && g.id !in o.grants
    && g.blob == o.book.requests[chan].request.blob
    && g.peer == o.book.requests[chan].peer
    && g.kind == o.book.requests[chan].kind
    && o.ring.unlocked && g.epoch == o.ring.epoch
    && g.expires == WindowEnd(o.approved[chan], o.now)
  }

  /** A prompt shows the request it stands for, under an id no other prompt ever had. */
  ghost predicate PromptJustified(b: Book, id: RequestId, chan: Chan, key: PublicIdentity,
                                  peer: Peer, scope: SignScope, grantOffered: bool) {
    && id !in b.prompts
    && OpenSign(b, chan)
    && key.blob == b.requests[chan].request.blob
    && peer == b.requests[chan].peer
    && scope.kind == b.requests[chan].kind && scope.forwarded == b.requests[chan].forwarded
    && (grantOffered <==> !scope.forwarded && scope.kind != SignKind.Other)
  }

  ghost predicate Legal(o: Observer, uid: nat, e: Entry) {
    match e
    case Delivered(chan, _) => chan !in o.book.requests
    case Replied(chan, response) =>
      && Open(o.book, chan)
      && (response.Signed? ==> Justified(o, uid, chan, response.signature))
      && (response.Listing? ==> o.book.requests[chan].request.Identities?)
    case Opened(g, chan) => GrantJustified(o, g, chan)
    case Emitted(ApprovalRequired(id, chan, key, peer, scope, offered)) =>
      PromptJustified(o.book, id, chan, key, peer, scope, offered)
    case Emitted(UnlockRequired(id, chan, key, peer, scope, offered)) =>
      key.Some? ==> PromptJustified(o.book, id, chan, key.value, peer, scope, offered)
    case _ => true
  }

  ghost predicate Accepted(log: Log, uid: nat) {
    log.Then? ==> Accepted(log.past, uid) && Legal(Observe(log.past), uid, log.last)
  }

  /** `log` continues `prefix`. */
  predicate Extends(log: Log, prefix: Log) {
    log == prefix || (log.Then? && Extends(log.past, prefix))
  }

  /** Acceptance is the statement one would write over positions of the log: at every
      point, the next entry was legal given what had been observed. */
  lemma {:induction false} AcceptedAt(log: Log, uid: nat, past: Log, e: Entry)
    requires Accepted(log, uid) && Extends(log, Then(past, e))
    ensures Legal(Observe(past), uid, e)
  {
    if log != Then(past, e) {
      AcceptedAt(log.past, uid, past, e);
    }
  }
}
