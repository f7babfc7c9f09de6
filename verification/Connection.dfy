/** One client connection: what it remembers between frames, and what that means for the
    signatures it may get. */
module ConnectionModel {
  import opened Base
  import opened ApprovalModel
  import opened ObserverModel
  import opened KeyStoreModel
  import opened WireModel
  import opened AgentModel
  import opened AgentTheorems

  const MAX_SESSION_BINDS: nat := 16

  /** How host keys and names are shown: fingerprints, and which names can be. */
  datatype Reader = Reader(fp: seq<byte> -> string, visible: seq<byte> -> bool)

  datatype Conn = Conn(forwarded: bool, binds: seq<Binding>, closed: bool)

  const Accepted0 := Conn(false, [], false)

  /** One frame, and the peer as read again when it arrived. */
  datatype Arrival = Arrival(frame: seq<byte>, current: Option<Peer>)

  datatype Action = Success | Refuse | Deliver(client: Client) | Close | Ignored

  function Kind(r: Reader, request: AgentRequest, binds: seq<Binding>): SignKind
    requires request.RequestSign?
  {
    ClassifySign(request.blob, request.message, binds, r.fp, r.visible)
  }

  function OnArrival(c: Conn, a: Arrival, peer: Peer, r: Reader): (Conn, Action) {
    if c.closed then (c, Ignored)
    else
      match DecodeRequest(a.frame, r.fp)
      case None => (if MayBeBind(a.frame) then c.(forwarded := true) else c, Refuse)
      case Some(RequestBind(forwarding, binding)) =>
        if |c.binds| < MAX_SESSION_BINDS then
          (c.(binds := c.binds + [binding], forwarded := c.forwarded || forwarding), Success)
        else (c.(forwarded := true), Refuse)
      case Some(RequestSign(blob, message, flags)) =>
        if a.current != Some(peer) then (c.(closed := true), Close)
        else (c, Deliver(Client(peer, c.forwarded, Kind(r, RequestSign(blob, message, flags), c.binds),
                                SignData(blob, message, flags))))
      case Some(RequestIdentities) => (c, Deliver(Client(peer, c.forwarded, Other, Identities)))
  }

  function After(arrivals: seq<Arrival>, peer: Peer, r: Reader): Conn {
    if arrivals == [] then Accepted0
    else OnArrival(After(arrivals[..|arrivals| - 1], peer, r), arrivals[|arrivals| - 1], peer, r).0
  }

  /** The action taken on the `j`-th frame. */
  function ActionAt(arrivals: seq<Arrival>, j: nat, peer: Peer, r: Reader): Action
    requires j < |arrivals|
  {
    OnArrival(After(arrivals[..j], peer, r), arrivals[j], peer, r).1
  }

  /** The binds recorded among these frames: the first sixteen that decode. */
  function Binds(arrivals: seq<Arrival>, r: Reader): seq<Binding> {
    if arrivals == [] then []
    else
      var front := Binds(arrivals[..|arrivals| - 1], r);
      var request := DecodeRequest(arrivals[|arrivals| - 1].frame, r.fp);
      if request.Some? && request.value.RequestBind? && |front| < 16 then front + [request.value.binding]
      else front
  }

  /** Frame `i` leaves the connection not to be trusted as local: a bind that says it
      forwards, one that cannot be read, or one too many. */
  predicate Taints(arrivals: seq<Arrival>, i: nat, r: Reader)
    requires i < |arrivals|
  {
    var request := DecodeRequest(arrivals[i].frame, r.fp);
    if request.None? then MayBeBind(arrivals[i].frame)
    else request.value.RequestBind?
         && (request.value.forwarding || |Binds(arrivals[..i], r)| >= 16)
  }

  ghost predicate Tainted(arrivals: seq<Arrival>, r: Reader) {
    exists i :: 0 <= i < |arrivals| && Taints(arrivals, i, r)
  }

  lemma {:induction false} TaintedStep(arrivals: seq<Arrival>, r: Reader)
    requires arrivals != []
    ensures Tainted(arrivals, r) <==> Tainted(arrivals[..|arrivals| - 1], r) || Taints(arrivals, |arrivals| - 1, r)
  {
    hide DecodeRequest, MayBeBind;
    var front := arrivals[..|arrivals| - 1];
    forall i | 0 <= i < |front| ensures Taints(arrivals, i, r) <==> Taints(front, i, r) {
      assert front[..i] == arrivals[..i];
    }
  }

  lemma {:induction false} BindsRecorded(arrivals: seq<Arrival>, peer: Peer, r: Reader)
    ensures !After(arrivals, peer, r).closed ==> After(arrivals, peer, r).binds == Binds(arrivals, r)
  {
    if arrivals != [] {
      hide DecodeRequest, MayBeBind, Kind;
      BindsRecorded(arrivals[..|arrivals| - 1], peer, r);
    }
  }

  /** While open, the connection is marked forwarded exactly when some frame so far said so
      or could have: nothing clears it, and nothing else sets it. */
  lemma {:induction false} ForwardedExactly(arrivals: seq<Arrival>, peer: Peer, r: Reader)
    ensures !After(arrivals, peer, r).closed ==> (After(arrivals, peer, r).forwarded <==> Tainted(arrivals, r))
  {
    if arrivals != [] {
      hide DecodeRequest, MayBeBind, Tainted, Binds, OnArrival;
      var front := arrivals[..|arrivals| - 1];
      ForwardedExactly(front, peer, r);
      BindsRecorded(front, peer, r);
      TaintedStep(arrivals, r);
      ForwardedStep(After(front, peer, r), arrivals, peer, r);
    }
  }

  lemma ForwardedStep(c: Conn, arrivals: seq<Arrival>, peer: Peer, r: Reader)
    requires arrivals != [] && (!c.closed ==> c.binds == Binds(arrivals[..|arrivals| - 1], r))
    ensures var c' := OnArrival(c, arrivals[|arrivals| - 1], peer, r).0;
            !c'.closed ==> !c.closed && (c'.forwarded <==> c.forwarded || Taints(arrivals, |arrivals| - 1, r))
  {
    hide DecodeRequest, MayBeBind, Kind, Binds;
  }

  /** A sign request came while the peer read as somebody else. */
  ghost predicate Hung(arrivals: seq<Arrival>, peer: Peer, r: Reader) {
    exists i :: 0 <= i < |arrivals| && HangsUp(arrivals[i], peer, r)
  }

  predicate HangsUp(a: Arrival, peer: Peer, r: Reader) {
    var request := DecodeRequest(a.frame, r.fp);
    request.Some? && request.value.RequestSign? && a.current != Some(peer)
  }

  /** That, and only that, closes the connection. */
  lemma {:induction false} ClosedExactly(arrivals: seq<Arrival>, peer: Peer, r: Reader)
    ensures After(arrivals, peer, r).closed <==> Hung(arrivals, peer, r)
  {
    if arrivals != [] {
      hide DecodeRequest, MayBeBind, OnArrival;
      var front, a := arrivals[..|arrivals| - 1], arrivals[|arrivals| - 1];
      ClosedExactly(front, peer, r);
      ClosedStep(After(front, peer, r), a, peer, r);
      assert Hung(arrivals, peer, r) <==> Hung(front, peer, r) || HangsUp(a, peer, r) by {
        if Hung(front, peer, r) {
          var i :| 0 <= i < |front| && HangsUp(front[i], peer, r);
          assert HangsUp(arrivals[i], peer, r);
        }
        if HangsUp(a, peer, r) { assert HangsUp(arrivals[|arrivals| - 1], peer, r); }
        assert forall i | 0 <= i < |front| :: front[i] == arrivals[i];
      }
    }
  }

  lemma ClosedStep(c: Conn, a: Arrival, peer: Peer, r: Reader)
    ensures OnArrival(c, a, peer, r).0.closed <==> c.closed || HangsUp(a, peer, r)
  {
    hide DecodeRequest, MayBeBind, Kind;
  }

  /** What each frame gets: nothing once the connection is closed; a refusal if it cannot be
      read; for a bind success, unless sixteen are recorded; a listing or a signature is
      asked of the agent, the latter only while the peer is who was admitted. */
  lemma AnswersExactly(arrivals: seq<Arrival>, j: nat, peer: Peer, r: Reader)
    requires j < |arrivals|
    ensures var action := ActionAt(arrivals, j, peer, r);
            var request := DecodeRequest(arrivals[j].frame, r.fp);
            if Hung(arrivals[..j], peer, r) then action == Ignored
            else if request.None? then action == Refuse
            else match request.value
              case RequestBind(_, _) => action == if |Binds(arrivals[..j], r)| < 16 then Success else Refuse
              case RequestSign(blob, message, flags) =>
                if arrivals[j].current == Some(peer)
                then action.Deliver? && action.client.request == SignData(blob, message, flags)
                else action == Close
              case RequestIdentities => action.Deliver? && action.client.request == Identities
  {
    hide DecodeRequest, MayBeBind, Kind, Binds, Hung, After;
    ClosedExactly(arrivals[..j], peer, r);
    BindsRecorded(arrivals[..j], peer, r);
  }

  /** A request delivered on the connection carries what the frames before it say: the
      admitted peer, unchanged; the forwarding mark; the kind read with their binds. */
  lemma DeliveredExactly(arrivals: seq<Arrival>, j: nat, peer: Peer, r: Reader)
    requires j < |arrivals| && ActionAt(arrivals, j, peer, r).Deliver?
    ensures var c := ActionAt(arrivals, j, peer, r).client;
            && c.peer == peer
            && (c.forwarded <==> Tainted(arrivals[..j], r))
            && !c.request.SessionBind?
            && (c.request.Identities? ==> DecodeRequest(arrivals[j].frame, r.fp) == Some(RequestIdentities))
            && (c.request.SignData? ==>
                  && arrivals[j].current == Some(peer)
                  && DecodeRequest(arrivals[j].frame, r.fp) ==
                     Some(RequestSign(c.request.blob, c.request.message, c.request.flags))
                  && c.kind ==
                     ClassifySign(c.request.blob, c.request.message, Binds(arrivals[..j], r), r.fp, r.visible))
  {
    hide DecodeRequest, MayBeBind, Binds, Tainted, After, ClassifySign;
    ForwardedExactly(arrivals[..j], peer, r);
    BindsRecorded(arrivals[..j], peer, r);
  }

  /** From the frame that taints a connection on, every signature it gets was approved for
      that very request, through hold and release too. */
  lemma TaintedNeedsApproval(arrivals: seq<Arrival>, i: nat, j: nat, peer: Peer, r: Reader,
                             uid: nat, clock: nat -> nat, events: seq<Event>, past: Log, chan: Chan, sig: Signature)
    requires i < j < |arrivals| && Taints(arrivals, i, r) && ActionAt(arrivals, j, peer, r).Deliver?
    requires AgentTheorems.HelloFirst(events)
    requires Extends(AgentModel.Run(Init(uid, clock), events).log, Then(past, Replied(chan, Signed(sig))))
    requires chan in Observe(past).book.requests
    requires Observe(past).book.requests[chan] == ActionAt(arrivals, j, peer, r).client
    ensures chan in Observe(past).approved
  {
    DeliveredExactly(arrivals, j, peer, r);
    assert Taints(arrivals[..j], i, r) by { assert arrivals[..j][..i] == arrivals[..i]; }
    SignaturesJustified(uid, clock, events, past, chan, sig);
  }

  /** ... and no grant is ever opened by it. */
  lemma TaintedOpensNoGrant(arrivals: seq<Arrival>, i: nat, j: nat, peer: Peer, r: Reader,
                            uid: nat, clock: nat -> nat, events: seq<Event>, past: Log, g: Grant, chan: Chan)
    requires i < j < |arrivals| && Taints(arrivals, i, r) && ActionAt(arrivals, j, peer, r).Deliver?
    requires AgentTheorems.HelloFirst(events)
    requires Extends(AgentModel.Run(Init(uid, clock), events).log, Then(past, Opened(g, chan)))
    requires chan in Observe(past).book.requests
    ensures Observe(past).book.requests[chan] != ActionAt(arrivals, j, peer, r).client
  {
    DeliveredExactly(arrivals, j, peer, r);
    assert Taints(arrivals[..j], i, r) by { assert arrivals[..j][..i] == arrivals[..i]; }
    GrantsJustified(uid, clock, events, past, g, chan);
  }

  /** The state `serve_client` keeps in its loop. */
  class Connection {
    const peer: Peer
    const reader: Reader
    var forwarded: bool
    var binds: seq<Binding>
    var closed: bool

    function View(): Conn
      reads this
    {
      Conn(forwarded, binds, closed)
    }

    constructor (admitted: Peer, r: Reader)
      ensures View() == Accepted0 && peer == admitted && reader == r
    {
      peer, reader := admitted, r;
      forwarded, binds, closed := false, [], false;
    }

    method Receive(a: Arrival) returns (action: Action)
      modifies this
      ensures (View(), action) == OnArrival(old(View()), a, peer, reader)
      ensures old(forwarded) ==> forwarded
    {
      if closed {
        return Ignored;
      }
      var request := DecodeRequest(a.frame, reader.fp);
      if request.None? {
        if MayBeBind(a.frame) {
          forwarded := true;
        }
        return Refuse;
      }
      match request.value
      case RequestBind(forwarding, binding) =>
        if |binds| < MAX_SESSION_BINDS {
          binds := binds + [binding];
          forwarded := forwarded || forwarding;
          return Success;
        }
        forwarded := true;
        return Refuse;
      case RequestSign(blob, message, flags) =>
        if a.current != Some(peer) {
          closed := true;
          return Close;
        }
        return Deliver(Client(peer, forwarded, Kind(reader, request.value, binds), SignData(blob, message, flags)));
      case RequestIdentities =>
        return Deliver(Client(peer, forwarded, Other, Identities));
    }
  }
}
