/** The SSH agent wire format: strings (section 5 of RFC 4251), request frames, session
    binds and what a sign request is for. */
module WireModel {
  import opened Base
  import opened LengthPrefix
  import opened ApprovalModel

  const MAX_FRAME_LEN: nat := 256 * 1024
  const MAX_SIGN_DETAIL: nat := 256
  const MAX_SESSION_ID: nat := 256
  const MAX_HOST_KEY: nat := 16 * 1024

  const FAILURE: byte := 5
  const REQUEST_IDENTITIES: byte := 11
  const IDENTITIES_ANSWER: byte := 12
  const SIGN_REQUEST: byte := 13
  const EXTENSION: byte := 27
  const USERAUTH_REQUEST: byte := 50

  const SESSION_BIND: seq<byte> := Ascii("session-bind@openssh.com")
  const SSHSIG_PREAMBLE: seq<byte> := [83, 83, 72, 83, 73, 71]
  const SHA256: seq<byte> := Ascii("sha256")
  const SHA512: seq<byte> := Ascii("sha512")
  const PUBLICKEY: seq<byte> := Ascii("publickey")
  const HOSTBOUND: seq<byte> := Ascii("publickey-hostbound-v00@openssh.com")

  // ---- requests ----

  /** One bound session: its id and the fingerprint of its server's host key. */
  datatype Binding = Binding(sessionId: seq<byte>, host: string)

  datatype AgentRequest = RequestIdentities
                        | RequestSign(blob: seq<byte>, message: seq<byte>, flags: nat)
                        | RequestBind(forwarding: bool, binding: Binding)

  function DecodeSign(fields: seq<byte>): Option<AgentRequest> {
    var (blob, fields) :- ReadString(fields);
    var (message, fields) :- ReadString(fields);
    var (flags, fields) :- ReadU32(fields);
    if fields != [] then None else Some(RequestSign(blob, message, flags))
  }

  function DecodeBind(fields: seq<byte>, fp: seq<byte> -> string): Option<AgentRequest> {
    var (name, fields) :- ReadString(fields);
    if name != SESSION_BIND then None
    else
      var (hostKey, fields) :- ReadString(fields);
      var (sessionId, fields) :- ReadString(fields);
      var (_, fields) :- ReadString(fields);
      var (flag, fields) :- ReadByte(fields);
      if flag > 1 || fields != [] || hostKey == [] || |hostKey| > MAX_HOST_KEY
         || sessionId == [] || |sessionId| > MAX_SESSION_ID then None
      else Some(RequestBind(flag == 1, Binding(sessionId, fp(hostKey))))
  }

  function DecodeRequest(frame: seq<byte>, fp: seq<byte> -> string): Option<AgentRequest> {
    if |frame| < 4 then None
    else
      var declared := FromU32(frame);
      if declared == 0 || declared > MAX_FRAME_LEN || |frame| != declared + 4 then None
      else if frame[4] == REQUEST_IDENTITIES && declared == 1 then Some(RequestIdentities)
      else if frame[4] == SIGN_REQUEST then DecodeSign(frame[5..])
      else if frame[4] == EXTENSION then DecodeBind(frame[5..], fp)
      else None
  }

  /** A payload behind its length. */
  predicate IsFrame(frame: seq<byte>, payload: seq<byte>) {
    0 < |payload| <= 262_144 && frame == U32(|payload|) + payload
  }

  lemma FrameExact(frame: seq<byte>, fp: seq<byte> -> string)
    ensures DecodeRequest(frame, fp).Some? ==> |frame| > 4 && IsFrame(frame, frame[4..])
  {
    if DecodeRequest(frame, fp).Some? {
      FromU32Exact(frame);
      assert frame == frame[..4] + frame[4..];
    }
  }

  lemma FrameOpens(frame: seq<byte>, payload: seq<byte>)
    requires IsFrame(frame, payload)
    ensures |frame| >= 5 && FromU32(frame) == |payload| && |frame| == |payload| + 4
    ensures frame[4] == payload[0] && frame[5..] == payload[1..] && frame[4..] == payload
  {
    U32RoundTrip(|payload|, payload);
  }

  predicate SignPayload(payload: seq<byte>, blob: seq<byte>, message: seq<byte>, flags: nat) {
    && |blob| < TWO32 && |message| < TWO32 && flags < TWO32
    && payload == [13] + (Str(blob) + (Str(message) + U32(flags)))
  }

  lemma DecodeSignExact(fields: seq<byte>, blob: seq<byte>, message: seq<byte>, flags: nat)
    ensures DecodeSign(fields) == Some(RequestSign(blob, message, flags)) <==>
            && |blob| < TWO32 && |message| < TWO32 && flags < TWO32
            && fields == Str(blob) + (Str(message) + U32(flags))
  {
    if |blob| < TWO32 && |message| < TWO32 && flags < TWO32 && fields == Str(blob) + (Str(message) + U32(flags)) {
      ReadStringExact(fields, blob, Str(message) + U32(flags));
      ReadStringExact(Str(message) + U32(flags), message, U32(flags));
      assert U32(flags) == U32(flags) + [];
      ReadU32Exact(U32(flags), flags, []);
    }
    if DecodeSign(fields) == Some(RequestSign(blob, message, flags)) {
      var rest1 := ReadString(fields).value.1;
      var rest2 := ReadString(rest1).value.1;
      ReadStringExact(fields, blob, rest1);
      ReadStringExact(rest1, message, rest2);
      ReadU32Exact(rest2, flags, []);
      assert U32(flags) + [] == U32(flags);
    }
  }

  /** An identities request is its one frame, nothing else. */
  lemma IdentitiesExact(frame: seq<byte>, fp: seq<byte> -> string)
    ensures DecodeRequest(frame, fp) == Some(RequestIdentities) <==> IsFrame(frame, [11])
  {
    if IsFrame(frame, [11]) { FrameOpens(frame, [11]); }
    if DecodeRequest(frame, fp) == Some(RequestIdentities) {
      FrameExact(frame, fp);
      assert frame[4..] == [11];
    }
  }

  /** A frame decodes to a sign request exactly when it is that request's encoding. */
  lemma SignExact(frame: seq<byte>, fp: seq<byte> -> string, blob: seq<byte>, message: seq<byte>, flags: nat)
    ensures DecodeRequest(frame, fp) == Some(RequestSign(blob, message, flags)) <==>
            exists payload :: IsFrame(frame, payload) && SignPayload(payload, blob, message, flags)
  {
    hide Str, ReadString, DecodeSign, FromU32;
    if DecodeRequest(frame, fp) == Some(RequestSign(blob, message, flags)) {
      FrameExact(frame, fp);
      DecodeSignExact(frame[5..], blob, message, flags);
      var payload := frame[4..];
      assert payload == [frame[4]] + frame[5..];
      assert SignPayload(payload, blob, message, flags);
    }
    if exists payload :: IsFrame(frame, payload) && SignPayload(payload, blob, message, flags) {
      var payload :| IsFrame(frame, payload) && SignPayload(payload, blob, message, flags);
      FrameOpens(frame, payload);
      assert payload[1..] == Str(blob) + (Str(message) + U32(flags));
      DecodeSignExact(frame[5..], blob, message, flags);
    }
  }

  // ---- session binds ----

  predicate BindPayload(payload: seq<byte>, hostKey: seq<byte>, sessionId: seq<byte>, signature: seq<byte>, flag: byte)
  {
    && |hostKey| < TWO32 && |sessionId| < TWO32 && |signature| < TWO32
    && payload == [27] + (Str(Ascii("session-bind@openssh.com"))
                          + (Str(hostKey) + (Str(sessionId) + (Str(signature) + [flag]))))
  }

  lemma BindReads(fields: seq<byte>, fp: seq<byte> -> string, hostKey: seq<byte>, sessionId: seq<byte>,
                  signature: seq<byte>, flag: byte)
    requires |hostKey| < TWO32 && |sessionId| < TWO32 && |signature| < TWO32
    requires fields == Str(SESSION_BIND) + (Str(hostKey) + (Str(sessionId) + (Str(signature) + [flag])))
    ensures DecodeBind(fields, fp) ==
            if flag <= 1 && BindWithin(hostKey, sessionId)
            then Some(RequestBind(flag == 1, Binding(sessionId, fp(hostKey)))) else None
  {
    hide Str, ReadString;
    var r3 := Str(signature) + [flag];
    var r2 := Str(sessionId) + r3;
    var r1 := Str(hostKey) + r2;
    ReadStringExact(fields, SESSION_BIND, r1);
    ReadStringExact(r1, hostKey, r2);
    ReadStringExact(r2, sessionId, r3);
    ReadStringExact(r3, signature, [flag]);
  }

  /** Any bind on the wire is read for what it says if it is within the limits, and
      refused if it is not. */
  lemma BindDecodes(frame: seq<byte>, fp: seq<byte> -> string, payload: seq<byte>, hostKey: seq<byte>,
                    sessionId: seq<byte>,
                    signature: seq<byte>, flag: byte)
    requires IsFrame(frame, payload) && BindPayload(payload, hostKey, sessionId, signature, flag)
    ensures DecodeRequest(frame, fp) ==
            if flag <= 1 && BindWithin(hostKey, sessionId)
            then Some(RequestBind(flag == 1, Binding(sessionId, fp(hostKey)))) else None
  {
    FrameOpens(frame, payload);
    hide Str, DecodeBind, FromU32, U32;
    BindReads(payload[1..], fp, hostKey, sessionId, signature, flag);
  }

  predicate BindWithin(hostKey: seq<byte>, sessionId: seq<byte>) {
    0 < |hostKey| <= 16_384 && 0 < |sessionId| <= 256
  }

  function Flag(forwarding: bool): byte {
    if forwarding then 1 else 0
  }

  /** A frame is this bind's encoding, for a host key with the fingerprint it gives. */
  ghost predicate IsBind(frame: seq<byte>, fp: seq<byte> -> string, forwarding: bool, binding: Binding) {
    exists hostKey, signature ::
      && BindWithin(hostKey, binding.sessionId) && fp(hostKey) == binding.host
      && IsBindFrame(frame, hostKey, binding.sessionId, signature, Flag(forwarding))
  }

  ghost predicate IsBindFrame(frame: seq<byte>, hostKey: seq<byte>, sessionId: seq<byte>, signature: seq<byte>,
                              flag: byte)
  {
    && |frame| > 4 && IsFrame(frame, frame[4..])
    && BindPayload(frame[4..], hostKey, sessionId, signature, flag)
  }

  lemma BindFieldsBack(fields: seq<byte>, fp: seq<byte> -> string)
      returns (hostKey: seq<byte>, sessionId: seq<byte>, signature: seq<byte>, flag: byte)
    requires DecodeBind(fields, fp).Some?
    ensures |hostKey| < TWO32 && |sessionId| < TWO32 && |signature| < TWO32 && flag <= 1
    ensures fields == Str(SESSION_BIND) + (Str(hostKey) + (Str(sessionId) + (Str(signature) + [flag])))
    ensures BindWithin(hostKey, sessionId)
    ensures DecodeBind(fields, fp) == Some(RequestBind(flag == 1, Binding(sessionId, fp(hostKey))))
  {
    hide Str, ReadString;
    var r1 := ReadString(fields).value.1;
    var (k, r2) := ReadString(r1).value;
    var (id, r3) := ReadString(r2).value;
    var (g, r4) := ReadString(r3).value;
    hostKey, sessionId, signature, flag := k, id, g, ReadByte(r4).value.0;
    ReadStringExact(fields, SESSION_BIND, r1);
    ReadStringExact(r1, k, r2);
    ReadStringExact(r2, id, r3);
    ReadStringExact(r3, g, r4);
    ReadByteExact(r4, flag, []);
    assert [flag] + [] == [flag];
  }

  /** A frame decodes to a bind exactly when it is that bind's encoding, within the limits. */
  lemma BindExact(frame: seq<byte>, fp: seq<byte> -> string, forwarding: bool, binding: Binding)
    ensures DecodeRequest(frame, fp) == Some(RequestBind(forwarding, binding)) <==>
            IsBind(frame, fp, forwarding, binding)
  {
    hide Str, ReadString, DecodeBind, FromU32, U32;
    if DecodeRequest(frame, fp) == Some(RequestBind(forwarding, binding)) {
      FrameExact(frame, fp);
      var hostKey, sessionId, signature, flag := BindFieldsBack(frame[5..], fp);
      assert frame[4..] == [frame[4]] + frame[5..];
      assert flag == Flag(forwarding) && sessionId == binding.sessionId;
      assert IsBindFrame(frame, hostKey, binding.sessionId, signature, Flag(forwarding));
    }
    if IsBind(frame, fp, forwarding, binding) {
      var hostKey, signature :|
        && BindWithin(hostKey, binding.sessionId) && fp(hostKey) == binding.host
        && IsBindFrame(frame, hostKey, binding.sessionId, signature, Flag(forwarding));
      BindDecodes(frame, fp, frame[4..], hostKey, binding.sessionId, signature, Flag(forwarding));
    }
  }

  /** `may_be_session_bind`: an extension naming a bind, or whose name cannot be read. */
  predicate MayBeBind(frame: seq<byte>) {
    && |frame| > 4 && frame[4] == EXTENSION
    && var name := ReadString(frame[5..]);
       name.None? || name.value.0 == SESSION_BIND
  }

  /** Nothing that starts as a bind slips by: it is decoded as one, or it may be one. */
  lemma EveryBindIsSeen(frame: seq<byte>, fp: seq<byte> -> string, rest: seq<byte>)
    requires |frame| > 4 && frame[4..] == [27] + (Str(Ascii("session-bind@openssh.com")) + rest)
    ensures DecodeRequest(frame, fp).None? ==> MayBeBind(frame)
    ensures DecodeRequest(frame, fp).Some? ==> DecodeRequest(frame, fp).value.RequestBind?
  {
    assert frame[4..][0] == frame[4];
    assert frame[4..][1..] == frame[5..];
    ReadStringExact(frame[5..], SESSION_BIND, rest);
  }

  /** A string stands at the front of these bytes. */
  ghost predicate StartsWith(fields: seq<byte>, name: seq<byte>) {
    |name| < TWO32 && exists rest :: fields == Str(name) + rest
  }

  /** ... and nothing else may be one: it is an extension message, and its name is that of a
      bind or no string at all. */
  lemma MayBeBindExact(frame: seq<byte>)
    ensures MayBeBind(frame) <==>
            && |frame| > 4 && frame[4] == 27
            && (StartsWith(frame[5..], Ascii("session-bind@openssh.com"))
                || forall name :: !StartsWith(frame[5..], name))
  {
    hide Str, ReadString;
    if |frame| > 4 {
      var fields := frame[5..];
      if ReadString(fields).Some? {
        var (v, rest) := ReadString(fields).value;
        ReadStringExact(fields, v, rest);
        assert StartsWith(fields, v);
      }
      forall name | StartsWith(fields, name) ensures ReadString(fields).Some? && ReadString(fields).value.0 == name {
        var rest :| fields == Str(name) + rest;
        ReadStringExact(fields, name, rest);
      }
    }
  }

  // ---- what a signature is for ----

  /** A name fit to show and compare; `visible` is valid UTF-8 without characters that
      draw as nothing. */
  predicate Displayable(detail: seq<byte>, visible: seq<byte> -> bool) {
    0 < |detail| <= MAX_SIGN_DETAIL && visible(detail)
  }

  function SshSigNamespace(message: seq<byte>, visible: seq<byte> -> bool): Option<seq<byte>> {
    if !(SSHSIG_PREAMBLE <= message) then None
    else
      var (namespace, fields) :- ReadString(message[6..]);
      var (_, fields) :- ReadString(fields);
      var (hash, fields) :- ReadString(fields);
      var (_, fields) :- ReadString(fields);
      if fields != [] || (hash != SHA256 && hash != SHA512) then None
      else if Displayable(namespace, visible) then Some(namespace) else None
  }

  /** The host of the latest bind for this session. */
  function LatestHost(binds: seq<Binding>, sessionId: seq<byte>): Option<string> {
    if binds == [] then None
    else if binds[|binds| - 1].sessionId == sessionId then Some(binds[|binds| - 1].host)
    else LatestHost(binds[..|binds| - 1], sessionId)
  }

  lemma {:induction false} LatestHostExact(binds: seq<Binding>, sessionId: seq<byte>, host: string)
    ensures LatestHost(binds, sessionId) == Some(host) <==>
            exists i :: 0 <= i < |binds| && binds[i] == Binding(sessionId, host)
                        && forall j | i < j < |binds| :: binds[j].sessionId != sessionId
    ensures LatestHost(binds, sessionId).None? <==> forall i | 0 <= i < |binds| :: binds[i].sessionId != sessionId
  {
    if binds != [] {
      var front := binds[..|binds| - 1];
      LatestHostExact(front, sessionId, host);
      if binds[|binds| - 1].sessionId != sessionId {
        assert forall i | 0 <= i < |front| :: front[i] == binds[i];
        if LatestHost(front, sessionId) == Some(host) {
          var i :| 0 <= i < |front| && front[i] == Binding(sessionId, host)
                   && forall j | i < j < |front| :: front[j].sessionId != sessionId;
          assert binds[i] == Binding(sessionId, host);
        }
      } else if binds[|binds| - 1].host == host {
        assert binds[|binds| - 1] == Binding(sessionId, host);
      }
    }
  }

  /** The server: bound, or signed over; when both are known they must agree. */
  function LoginHost(bound: Option<string>, signed: Option<string>): Option<string> {
    if bound.Some? && signed.Some? && bound != signed then None
    else if bound.Some? then bound
    else if signed.Some? then signed
    else Some("")
  }

  /** What follows the fixed fields of a login: nothing, or the host key it is bound to. */
  function LoginTail(hostbound: bool, fields: seq<byte>, fp: seq<byte> -> string): Option<Option<string>> {
    if !hostbound then (if fields == [] then Some(None) else None)
    else
      var (hostKey, fields) :- ReadString(fields);
      if fields != [] || hostKey == [] || |hostKey| > MAX_HOST_KEY then None else Some(Some(fp(hostKey)))
  }

  datatype Login = Login(sessionId: seq<byte>, user: seq<byte>, service: seq<byte>, hostbound: bool,
                         algorithm: seq<byte>, key: seq<byte>, tail: seq<byte>)

  /** The fields of a login request up to the key (section 7 of RFC 4252). */
  function ReadLogin(message: seq<byte>): Option<Login> {
    var (sessionId, fields) :- ReadString(message);
    var (code, fields) :- ReadByte(fields);
    if code != USERAUTH_REQUEST then None
    else
      var (user, fields) :- ReadString(fields);
      var (service, fields) :- ReadString(fields);
      var (how, fields) :- ReadString(fields);
      if how != PUBLICKEY && how != HOSTBOUND then None
      else
        var (yes, fields) :- ReadByte(fields);
        if yes != 1 then None
        else
          var (algorithm, fields) :- ReadString(fields);
          var (key, tail) :- ReadString(fields);
          Some(Login(sessionId, user, service, how == HOSTBOUND, algorithm, key, tail))
  }

  function UserAuthKind(blob: seq<byte>, message: seq<byte>, binds: seq<Binding>, fp: seq<byte> -> string,
                        visible: seq<byte> -> bool): Option<SignKind> {
    var login :- ReadLogin(message);
    var signed :- LoginTail(login.hostbound, login.tail, fp);
    if login.key != blob then None
    else
      var host :- LoginHost(LatestHost(binds, login.sessionId), signed);
      if Displayable(login.user, visible) then Some(UserAuth(login.user, host)) else None
  }

  function ClassifySign(blob: seq<byte>, message: seq<byte>, binds: seq<Binding>, fp: seq<byte> -> string,
                        visible: seq<byte> -> bool): SignKind {
    var namespace := SshSigNamespace(message, visible);
    if namespace.Some? then SshSig(namespace.value)
    else
      var login := UserAuthKind(blob, message, binds, fp, visible);
      if login.Some? then login.value else Other
  }

  /** SSHSIG data as PROTOCOL.sshsig lays it out. */
  predicate SshSigData(message: seq<byte>, namespace: seq<byte>, reserved: seq<byte>, hash: seq<byte>,
                       digest: seq<byte>)
  {
    && |namespace| < TWO32 && |reserved| < TWO32 && |hash| < TWO32 && |digest| < TWO32
    && message == [83, 83, 72, 83, 73, 71] + (Str(namespace) + (Str(reserved) + (Str(hash) + Str(digest))))
  }

  lemma SshSigReads(message: seq<byte>, namespace: seq<byte>, reserved: seq<byte>, hash: seq<byte>, digest: seq<byte>)
    requires SshSigData(message, namespace, reserved, hash, digest)
    ensures SSHSIG_PREAMBLE <= message
    ensures ReadString(message[6..]) == Some((namespace, Str(reserved) + (Str(hash) + Str(digest))))
    ensures ReadString(Str(reserved) + (Str(hash) + Str(digest))) == Some((reserved, Str(hash) + Str(digest)))
    ensures ReadString(Str(hash) + Str(digest)) == Some((hash, Str(digest)))
    ensures ReadString(Str(digest)) == Some((digest, []))
  {
    var r1 := Str(reserved) + (Str(hash) + Str(digest));
    assert message[6..] == Str(namespace) + r1;
    ReadStringExact(message[6..], namespace, r1);
    ReadStringExact(r1, reserved, Str(hash) + Str(digest));
    ReadStringExact(Str(hash) + Str(digest), hash, Str(digest));
    assert Str(digest) + [] == Str(digest);
    ReadStringExact(Str(digest), digest, []);
  }

  /** SSHSIG data with this namespace and one of the two hashes. */
  ghost predicate IsSshSig(message: seq<byte>, namespace: seq<byte>) {
    exists reserved, hash, digest ::
      && SshSigData(message, namespace, reserved, hash, digest)
      && (hash == Ascii("sha256") || hash == Ascii("sha512"))
  }

  /** Short enough to show, and visible. */
  predicate Shown(detail: seq<byte>, visible: seq<byte> -> bool) {
    0 < |detail| <= 256 && visible(detail)
  }

  /** A namespace is read exactly from SSHSIG data with a known hash that names it. */
  lemma SshSigExact(message: seq<byte>, namespace: seq<byte>, visible: seq<byte> -> bool)
    ensures SshSigNamespace(message, visible) == Some(namespace) <==>
            Shown(namespace, visible) && IsSshSig(message, namespace)
  {
    if Shown(namespace, visible) && IsSshSig(message, namespace) {
      var reserved, hash, digest :|
        SshSigData(message, namespace, reserved, hash, digest) && (hash == SHA256 || hash == SHA512);
      SshSigReads(message, namespace, reserved, hash, digest);
    }
    if SshSigNamespace(message, visible) == Some(namespace) {
      var r1 := ReadString(message[6..]).value.1;
      var (reserved, r2) := ReadString(r1).value;
      var (hash, r3) := ReadString(r2).value;
      var digest := ReadString(r3).value.0;
      SshSigBack(message, namespace, r1, reserved, r2, hash, r3, digest);
    }
  }

  lemma SshSigBack(message: seq<byte>, namespace: seq<byte>, r1: seq<byte>, reserved: seq<byte>, r2: seq<byte>,
                   hash: seq<byte>, r3: seq<byte>, digest: seq<byte>)
    requires SSHSIG_PREAMBLE <= message
    requires ReadString(message[6..]) == Some((namespace, r1)) && ReadString(r1) == Some((reserved, r2))
    requires ReadString(r2) == Some((hash, r3)) && ReadString(r3) == Some((digest, []))
    ensures SshSigData(message, namespace, reserved, hash, digest)
  {
    hide Str, ReadString;
    ReadStringExact(message[6..], namespace, r1);
    ReadStringExact(r1, reserved, r2);
    ReadStringExact(r2, hash, r3);
    ReadStringExact(r3, digest, []);
    assert Str(digest) + [] == Str(digest);
    assert message == message[..6] + message[6..];
  }

  /** Nothing within the frame limit is both SSHSIG data and a login: the preamble read as
      the length of a session id runs past the end. */
  lemma NeverBoth(blob: seq<byte>, message: seq<byte>, binds: seq<Binding>, fp: seq<byte> -> string,
                  visible: seq<byte> -> bool)
    requires |message| <= MAX_FRAME_LEN
    ensures SSHSIG_PREAMBLE <= message ==> ReadLogin(message).None?
    ensures !(SshSigNamespace(message, visible).Some? && UserAuthKind(blob, message, binds, fp, visible).Some?)
  {
    if SSHSIG_PREAMBLE <= message {
      assert message[0] == 83 && message[1] == 83 && message[2] == 72 && message[3] == 83;
    }
  }

  /** A signature is for a namespace exactly if it is over SSHSIG data that names it. */
  lemma ForNamespaceExactly(blob: seq<byte>, message: seq<byte>, binds: seq<Binding>, fp: seq<byte> -> string,
                            visible: seq<byte> -> bool, namespace: seq<byte>)
    ensures ClassifySign(blob, message, binds, fp, visible) == SshSig(namespace) <==>
            Shown(namespace, visible) && IsSshSig(message, namespace)
  {
    hide SshSigNamespace, IsSshSig, ReadLogin, LoginTail, LoginHost, LatestHost;
    SshSigExact(message, namespace, visible);
  }

  // ---- logins ----

  function Method(hostbound: bool): seq<byte> {
    if hostbound then Ascii("publickey-hostbound-v00@openssh.com") else Ascii("publickey")
  }

  predicate LoginFits(l: Login) {
    && |l.sessionId| < TWO32 && |l.user| < TWO32 && |l.service| < TWO32 && |l.algorithm| < TWO32 && |l.key| < TWO32
  }

  function LoginBody(l: Login): seq<byte>
    requires LoginFits(l)
  {
    Str(Method(l.hostbound)) + ([1] + (Str(l.algorithm) + (Str(l.key) + l.tail)))
  }

  function LoginData(l: Login): seq<byte>
    requires LoginFits(l)
  {
    Str(l.sessionId) + ([50] + (Str(l.user) + (Str(l.service) + LoginBody(l))))
  }

  lemma MethodsDiffer()
    ensures PUBLICKEY != HOSTBOUND
  {
    assert |PUBLICKEY| != |HOSTBOUND|;
  }

  lemma LoginReads(l: Login)
    requires LoginFits(l)
    ensures ReadLogin(LoginData(l)) == Some(l)
  {
    MethodsDiffer();
    var r7 := Str(l.key) + l.tail;
    var r6 := Str(l.algorithm) + r7;
    var r5 := [1] + r6;
    var r4 := Str(Method(l.hostbound)) + r5;
    var r3 := Str(l.service) + r4;
    var r2 := Str(l.user) + r3;
    var r1 := [USERAUTH_REQUEST] + r2;
    ReadStringExact(Str(l.sessionId) + r1, l.sessionId, r1);
    ReadByteExact(r1, USERAUTH_REQUEST, r2);
    ReadStringExact(r2, l.user, r3);
    ReadStringExact(r3, l.service, r4);
    ReadStringExact(r4, Method(l.hostbound), r5);
    ReadByteExact(r5, 1, r6);
    ReadStringExact(r6, l.algorithm, r7);
    ReadStringExact(r7, l.key, l.tail);
  }

  lemma LoginBack(message: seq<byte>, l: Login)
    requires ReadLogin(message) == Some(l)
    ensures LoginFits(l) && message == LoginData(l)
  {
    var r1 := ReadString(message).value.1;
    var r2 := ReadByte(r1).value.1;
    var r3 := ReadString(r2).value.1;
    var r4 := ReadString(r3).value.1;
    var r5 := ReadString(r4).value.1;
    var r6 := ReadByte(r5).value.1;
    var r7 := ReadString(r6).value.1;
    ReadStringExact(message, l.sessionId, r1);
    ReadByteExact(r1, USERAUTH_REQUEST, r2);
    ReadStringExact(r2, l.user, r3);
    ReadStringExact(r3, l.service, r4);
    ReadStringExact(r4, Method(l.hostbound), r5);
    ReadByteExact(r5, 1, r6);
    ReadStringExact(r6, l.algorithm, r7);
    ReadStringExact(r7, l.key, l.tail);
  }

  /** What the end of login data says of the server: a plain login ends with the key and
      says nothing, a host-bound one goes on with exactly one host key within the limit. */
  ghost predicate TailSays(l: Login, fp: seq<byte> -> string, signed: Option<string>) {
    if !l.hostbound then l.tail == [] && signed == None
    else exists hostKey :: IsHostTail(l.tail, hostKey) && signed == Some(fp(hostKey))
  }

  predicate IsHostTail(tail: seq<byte>, hostKey: seq<byte>) {
    0 < |hostKey| <= 16_384 && tail == Str(hostKey)
  }

  /** The decoder reads the tail for exactly what it says. */
  lemma TailExact(l: Login, fp: seq<byte> -> string, signed: Option<string>)
    ensures LoginTail(l.hostbound, l.tail, fp) == Some(signed) <==> TailSays(l, fp, signed)
  {
    if l.hostbound {
      if LoginTail(true, l.tail, fp) == Some(signed) {
        var hostKey := ReadString(l.tail).value.0;
        ReadStringExact(l.tail, hostKey, []);
        assert Str(hostKey) + [] == Str(hostKey);
        assert IsHostTail(l.tail, hostKey);
      }
      if TailSays(l, fp, signed) {
        var hostKey :| IsHostTail(l.tail, hostKey) && signed == Some(fp(hostKey));
        assert l.tail == Str(hostKey) + [];
        ReadStringExact(l.tail, hostKey, []);
      }
    }
  }

  /** Which server it is: the one bound or signed over, the same if both are known, and
      unnamed if neither is. */
  predicate AtHost(bound: Option<string>, signed: Option<string>, host: string) {
    if bound.None? && signed.None? then host == ""
    else (bound.Some? ==> bound.value == host) && (signed.Some? ==> signed.value == host)
  }

  /** Login data by the signing key, for this user, that says this of its server. */
  ghost predicate LogsIn(message: seq<byte>, l: Login, blob: seq<byte>, user: seq<byte>, fp: seq<byte> -> string,
                         signed: Option<string>) {
    IsLogin(message, l) && l.key == blob && l.user == user && TailSays(l, fp, signed)
  }

  /** Classification recovers who logs in where: exactly from login data carrying the
      signing key, the user it names and the host of the latest bind for its session, or
      else the host key it signs over, or else none; and nothing if the two disagree. */
  lemma UserAuthExact(blob: seq<byte>, message: seq<byte>, binds: seq<Binding>, fp: seq<byte> -> string,
                      visible: seq<byte> -> bool, user: seq<byte>, host: string)
    requires |message| <= 262_144
    ensures ClassifySign(blob, message, binds, fp, visible) == UserAuth(user, host) <==>
            && Shown(user, visible)
            && exists l, signed :: LogsIn(message, l, blob, user, fp, signed)
                 && AtHost(LatestHost(binds, l.sessionId), signed, host)
  {
    hide ReadLogin, LoginData, LoginTail, LatestHost, SshSigNamespace, TailSays;
    NeverBoth(blob, message, binds, fp, visible);
    if ClassifySign(blob, message, binds, fp, visible) == UserAuth(user, host) {
      var l := ReadLogin(message).value;
      LoginBack(message, l);
      var signed := LoginTail(l.hostbound, l.tail, fp).value;
      TailExact(l, fp, signed);
      assert LogsIn(message, l, blob, user, fp, signed);
    }
    if Shown(user, visible)
       && exists l, signed :: LogsIn(message, l, blob, user, fp, signed)
            && AtHost(LatestHost(binds, l.sessionId), signed, host) {
      var l, signed :| LogsIn(message, l, blob, user, fp, signed)
        && AtHost(LatestHost(binds, l.sessionId), signed, host);
      LoginReads(l);
      TailExact(l, fp, signed);
    }
  }

  predicate IsLogin(message: seq<byte>, l: Login) {
    LoginFits(l) && message == LoginData(l)
  }

  // ---- replies ----

  function Framed(payload: seq<byte>): seq<byte>
    requires |payload| <= MAX_FRAME_LEN
  {
    U32(|payload|) + payload
  }

  predicate KeyFits(key: (seq<byte>, seq<byte>)) {
    |key.0| < TWO32 && |key.1| < TWO32
  }

  predicate KeysFit(keys: seq<(seq<byte>, seq<byte>)>) {
    forall i | 0 <= i < |keys| :: KeyFits(keys[i])
  }

  /** Blob and comment of every key. */
  function KeyList(keys: seq<(seq<byte>, seq<byte>)>): seq<byte>
    requires KeysFit(keys)
  {
    if keys == [] then [] else KeyList(keys[..|keys| - 1]) + (Str(keys[|keys| - 1].0) + Str(keys[|keys| - 1].1))
  }

  predicate ListingFits(keys: seq<(seq<byte>, seq<byte>)>) {
    |keys| < 0x1_0000_0000 && KeysFit(keys) && 5 + |KeyList(keys)| <= 262_144
  }

  lemma {:induction false} KeyListGrows(keys: seq<(seq<byte>, seq<byte>)>, i: nat)
    requires i <= |keys| && KeysFit(keys)
    ensures |KeyList(keys[..i])| <= |KeyList(keys)|
    decreases |keys| - i
  {
    if i < |keys| {
      KeyListGrows(keys, i + 1);
      assert keys[..i + 1][..i] == keys[..i];
    } else {
      assert keys[..i] == keys;
    }
  }

  /** The listing, or the one-byte failure if it does not fit a frame. */
  method IdentitiesResponse(keys: seq<(seq<byte>, seq<byte>)>) returns (frame: seq<byte>)
    ensures IsFrame(frame, if ListingFits(keys) then [12] + U32(|keys|) + KeyList(keys) else [5])
  {
    if |keys| >= TWO32 {
      return Framed([FAILURE]);
    }
    var payload := [IDENTITIES_ANSWER] + U32(|keys|);
    for i := 0 to |keys|
      invariant KeysFit(keys[..i])
      invariant payload == [IDENTITIES_ANSWER] + U32(|keys|) + KeyList(keys[..i])
      invariant |payload| <= MAX_FRAME_LEN
    {
      if !KeyFits(keys[i]) {
        return Framed([FAILURE]);
      }
      assert keys[..i + 1][..i] == keys[..i];
      payload := payload + (Str(keys[i].0) + Str(keys[i].1));
      assert payload == [IDENTITIES_ANSWER] + U32(|keys|) + KeyList(keys[..i + 1]);
      if |payload| > MAX_FRAME_LEN {
        if ListingFits(keys) { KeyListGrows(keys, i + 1); }
        return Framed([FAILURE]);
      }
    }
    assert keys[..|keys|] == keys;
    return Framed(payload);
  }

  /** What a client reads: `n` pairs of strings. */
  function ReadKeys(fields: seq<byte>, n: nat): Option<(seq<(seq<byte>, seq<byte>)>, seq<byte>)> {
    if n == 0 then Some(([], fields))
    else
      var (blob, fields) :- ReadString(fields);
      var (name, fields) :- ReadString(fields);
      var (rest, fields) :- ReadKeys(fields, n - 1);
      Some(([(blob, name)] + rest, fields))
  }

  lemma {:induction false} KeyListFront(keys: seq<(seq<byte>, seq<byte>)>)
    requires keys != [] && KeysFit(keys)
    ensures KeyFits(keys[0]) && KeyList(keys) == Str(keys[0].0) + (Str(keys[0].1) + KeyList(keys[1..]))
  {
    hide Str;
    var front := keys[..|keys| - 1];
    if front == [] {
      assert keys[1..] == [];
      assert KeyList(front) == [];
    } else {
      KeyListFront(front);
      assert front[1..] == keys[1..][..|keys| - 2];
    }
  }

  /** The client reads back exactly the keys that were listed. */
  lemma {:induction false} ListingReadsBack(keys: seq<(seq<byte>, seq<byte>)>)
    requires KeysFit(keys)
    ensures ReadKeys(KeyList(keys), |keys|) == Some((keys, []))
  {
    if keys != [] {
      hide Str, ReadString;
      KeyListFront(keys);
      var rest := KeyList(keys[1..]);
      ReadStringExact(KeyList(keys), keys[0].0, Str(keys[0].1) + rest);
      ReadStringExact(Str(keys[0].1) + rest, keys[0].1, rest);
      ListingReadsBack(keys[1..]);
      assert [keys[0]] + keys[1..] == keys;
    }
  }
}
