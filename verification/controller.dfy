/** The `Voice` call controller of Voice.ts as an immutable record with pure
    transitions. Every `emit` appends to `trace`; a thrown exception is a
    `Failure` and leaves the caller holding the record it had. */
module Controller {
  import opened Wrappers
  import opened Text
  import opened States
  import opened Errors
  import opened Uris

  /** `VoiceConfig`: every field may be left undefined. */
  datatype Config = Config(
    user: Option<string>,
    authorizationJWT: Option<string>,
    proxy: Option<string>,
    domain: Option<string>,
    port: Option<int>,
    insecure: Option<bool>,
    debug: Option<bool>)

  const EmptyConfig: Config := Config(None, None, None, None, None, None, None)

  /** The controller's configuration fields. `authorizationJWT` holds the
      bearer-wrapped credential, not the raw token. */
  datatype Fields = Fields(
    authorizationJWT: Option<string>,
    proxy: Option<string>,
    domain: Option<string>,
    port: Option<int>,
    insecure: bool,
    user: Option<string>)

  /** The fields before any configuration: all undefined, `insecure` false. */
  const Unset: Fields := Fields(None, None, None, None, false, None)

  /** `after` is `update` when that is defined and `before` otherwise. */
  predicate Overwrites<T(==)>(before: Option<T>, update: Option<T>, after: Option<T>)
  {
    (update.Some? ==> after == update) && (update.None? ==> after == before)
  }

  /** The field-by-field part of `setConfig`. */
  function Merge(f: Fields, c: Config): (g: Fields)
    ensures Overwrites(f.user, c.user, g.user)
    ensures Overwrites(f.proxy, c.proxy, g.proxy)
    ensures Overwrites(f.domain, c.domain, g.domain)
    ensures Overwrites(f.port, c.port, g.port)
    ensures g.insecure == c.insecure.GetOr(f.insecure)
    ensures c.authorizationJWT.Some? ==> g.authorizationJWT == Some(BearerToken(c.authorizationJWT))
    ensures c.authorizationJWT.None? ==> g.authorizationJWT == f.authorizationJWT
  {
    Fields(
      authorizationJWT := if c.authorizationJWT.Some? then Some(BearerToken(c.authorizationJWT)) else f.authorizationJWT,
      proxy := if c.proxy.Some? then c.proxy else f.proxy,
      domain := if c.domain.Some? then c.domain else f.domain,
      port := if c.port.Some? then c.port else f.port,
      insecure := if c.insecure.Some? then c.insecure.value else f.insecure,
      user := if c.user.Some? then c.user else f.user)
  }

  function Later<T>(first: Option<T>, second: Option<T>): Option<T>
  {
    if second.Some? then second else first
  }

  /** The single configuration equivalent to applying `c1`, then `c2`. */
  function Combine(c1: Config, c2: Config): Config
  {
    Config(
      Later(c1.user, c2.user), Later(c1.authorizationJWT, c2.authorizationJWT),
      Later(c1.proxy, c2.proxy), Later(c1.domain, c2.domain), Later(c1.port, c2.port),
      Later(c1.insecure, c2.insecure), Later(c1.debug, c2.debug))
  }

  /** Merging is last-writer-wins per field. */
  lemma MergeTwice(f: Fields, c1: Config, c2: Config)
    ensures Merge(Merge(f, c1), c2) == Merge(f, Combine(c1, c2))
  {
  }

  /** Merging the same configuration again changes nothing, and an all-undefined
      configuration changes nothing at all. */
  lemma MergeIdempotent(f: Fields, c: Config)
    ensures Merge(Merge(f, c), c) == Merge(f, c)
    ensures Merge(f, EmptyConfig) == f
  {
    MergeTwice(f, c, c);
    assert Combine(c, c) == c;
  }

  /** `setConfig`: merge, then `setProxyURI`, which throws unless both proxy
      and port are defined. Returns the merged fields and the proxy URI. */
  function SetConfig(f: Fields, c: Config): (r: Result<(Fields, string), VoiceError>)
    ensures r.Failure? <==> Merge(f, c).proxy.None? || Merge(f, c).port.None?
    ensures r.Failure? ==> r.error == ProxyUriSetError
    ensures r.Success? ==> r.value.0 == Merge(f, c)
    ensures r.Success? ==> ParseProxyUri(r.value.1)
                           == Some(ProxyTarget(r.value.0.insecure, r.value.0.proxy.value, r.value.0.port.value))
  {
    var g := Merge(f, c);
    if g.proxy.None? || g.port.None? then Failure(ProxyUriSetError)
    else
      ProxyUriRoundTrip(g.insecure, g.proxy.value, g.port.value);
      Success((g, ProxyUri(g.insecure, g.proxy.value, g.port.value)))
  }

  /** jssip's user agent, reduced to the configuration it was built from. */
  datatype Agent = Agent(socket: string, uri: string, authorizationJWT: string, register: bool, started: bool)

  /** A jssip session handle: an identity, the remote party, whether it was
      placed by `call` (and so carries the handlers of `getCallOptions`), and
      its audio mute flag. */
  datatype Session = Session(id: nat, remote: string, outgoing: bool, muted: bool)

  datatype Originator = Local | Remote | System

  /** Payloads of jssip session events, reduced to the fields the controller
      reads. `status` is the SIP response code of a progress event. */
  datatype CallEvent = CallEvent(originator: Originator, status: int)
  datatype EndEvent = EndEvent(originator: Originator, cause: string)
  datatype InfoEvent = InfoEvent(originator: Originator, body: string)

  /** A JavaScript `Error` value, reduced to its message. */
  datatype Fault = Fault(message: string)

  /** What a low-level failure event carries: an `Error`, or any other value,
      given by its string rendering. */
  datatype Cause = ErrorValue(fault: Fault) | NonError(text: string)

  /** `Digit` of Voice.ts: a numeric enum from zero to nine. */
  type Digit = d: int | 0 <= d <= 9

  /** The topics of `VoiceEventMap` with their payloads; `audioStream` is not
      part of this model. */
  datatype Event =
    | SessionEvent(session: Session)
    | SendDtmf(digit: Digit)
    | StateChange(state: VoiceState)
    | CallRinging(call: CallEvent)
    | CallConnected(call: CallEvent)
    | Hangup(end: EndEvent)
    | Info(info: InfoEvent)
    | CallFailed(end: EndEvent)
    | ErrorEvent(fault: Fault)

  /** What an operation throws: one of the error classes, the TypeError of
      reading `property` of a null user agent, or an `Error` published as
      `error` while nobody listens to `error` (the `events` emitter throws
      it back at the emitting code). */
  datatype Thrown =
    | Raised(error: VoiceError)
    | NullReference(property: string)
    | Unhandled(fault: Fault)

  datatype Voice = Voice(
    fields: Fields,
    proxyUri: string,
    state: VoiceState,
    userAgent: Option<Agent>,
    currentSession: Option<Session>,
    audioElements: seq<nat>,
    trace: seq<Event>)

  /** The state the last `stateChange` of `t` announced; `STOPPED`, the
      initial state, when there is none. */
  function Announced(t: seq<Event>): VoiceState
    decreases |t|
  {
    if |t| == 0 then Stopped
    else if t[|t| - 1].StateChange? then t[|t| - 1].state
    else Announced(t[..|t| - 1])
  }

  lemma AnnouncedAfter(t: seq<Event>, e: Event)
    ensures Announced(t + [e]) == if e.StateChange? then e.state else Announced(t)
  {
    assert (t + [e])[..|t|] == t;
  }

  /** The controller's invariant: a call in progress has a session, a
      listener that follows `stateChange` agrees with `getCurrentState`, a
      stored credential is a bearer credential, and the proxy URI reflects
      the configured transport. */
  predicate Inv(v: Voice)
  {
    && (v.state == CallInProgress ==> v.currentSession.Some?)
    && (v.fields.authorizationJWT.Some? ==> StripBearer(v.fields.authorizationJWT.value).Some?)
    && v.state == Announced(v.trace)
    && v.fields.proxy.Some? && v.fields.port.Some?
    && v.proxyUri == ProxyUri(v.fields.insecure, v.fields.proxy.value, v.fields.port.value)
  }

  /** `new Voice(config)`. */
  function New(c: Config): (r: Result<Voice, VoiceError>)
    ensures r.Failure? <==> c.proxy.None? || c.port.None?
    ensures r.Failure? ==> r.error == ProxyUriSetError
    ensures r.Success? ==> Inv(r.value)
    ensures r.Success? ==> r.value.state == Stopped && r.value.trace == []
    ensures r.Success? ==> r.value.userAgent.None? && r.value.currentSession.None?
    ensures r.Success? ==> (HasAuth(r.value) <==> c.authorizationJWT.Some?)
    ensures r.Success? ==> GetUser(r.value) == c.user
    ensures r.Success? ==> (r.value.fields.insecure <==> c.insecure == Some(true))
    ensures r.Success? ==> ParseProxyUri(r.value.proxyUri) == Some(ProxyTarget(c.insecure == Some(true), c.proxy.value, c.port.value))
  {
    BearerRoundTrip(c.authorizationJWT);
    match SetConfig(Unset, c)
    case Failure(e) => Failure(e)
    case Success((f, uri)) => Success(Voice(f, uri, Stopped, None, None, [], []))
  }

  function Emit(v: Voice, e: Event): (r: Voice)
    ensures r == v.(trace := v.trace + [e])
    ensures Announced(r.trace) == if e.StateChange? then e.state else Announced(v.trace)
  {
    AnnouncedAfter(v.trace, e);
    v.(trace := v.trace + [e])
  }

  /** `setState`: the one place the state changes, always announced by exactly
      one `stateChange` carrying the new state. */
  function SetState(v: Voice, s: VoiceState): (r: Voice)
    ensures r.state == s && Announced(r.trace) == s
    ensures r.trace == v.trace + [StateChange(s)]
    ensures r.(state := v.state, trace := v.trace) == v
  {
    Emit(v.(state := s), StateChange(s))
  }

  /** `hasAuth`: a credential has been stored; under the invariant it is a
      bearer credential. */
  function HasAuth(v: Voice): (r: bool)
    ensures r <==> v.fields.authorizationJWT.Some?
    ensures r && Inv(v) ==> StripBearer(v.fields.authorizationJWT.value).Some?
  {
    v.fields.authorizationJWT.Some?
  }

  /** `setAuth`: stores the bearer credential, even for an undefined token, and
      pushes it into a running agent. */
  function SetAuth(v: Voice, jwt: Option<string>): (r: Voice)
    ensures HasAuth(r) && StripBearer(r.fields.authorizationJWT.value) == Some(Render(jwt))
    ensures r.fields == v.fields.(authorizationJWT := r.fields.authorizationJWT)
    ensures r.userAgent.Some? <==> v.userAgent.Some?
    ensures r.userAgent.Some? ==> r.userAgent.value == v.userAgent.value.(authorizationJWT := r.fields.authorizationJWT.value)
    ensures r.(fields := v.fields, userAgent := v.userAgent) == v
    ensures Inv(v) ==> Inv(r)
  {
    BearerRoundTrip(jwt);
    var token := BearerToken(jwt);
    var agent := if v.userAgent.Some? then Some(v.userAgent.value.(authorizationJWT := token)) else None;
    v.(fields := v.fields.(authorizationJWT := Some(token)), userAgent := agent)
  }

  /** `attachAudioElement`; `isAudioElement` stands for the `instanceof`
      checks. Success subscribes the element for the call's audio. */
  function AttachAudioElement(v: Voice, element: nat, isAudioElement: bool): (r: Result<Voice, Thrown>)
    ensures r.Failure? <==> !isAudioElement
    ensures r.Failure? ==> r.error == Raised(InvalidAudioElementError)
    ensures r.Success? ==> r.value.audioElements == v.audioElements + [element]
    ensures r.Success? ==> r.value.(audioElements := v.audioElements) == v
  {
    if !isAudioElement then Failure(Raised(InvalidAudioElementError))
    else Success(v.(audioElements := v.audioElements + [element]))
  }

  /** `createUserAgent`: checks credential, then user, then domain. */
  function CreateUserAgent(v: Voice): (r: Result<Agent, VoiceError>)
    ensures v.fields.authorizationJWT.None? ==> r == Failure(InvalidAuthTokenError)
    ensures (v.fields.authorizationJWT.Some? && (v.fields.user.None? || v.fields.user == Some("")))
            ==> r == Failure(InvalidUserError(v.fields.user))
    ensures (v.fields.authorizationJWT.Some? && v.fields.user.Some? && v.fields.user != Some("")
             && v.fields.domain.None?) ==> r == Failure(InvalidDomainError)
    ensures r.Success? <==> HasAuth(v) && v.fields.user.Some? && v.fields.user != Some("") && v.fields.domain.Some?
    ensures r.Success? ==> r.value.register && !r.value.started && r.value.socket == v.proxyUri
    ensures r.Success? ==> r.value.authorizationJWT == v.fields.authorizationJWT.value
    ensures r.Success? ==> r.value.uri == SipUri(v.fields.user.value, v.fields.domain.value)
    ensures r.Success? && '@' !in v.fields.domain.value
            ==> ParseSipUri(r.value.uri) == Some(SipAddress(v.fields.user.value, v.fields.domain.value))
  {
    if v.fields.authorizationJWT.None? then Failure(InvalidAuthTokenError)
    else if v.fields.user.None? || v.fields.user == Some("") then Failure(InvalidUserError(v.fields.user))
    else if v.fields.domain.None? then Failure(InvalidDomainError)
    else
      var user := v.fields.user.value;
      var domain := v.fields.domain.value;
      assert '@' !in domain ==> ParseSipUri(SipUri(user, domain)) == Some(SipAddress(user, domain)) by {
        if '@' !in domain { SipUriRoundTrip(user, domain); }
      }
      Success(Agent(v.proxyUri, SipUri(user, domain), v.fields.authorizationJWT.value, true, false))
  }

  /** The first half of `start`: build and start the agent. A failure here
      rejects the returned promise. */
  function Start(v: Voice): (r: Result<Voice, Thrown>)
    ensures r.Failure? <==> CreateUserAgent(v).Failure?
    ensures r.Failure? ==> r.error == Raised(CreateUserAgent(v).error)
    ensures r.Success? ==> r.value.userAgent == Some(CreateUserAgent(v).value.(started := true))
    ensures r.Success? ==> r.value.(userAgent := v.userAgent) == v
    ensures r.Success? && Inv(v) ==> Inv(r.value)
  {
    match CreateUserAgent(v)
    case Failure(e) => Failure(Raised(e))
    case Success(agent) => Success(v.(userAgent := Some(agent.(started := true))))
  }

  /** The second half of `start`: the agent's `connected` callback. */
  function Connected(v: Voice): (r: Voice)
    ensures r.state == Ready && r.trace == v.trace + [StateChange(Ready)]
    ensures r.(state := v.state, trace := v.trace) == v
    ensures Inv(v) ==> Inv(r)
  {
    SetState(v, Ready)
  }

  /** `stop`. Calling it before any `start` reads `stop` of an undefined agent.
      The model takes the agent's shutdown to report the end of a running
      session later, as a separate input, so the session is left in place. */
  function Stop(v: Voice): (r: Result<Voice, Thrown>)
    ensures r.Failure? <==> v.userAgent.None?
    ensures r.Failure? ==> r.error == NullReference("stop")
    ensures r.Success? ==> r.value.state == Stopped && r.value.userAgent.None?
    ensures r.Success? ==> r.value.trace == v.trace + [StateChange(Stopped)]
    ensures r.Success? ==> r.value.(state := v.state, userAgent := v.userAgent, trace := v.trace) == v
    ensures r.Success? && Inv(v) ==> Inv(r.value)
  {
    if v.userAgent.None? then Failure(NullReference("stop"))
    else Success(SetState(v.(userAgent := None), Stopped))
  }

  /** `attachToSession`: the agent's `newRTCSession` callback, for incoming
      sessions and for the one `call` creates. It replaces any current
      session. */
  function AttachToSession(v: Voice, s: Session): (r: Voice)
    ensures r.currentSession == Some(s) && r.trace == v.trace + [SessionEvent(s)]
    ensures r.(currentSession := v.currentSession, trace := v.trace) == v
    ensures Inv(v) ==> Inv(r)
  {
    Emit(v.(currentSession := Some(s)), SessionEvent(s))
  }

  /** `call`: in `READY` with a domain, the agent creates the outgoing session
      `id` for `sip:number@domain` (attached before `call` returns), and the
      state becomes `CALL_IN_PROGRESS` before the call is answered. */
  function Call(v: Voice, number: string, id: nat): (r: Result<Voice, Thrown>)
    ensures v.state != Ready ==> r == Failure(Raised(InvalidStateError("call", v.state)))
    ensures v.state == Ready && v.fields.domain.None? ==> r == Failure(Raised(InvalidDomainError))
    ensures v.state == Ready && v.fields.domain.Some? && v.userAgent.None? ==> r == Failure(NullReference("call"))
    ensures r.Success? <==> v.state == Ready && v.fields.domain.Some? && v.userAgent.Some?
    ensures r.Success? ==> r.value.state == CallInProgress && r.value.currentSession.Some?
    ensures r.Success? ==> var s := r.value.currentSession.value;
              && s.id == id && s.outgoing && !s.muted
              && s.remote == SipUri(number, v.fields.domain.value)
              && ('@' !in v.fields.domain.value ==> ParseSipUri(s.remote) == Some(SipAddress(number, v.fields.domain.value)))
              && r.value.trace == v.trace + [SessionEvent(s), StateChange(CallInProgress)]
    ensures r.Success? ==> r.value.(state := v.state, currentSession := v.currentSession, trace := v.trace) == v
    ensures r.Success? && Inv(v) ==> Inv(r.value)
  {
    if v.state != Ready then Failure(Raised(InvalidStateError("call", v.state)))
    else if v.fields.domain.None? then Failure(Raised(InvalidDomainError))
    else if v.userAgent.None? then Failure(NullReference("call"))
    else
      var domain := v.fields.domain.value;
      assert '@' !in domain ==> ParseSipUri(SipUri(number, domain)) == Some(SipAddress(number, domain)) by {
        if '@' !in domain { SipUriRoundTrip(number, domain); }
      }
      var session := Session(id, SipUri(number, domain), true, false);
      Success(SetState(AttachToSession(v, session), CallInProgress))
  }

  /** `hasActiveCall`: under the invariant an active call has a session. */
  function HasActiveCall(v: Voice): (r: bool)
    ensures r <==> v.state == CallInProgress
    ensures r && Inv(v) ==> v.currentSession.Some?
  {
    v.state == CallInProgress
  }

  /** `getCurrentState`: under the invariant, the state the last
      `stateChange` announced. */
  function GetCurrentState(v: Voice): (r: VoiceState)
    ensures Inv(v) ==> r == Announced(v.trace)
  {
    v.state
  }

  /** `getUser`: the user the configuration or the last `setUser` gave. */
  function GetUser(v: Voice): Option<string>
  {
    v.fields.user
  }

  function IsReady(v: Voice): (r: bool)
    ensures r <==> v.state == Ready || v.state == CallInProgress
  {
    v.state != Stopped
  }

  function IsStopped(v: Voice): (r: bool)
    ensures r <==> !IsReady(v)
  {
    v.state == Stopped
  }

  /** `isMuted`: the session's audio flag during a call, false otherwise. */
  function IsMuted(v: Voice): (r: bool)
    requires Inv(v)
    ensures r ==> HasActiveCall(v)
    ensures HasActiveCall(v) ==> r == v.currentSession.value.muted
  {
    if v.state == CallInProgress then v.currentSession.value.muted else false
  }

  /** `sendDTMF`; `failure` is what the session's `sendDTMF` throws, if
      anything, and `listened` says whether an `error` listener is registered.
      Without an active call nothing happens. A failure is republished as
      `error`; with nobody listening the emitter throws it out of `sendDTMF`
      before `sendDtmf` is published. */
  function SendDTMF(v: Voice, digit: Digit, failure: Option<Fault>, listened: bool): (r: Result<Voice, Thrown>)
    requires Inv(v)
    ensures !HasActiveCall(v) ==> r == Success(v)
    ensures r.Failure? <==> HasActiveCall(v) && failure.Some? && !listened
    ensures r.Failure? ==> r.error == Unhandled(failure.value)
    ensures r.Success? && HasActiveCall(v) ==>
              r.value.trace == v.trace + (if failure.Some? then [ErrorEvent(failure.value)] else []) + [SendDtmf(digit)]
    ensures r.Success? ==> r.value.(trace := v.trace) == v && Inv(r.value)
  {
    if !HasActiveCall(v) then Success(v)
    else if failure.Some? && !listened then Failure(Unhandled(failure.value))
    else
      var w := if failure.Some? then Emit(v, ErrorEvent(failure.value)) else v;
      Success(Emit(w, SendDtmf(digit)))
  }

  /** `hangup`: terminates the session and reports `READY`. The model takes
      jssip's `terminate` to report the session's end later, as a separate
      `ended` or `failed` input, so the session reference stays until then. */
  function HangUp(v: Voice): (r: Voice)
    requires Inv(v)
    ensures !HasActiveCall(v) ==> r == v
    ensures HasActiveCall(v) ==> r.state == Ready && r.trace == v.trace + [StateChange(Ready)]
    ensures HasActiveCall(v) ==> r.currentSession == v.currentSession
    ensures r.(state := v.state, trace := v.trace) == v
    ensures Inv(r)
  {
    if !HasActiveCall(v) then v else SetState(v, Ready)
  }

  /** `setUser`: allowed only while stopped. */
  function SetUser(v: Voice, user: string): (r: Result<Voice, Thrown>)
    ensures r.Success? <==> v.state == Stopped
    ensures r.Failure? ==> r.error == Raised(InvalidStateError("setUser", v.state))
    ensures r.Success? ==> GetUser(r.value) == Some(user)
    ensures r.Success? ==> r.value.(fields := v.fields) == v
    ensures r.Success? ==> r.value.fields == v.fields.(user := Some(user))
    ensures r.Success? && Inv(v) ==> Inv(r.value)
  {
    if v.state == Stopped then Success(v.(fields := v.fields.(user := Some(user))))
    else Failure(Raised(InvalidStateError("setUser", v.state)))
  }

  /** `toggleMute`: allowed only during a call; flips the session's mute flag
      and returns the new value. */
  function ToggleMute(v: Voice): (r: Result<(Voice, bool), Thrown>)
    requires Inv(v)
    ensures r.Failure? <==> v.state != CallInProgress
    ensures r.Failure? ==> r.error == Raised(InvalidStateError("toggleMute", v.state))
    ensures r.Success? ==> r.value.1 == !IsMuted(v)
    ensures r.Success? ==> Inv(r.value.0) && IsMuted(r.value.0) == r.value.1
    ensures r.Success? ==> r.value.0.currentSession == Some(v.currentSession.value.(muted := r.value.1))
    ensures r.Success? ==> r.value.0.(currentSession := v.currentSession) == v
  {
    if v.state != CallInProgress then Failure(Raised(InvalidStateError("toggleMute", v.state)))
    else
      var s := v.currentSession.value;
      if s.muted then Success((v.(currentSession := Some(s.(muted := false))), false))
      else Success((v.(currentSession := Some(s.(muted := true))), true))
  }

  /** The `progress` handler of an outgoing session: a remote 180 is ringing. */
  function OnProgress(v: Voice, s: Session, e: CallEvent): (r: Voice)
    ensures r.trace == v.trace + [CallRinging(e)] || r == v
    ensures r != v <==> s.outgoing && e.originator == Remote && e.status == 180
    ensures r.(trace := v.trace) == v
    ensures Inv(v) ==> Inv(r)
  {
    if s.outgoing && e.originator == Remote && e.status == 180 then Emit(v, CallRinging(e)) else v
  }

  /** The `confirmed` handler of an outgoing session. */
  function OnConfirmed(v: Voice, s: Session, e: CallEvent): (r: Voice)
    ensures s.outgoing ==> r.trace == v.trace + [CallConnected(e)]
    ensures !s.outgoing ==> r == v
    ensures r.(trace := v.trace) == v
    ensures Inv(v) ==> Inv(r)
  {
    if s.outgoing then Emit(v, CallConnected(e)) else v
  }

  /** The `newInfo` handler of an outgoing session: only remote INFO is
      republished. */
  function OnNewInfo(v: Voice, s: Session, e: InfoEvent): (r: Voice)
    ensures r.trace == v.trace + [Info(e)] || r == v
    ensures r != v <==> s.outgoing && e.originator == Remote
    ensures r.(trace := v.trace) == v
    ensures Inv(v) ==> Inv(r)
  {
    if s.outgoing && e.originator == Remote then Emit(v, Info(e)) else v
  }

  /** A session's `ended`: an outgoing session's handler publishes `hangup`,
      then the listener of `attachToSession` reports `READY` and forgets the
      current session, whichever session ended. */
  function OnEnded(v: Voice, s: Session, e: EndEvent): (r: Voice)
    ensures r.state == Ready && r.currentSession.None?
    ensures r.trace == v.trace + (if s.outgoing then [Hangup(e)] else []) + [StateChange(Ready)]
    ensures r.(state := v.state, currentSession := v.currentSession, trace := v.trace) == v
    ensures Inv(v) ==> Inv(r)
  {
    var w := if s.outgoing then Emit(v, Hangup(e)) else v;
    SetState(w, Ready).(currentSession := None)
  }

  /** A session's `failed` as the source handles it: an outgoing session
      publishes `callFailed`, and nothing resets the state. */
  function OnFailedAsWritten(v: Voice, s: Session, e: EndEvent): (r: Voice)
    ensures s.outgoing ==> r.trace == v.trace + [CallFailed(e)]
    ensures !s.outgoing ==> r == v
    ensures r.(trace := v.trace) == v
    ensures Inv(v) ==> Inv(r)
  {
    if s.outgoing then Emit(v, CallFailed(e)) else v
  }

  /** A session's `failed` handled like `ended`: after `callFailed` the state
      returns to `READY` and the session is forgotten, so a call that never
      connects does not leave the controller in `CALL_IN_PROGRESS`. */
  function OnFailed(v: Voice, s: Session, e: EndEvent): (r: Voice)
    ensures r.state == Ready && r.currentSession.None?
    ensures r.trace == v.trace + (if s.outgoing then [CallFailed(e)] else []) + [StateChange(Ready)]
    ensures r.(state := v.state, currentSession := v.currentSession, trace := v.trace) == v
    ensures Inv(v) ==> Inv(r)
  {
    SetState(OnFailedAsWritten(v, s, e), Ready).(currentSession := None)
  }

  /** The five low-level failures `attachToSession` listens to, jssip's
      `peerconnection:setremotedescriptionfailed`, `…:createofferfailed`,
      `…:createanswerfailed`, `…:setlocaldescriptionfailed` and
      `getusermediafailed`. All five share one handler. */
  datatype FailureEvent =
    | SetRemoteDescriptionFailed
    | CreateOfferFailed
    | CreateAnswerFailed
    | SetLocalDescriptionFailed
    | GetUserMediaFailed

  const UnknownErrorPrefix: string := "An unknown error occurred during the call: "

  /** The error published for a failure's cause: the cause itself when it is
      an `Error`, otherwise a new `Error` that quotes it. */
  function AsError(c: Cause): (f: Fault)
    ensures c.ErrorValue? ==> f == c.fault
    ensures c.NonError? ==> HasPrefix(f.message, UnknownErrorPrefix) && f.message[|UnknownErrorPrefix|..] == c.text
  {
    match c
    case ErrorValue(f) => f
    case NonError(text) =>
      var m := UnknownErrorPrefix + text;
      assert m[..|UnknownErrorPrefix|] == UnknownErrorPrefix;
      Fault(m)
  }

  /** The handler of the five failures: publishes one `error`, then reports
      `READY`; the current session is kept. With no `error` listener
      (`listened` false) the emitter throws the error out of the handler into
      jssip, and the state is never reset. */
  function OnCallFailure(v: Voice, cause: Cause, listened: bool): (r: Result<Voice, Thrown>)
    ensures r.Failure? <==> !listened
    ensures r.Failure? ==> r.error == Unhandled(AsError(cause))
    ensures r.Success? ==> r.value.state == Ready
    ensures r.Success? ==> r.value.trace == v.trace + [ErrorEvent(AsError(cause)), StateChange(Ready)]
    ensures r.Success? ==> r.value.(state := v.state, trace := v.trace) == v
    ensures r.Success? && Inv(v) ==> Inv(r.value)
  {
    if !listened then Failure(Unhandled(AsError(cause)))
    else Success(SetState(Emit(v, ErrorEvent(AsError(cause))), Ready))
  }
}
