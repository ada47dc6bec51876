/** The controller as a state machine: every public operation and every
    jssip callback is an input; a step that throws leaves the record as it
    was (the caller catches). Proves the controller invariant for every
    reachable record, and the call scenarios of Voice.ts end to end. */
module Machine {
  import opened Wrappers
  import opened Text
  import opened States
  import opened Errors
  import opened Uris
  import opened Controller

  datatype Input =
    | SetAuthInput(jwt: Option<string>)
    | AttachAudioInput(element: nat, isAudioElement: bool)
    | StartInput
    | ConnectedInput
    | StopInput
    | CallInput(number: string, id: nat)
    | DtmfInput(digit: Digit, failure: Option<Fault>, listened: bool)
    | HangUpInput
    | SetUserInput(user: string)
    | ToggleMuteInput
    | NewSessionInput(session: Session)
    | ProgressInput(session: Session, call: CallEvent)
    | ConfirmedInput(session: Session, call: CallEvent)
    | NewInfoInput(session: Session, info: InfoEvent)
    | EndedInput(session: Session, end: EndEvent)
    | FailedInput(session: Session, end: EndEvent)
    | CallFailureInput(event: FailureEvent, cause: Cause, listened: bool)

  /** Inputs whose handling can throw. */
  predicate MayThrow(i: Input)
  {
    || i.AttachAudioInput? || i.StartInput? || i.StopInput? || i.CallInput? || i.SetUserInput? || i.ToggleMuteInput?
    || i.DtmfInput? || i.CallFailureInput?
  }

  /** Which handler a session's `failed` gets: the one Voice.ts installs, or
      the corrected one that returns to `READY`. */
  datatype FailedHandler = AsWritten | Corrected

  /** One step. Events are only ever appended, and the invariant holds after
      every step that does not throw, whichever `failed` handler is used. */
  function Next(v: Voice, i: Input, h: FailedHandler): (r: Result<Voice, Thrown>)
    requires Inv(v)
    ensures r.Failure? ==> MayThrow(i)
    ensures r.Success? ==> Inv(r.value) && v.trace <= r.value.trace
  {
    match i
    case SetAuthInput(jwt) => Success(SetAuth(v, jwt))
    case AttachAudioInput(element, ok) => AttachAudioElement(v, element, ok)
    case StartInput => Start(v)
    case ConnectedInput => Success(Connected(v))
    case StopInput => Stop(v)
    case CallInput(number, id) => Call(v, number, id)
    case DtmfInput(digit, failure, listened) => SendDTMF(v, digit, failure, listened)
    case HangUpInput => Success(HangUp(v))
    case SetUserInput(user) => SetUser(v, user)
    case ToggleMuteInput =>
      (match ToggleMute(v)
       case Failure(e) => Failure(e)
       case Success((w, _)) => Success(w))
    case NewSessionInput(s) => Success(AttachToSession(v, s))
    case ProgressInput(s, e) => Success(OnProgress(v, s, e))
    case ConfirmedInput(s, e) => Success(OnConfirmed(v, s, e))
    case NewInfoInput(s, e) => Success(OnNewInfo(v, s, e))
    case EndedInput(s, e) => Success(OnEnded(v, s, e))
    case FailedInput(s, e) =>
      (match h
       case AsWritten => Success(OnFailedAsWritten(v, s, e))
       case Corrected => Success(OnFailed(v, s, e)))
    case CallFailureInput(_, cause, listened) => OnCallFailure(v, cause, listened)
  }

  /** A run of inputs; a step that throws is caught and skipped. */
  function Run(v: Voice, inputs: seq<Input>, h: FailedHandler): (r: Voice)
    requires Inv(v)
    ensures Inv(r) && v.trace <= r.trace
    decreases |inputs|
  {
    if |inputs| == 0 then v
    else
      var w := match Next(v, inputs[0], h) case Success(w) => w case Failure(_) => v;
      Run(w, inputs[1..], h)
  }

  /** Every record a program can reach, with the `failed` handler as written
      or corrected, satisfies the invariant: in particular a call in progress
      always has a session, and the state a `stateChange` listener last heard
      is the state the controller is in. Listeners are taken not to call back
      into the controller (see `ReentrantCallInsideEnded`). */
  lemma ReachableKeepsInvariant(c: Config, inputs: seq<Input>, h: FailedHandler)
    requires New(c).Success?
    ensures Inv(Run(New(c).value, inputs, h))
    ensures var v := Run(New(c).value, inputs, h);
            v.state == CallInProgress ==> v.currentSession.Some?
    ensures var v := Run(New(c).value, inputs, h);
            GetCurrentState(v) == Announced(v.trace)
  {
  }

  /** Calling `toggleMute` twice restores the controller exactly, and the two
      calls return opposite values. */
  lemma ToggleTwiceRestores(v: Voice)
    requires Inv(v) && HasActiveCall(v)
    ensures ToggleMute(v).Success?
    ensures ToggleMute(ToggleMute(v).value.0).Success?
    ensures ToggleMute(ToggleMute(v).value.0).value.1 == !ToggleMute(v).value.1
    ensures ToggleMute(ToggleMute(v).value.0).value.0 == v
  {
  }

  /** The three guarded operations refuse the states they do not allow with
      an `InvalidStateError` naming the operation and the state, and the
      error's text reads back to the same pair. */
  lemma GuardsReportOperationAndState(v: Voice, number: string, id: nat, user: string)
    requires Inv(v)
    ensures v.state != Ready ==> Call(v, number, id) == Failure(Raised(InvalidStateError("call", v.state)))
    ensures v.state != Stopped ==> SetUser(v, user) == Failure(Raised(InvalidStateError("setUser", v.state)))
    ensures v.state != CallInProgress ==> ToggleMute(v) == Failure(Raised(InvalidStateError("toggleMute", v.state)))
    ensures Decode(InvalidStateError("call", v.state).Message()) == Some(InvalidStateError("call", v.state))
    ensures Decode(InvalidStateError("setUser", v.state).Message()) == Some(InvalidStateError("setUser", v.state))
    ensures Decode(InvalidStateError("toggleMute", v.state).Message()) == Some(InvalidStateError("toggleMute", v.state))
  {
    DecodeMessage(InvalidStateError("call", v.state));
    DecodeMessage(InvalidStateError("setUser", v.state));
    DecodeMessage(InvalidStateError("toggleMute", v.state));
  }

  /** Without an active call, `sendDTMF` and `hangup` publish nothing and
      change nothing; `isMuted` is false. */
  lemma NoCallNoEffect(v: Voice, digit: Digit, failure: Option<Fault>, listened: bool)
    requires Inv(v) && !HasActiveCall(v)
    ensures SendDTMF(v, digit, failure, listened) == Success(v)
    ensures HangUp(v) == v
    ensures !IsMuted(v)
  {
  }

  /** A confirmed outgoing call publishes exactly one `callconnected` and
      stays `CALL_IN_PROGRESS`. */
  lemma CallThenConfirmed(v: Voice, number: string, id: nat, e: CallEvent)
    requires Inv(v) && Call(v, number, id).Success?
    ensures var w := Call(v, number, id).value;
            var x := OnConfirmed(w, w.currentSession.value, e);
            x.state == CallInProgress && x.trace == w.trace + [CallConnected(e)]
  {
  }

  /** With an `error` listener, a low-level failure after `call` publishes
      exactly one `error` and returns to `READY`; the session reference is
      kept until `ended`. */
  lemma CallThenMediaFailure(v: Voice, number: string, id: nat, cause: Cause)
    requires Inv(v) && Call(v, number, id).Success?
    ensures var w := Call(v, number, id).value;
            && OnCallFailure(w, cause, true).Success?
            && var x := OnCallFailure(w, cause, true).value;
            && x.state == Ready
            && x.trace == w.trace + [ErrorEvent(AsError(cause)), StateChange(Ready)]
            && x.currentSession == w.currentSession
  {
  }

  /** Without an `error` listener the same failure throws out of the handler:
      the controller stays `CALL_IN_PROGRESS` and the next `call` throws. A
      failing `sendDTMF` likewise throws and never publishes `sendDtmf`. */
  lemma UnheardFailureKeepsCall(v: Voice, number: string, id: nat, cause: Cause, digit: Digit, f: Fault,
                                next: string, id2: nat)
    requires Inv(v) && Call(v, number, id).Success?
    ensures var w := Call(v, number, id).value;
            && OnCallFailure(w, cause, false) == Failure(Unhandled(AsError(cause)))
            && w.state == CallInProgress
            && Call(w, next, id2) == Failure(Raised(InvalidStateError("call", CallInProgress)))
            && SendDTMF(w, digit, Some(f), false) == Failure(Unhandled(f))
  {
  }

  /** Listeners run inside `emit`. A `stateChange` listener that places a call
      when it hears `READY` from a session's `ended` handler does so before
      the handler clears `currentSession`: the new call is in progress with
      no session, outside the invariant. */
  lemma ReentrantCallInsideEnded(v: Voice, number: string, id: nat)
    requires Inv(v) && v.userAgent.Some? && v.fields.domain.Some?
    ensures var w := SetState(v, Ready);
            && Call(w, number, id).Success?
            && var x := Call(w, number, id).value.(currentSession := None);
            && x.state == CallInProgress && x.currentSession.None?
            && !Inv(x)
  {
  }

  /** As written, a call that fails before it connects (a busy or rejected
      callee raises jssip's `failed`, never `ended`) publishes `callFailed` but
      leaves the controller in `CALL_IN_PROGRESS`: the next `call` throws. */
  lemma FailedCallStaysInProgress(v: Voice, number: string, id: nat, e: EndEvent, next: string, id2: nat)
    requires Inv(v) && Call(v, number, id).Success?
    ensures var w := Call(v, number, id).value;
            var x := OnFailedAsWritten(w, w.currentSession.value, e);
            && x.state == CallInProgress
            && x.trace == w.trace + [CallFailed(e)]
            && Call(x, next, id2) == Failure(Raised(InvalidStateError("call", CallInProgress)))
  {
  }

  /** With `failed` handled like `ended`, the same call returns the controller
      to `READY` and the next `call` goes through. */
  lemma FailedCallReturnsToReady(v: Voice, number: string, id: nat, e: EndEvent, next: string, id2: nat)
    requires Inv(v) && Call(v, number, id).Success?
    ensures var w := Call(v, number, id).value;
            var x := OnFailed(w, w.currentSession.value, e);
            && x.state == Ready && x.currentSession.None?
            && x.trace == w.trace + [CallFailed(e), StateChange(Ready)]
            && Call(x, next, id2).Success?
  {
  }

  /** With the session's end reported after `hangup` returns, `hangup`
      reports `READY` and the `ended` that follows reports it again: two
      `stateChange` events for one hang-up, and the session is forgotten only
      by the second. */
  lemma HangUpThenEnded(v: Voice, e: EndEvent)
    requires Inv(v) && HasActiveCall(v)
    ensures var w := HangUp(v);
            var x := OnEnded(w, v.currentSession.value, e);
            && w.state == Ready && w.currentSession == v.currentSession
            && x.state == Ready && x.currentSession.None?
            && x.trace == v.trace + [StateChange(Ready)]
                 + (if v.currentSession.value.outgoing then [Hangup(e)] else []) + [StateChange(Ready)]
  {
  }

  /** With the session's end reported after `stop` returns, `stop` during a
      call leaves the session in place; when its `ended` follows, the
      controller reports `READY` without a user agent, and `call` then reads
      `call` of a null agent. */
  lemma EndedAfterStop(v: Voice, e: EndEvent, number: string, id: nat)
    requires Inv(v) && HasActiveCall(v) && v.userAgent.Some? && v.fields.domain.Some?
    ensures Stop(v).Success?
    ensures var x := OnEnded(Stop(v).value, v.currentSession.value, e);
            && IsReady(x) && x.userAgent.None?
            && Call(x, number, id) == Failure(NullReference("call"))
  {
  }

  /** A second session replaces the first without detaching it, so the first
      session's `ended` forgets the second. */
  lemma StaleEndedForgetsNewSession(v: Voice, incoming: Session, e: EndEvent)
    requires Inv(v) && HasActiveCall(v)
    ensures var w := AttachToSession(v, incoming);
            var x := OnEnded(w, v.currentSession.value, e);
            && w.currentSession == Some(incoming)
            && x.currentSession.None? && x.state == Ready
  {
  }

  const Alice: Config := Config(Some("alice"), None, Some("sip.example.com"), Some("sip.example.com"), Some(443), None, None)

  /** The port renders in decimal. */
  lemma PortRendering()
    ensures IntToString(443) == "443"
  {
    assert NatToString(4) == "4";
    assert NatToString(44) == "44";
    assert NatToString(443) == "443";
  }

  const AliceFields: Fields := Fields(None, Some("sip.example.com"), Some("sip.example.com"), Some(443), false, Some("alice"))

  /** Constructing from `Alice` yields a stopped controller, no credential,
      and the secure proxy URI. */
  lemma AliceConstructs()
    ensures New(Alice) == Success(Voice(AliceFields, "wss://sip.example.com:443", Stopped, None, None, [], []))
  {
    assert Merge(Unset, Alice) == AliceFields;
    PortRendering();
    assert ProxyUri(false, "sip.example.com", 443) == "wss://sip.example.com:443";
  }

  /** The configuration `start` needs beyond proxy and port: a user that is
      neither undefined nor empty, and a domain. */
  predicate CanRegister(c: Config)
  {
    c.proxy.Some? && c.port.Some? && c.user.Some? && c.user != Some("") && c.domain.Some?
  }

  /** Starting without a credential fails with `InvalidAuthTokenError`; once
      `setAuth` has run, `start` builds an agent registering as
      `sip:user@domain`, its `connected` callback makes the controller
      `READY`, and `call(number)` targets `sip:number@domain` with the call
      in progress. */
  lemma StartThenCall(c: Config, jwt: Option<string>, number: string, id: nat)
    requires CanRegister(c) && c.authorizationJWT.None?
    ensures var v0 := New(c).value;
            && Start(v0) == Failure(Raised(InvalidAuthTokenError))
            && Start(SetAuth(v0, jwt)).Success?
    ensures var agent := Start(SetAuth(New(c).value, jwt)).value.userAgent.value;
            && agent.register && agent.started
            && agent.uri == SipUri(c.user.value, c.domain.value)
            && ('@' !in c.domain.value ==> ParseSipUri(agent.uri) == Some(SipAddress(c.user.value, c.domain.value)))
            && StripBearer(agent.authorizationJWT) == Some(Render(jwt))
    ensures var v3 := Connected(Start(SetAuth(New(c).value, jwt)).value);
            && v3.state == Ready
            && Call(v3, number, id).Success?
            && Call(v3, number, id).value.state == CallInProgress
            && Call(v3, number, id).value.currentSession.value.remote == SipUri(number, c.domain.value)
            && ('@' !in c.domain.value ==>
                  ParseSipUri(Call(v3, number, id).value.currentSession.value.remote) == Some(SipAddress(number, c.domain.value)))
  {
  }

  /** A proxy without a port cannot be turned into a URI. */
  lemma MissingPortScenario()
    ensures New(Alice.(port := None)) == Failure(ProxyUriSetError)
    ensures ProxyUriSetError.Message() == "The proxy URI can not be set. Make sure to define proxy and port"
  {
  }
}
