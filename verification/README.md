# Voice call controller: a Dafny model

This project models the `Voice` controller of the Lumen CCS WebRTC SDK and its error classes.
`Voice` wraps a jssip user agent. It keeps its configuration, a bearer credential, the current SIP session and a three-valued state (`STOPPED`, `READY`, `CALL_IN_PROGRESS`). It republishes jssip's callbacks as its own named events.

The controller is an immutable record, `Controller.Voice`. Each method and each jssip callback is a pure function from one record to the next.

- **Events.** Every `emit` appends an `Event` to the record's `trace`. "No event published" and "exactly one `stateChange`" are therefore statements about the trace.
- **Exceptions.** A thrown exception is a `Failure(Thrown)`. `Thrown` is one of three things: one of the six error classes (`Raised`); the JavaScript TypeError of reading a method of a null user agent (`NullReference`); or an `error` published while nobody listens to `error`, which the emitter throws back (`Unhandled`). A caller that catches the exception keeps the record it had, so a failing call changes nothing.
- **jssip.** The user agent and sessions are opaque inputs:
  - an `Agent` records what it was built from;
  - a `Session` has an id, a remote URI, a flag saying it was placed by `call` (so it carries the handlers of `getCallOptions`), and an audio mute flag;
  - the outcome of the session's `sendDTMF` is a parameter (`failure`).
- **`start`.** `start` is split into `Start` (build and start the agent) and `Connected` (the agent's `connected` callback).

## Modules

- `Wrappers`: `Option` for values that may be `undefined`, and `Result`.
- `Text`: the decimal rendering of `${port}` and its reader, `${x}` for `string | undefined`, and splitting at the last separator.
- `States`: `VoiceState` and the enum's string values.
- `Errors`: the six classes and their messages, plus `Decode`, which reads an error back from its message.
- `Uris`: the proxy URI, the bearer credential and the `sip:` URIs, each with a reader and a round-trip lemma.
- `Controller`: the record, `setConfig`, every public method except `on` and `removeListener`, `setState`, `createUserAgent`, `attachToSession`, and the session callbacks.
- `Machine`: every operation and callback as an `Input`, one step `Next`, runs of steps `Run`, and scenario lemmas.

## The invariant

`Controller.Inv` holds of every record a program can reach (`Machine.ReachableKeepsInvariant`). This holds both with the `failed` handler as Voice.ts writes it and with the corrected one (see "## Findings"). It assumes listeners do not call back into the controller. The invariant says four things:

- while `CALL_IN_PROGRESS` there is a current session;
- the state equals the one carried by the last `stateChange` in the trace (`STOPPED` if there is none);
- a stored credential is a bearer credential;
- the proxy URI matches the configured transport, host and port.

`isMuted`, `toggleMute`, `sendDTMF` and `hangup` read the current session during a call, so they require `Inv`. On a record outside the invariant the code would throw a TypeError; `sendDTMF` would instead catch it and publish it as `error`. Listeners run inside `emit`, so a listener that calls back into the controller can leave it outside the invariant (`Machine.ReentrantCallInsideEnded`).

## Behaviour of the code worth noting

- After one of the five low-level failures, the code resets the state to `READY` but keeps `currentSession`. Only `ended` clears it (`Controller.OnCallFailure`).
- The emitter is Node's `events` emitter. Publishing `error` with no `error` listener throws the error. A failing `sendDTMF` then throws and never publishes `sendDtmf`. A low-level failure then throws out of its handler before the state is reset, so the call stays in progress (`Machine.UnheardFailureKeepsCall`). Whether an `error` listener is registered is an input to both operations.
- `attachAudioElement` adds a new subscription on every call. Nothing stops the same element being attached twice.
- `attachToSession` silently replaces an existing session. The replaced session's listeners stay attached (`Machine.StaleEndedForgetsNewSession`).
- A `start` whose checks fail rejects its promise. It does not throw synchronously.

## Model

| member | source | states |
|---|---|---|
| Text.IntToString | webrtc-sdk/src/voice/Voice.ts:152 | the port's text is a `-` exactly for negatives followed by decimal digits without leading zeros; it reads back as the same integer and contains no `:` or `@`, so it can always be split off a URI |
| Uris.ProxyUriRoundTrip | webrtc-sdk/src/voice/Voice.ts:148-153 | the proxy URI gives back the transport flag (`ws` when insecure, `wss` otherwise), the host and the port it was built from, whatever the host contains |
| Uris.BearerRoundTrip | webrtc-sdk/src/voice/Voice.ts:186-188 | the credential is `Bearer ` in front of the raw token; removing the prefix gives back the token, or `undefined` for an undefined token |
| Uris.SipUriRoundTrip | webrtc-sdk/src/voice/Voice.ts:423 | `sip:user@domain` gives back its user and domain when the domain has no `@` |
| Uris.SipUriAmbiguous | webrtc-sdk/src/voice/Voice.ts:256 | without that condition two different number/domain pairs build the same target |
| States.NameLastLetterIdentifies | webrtc-sdk/src/voice/Voice.ts:12-19 | the three enum string values are distinct, and even their last letters differ |
| Errors.VoiceError.Message | webrtc-sdk/src/voice/Errors.ts:4-38 | the state error's message ends with ` not allowed in state ` and the state's string value; the user error's message is `User `, the user rendered by `${}`, then ` is invalid` |
| Errors.FixedMessageTexts | webrtc-sdk/src/voice/Errors.ts:4-38 | the exact texts of the four classes without arguments |
| Errors.FormattedMessageTexts | webrtc-sdk/src/voice/Errors.ts:16-26 | the state error prints the operation and then the state's string value; a missing user prints as `undefined` |
| Errors.DecodeMessage | webrtc-sdk/src/voice/Errors.ts:4-38 | every error's message reads back to the same class and arguments, except a user literally named `undefined` |
| Errors.MessageInjective | webrtc-sdk/src/voice/Errors.ts:4-38 | apart from that case, two errors with the same message are the same error |
| Errors.UndefinedUserCollides | webrtc-sdk/src/voice/Errors.ts:22-26 | an undefined user and the user `"undefined"` produce the same message |
| Controller.Merge | webrtc-sdk/src/voice/Voice.ts:116-143 | each defined config field replaces the stored one and each undefined field keeps it; `insecure` keeps its prior value (initially false) unless given; the token is stored bearer-wrapped |
| Controller.MergeTwice | webrtc-sdk/src/voice/Voice.ts:116-143 | a property of the merge rule (the program applies it once, from the constructor): two configs in a row equal their field-wise last-writer-wins combination |
| Controller.MergeIdempotent | webrtc-sdk/src/voice/Voice.ts:116-143 | a property of the merge rule: re-applying a config changes nothing, and an all-undefined config changes nothing |
| Controller.SetConfig | webrtc-sdk/src/voice/Voice.ts:116-153 | fails with `ProxyUriSetError` exactly when proxy or port is still undefined after the merge; otherwise the URI reads back to the merged transport, host and port |
| Controller.New | webrtc-sdk/src/voice/Voice.ts:97-114 | construction fails iff proxy or port is missing; otherwise the controller is `STOPPED` with nothing published, no agent and no session; `hasAuth` holds iff the config gave a token; `getUser` gives the config's user; the transport is insecure only if `insecure: true` was given |
| Controller.SetState | webrtc-sdk/src/voice/Voice.ts:401-404 | the new state is announced by exactly one `stateChange` carrying it; nothing else changes |
| Controller.HasAuth | webrtc-sdk/src/voice/Voice.ts:194-196 | true exactly when a credential is stored, and under the invariant that credential is `Bearer ` followed by a token |
| Controller.SetAuth | webrtc-sdk/src/voice/Voice.ts:179-184 | afterwards `hasAuth` holds and the stored credential wraps the given token, even an undefined one; a running agent receives the same credential; nothing is published |
| Controller.AttachAudioElement | webrtc-sdk/src/voice/Voice.ts:203-211 | a non-audio element throws `InvalidAudioElementError` and subscribes nothing; an audio element is added to the subscribers |
| Controller.CreateUserAgent | webrtc-sdk/src/voice/Voice.ts:406-429 | checks in order: credential, then user (undefined or empty), then domain; the agent registers, uses the proxy URI and the stored credential, and its identity is `sip:user@domain`, which reads back as the user and the domain when the domain has no `@` |
| Controller.Start | webrtc-sdk/src/voice/Voice.ts:216-225 | fails exactly when the agent cannot be built, with that error; otherwise only the agent changes (started), with no state change and no event |
| Controller.Connected | webrtc-sdk/src/voice/Voice.ts:226-229 | the `connected` callback makes the controller `READY` with one `stateChange` |
| Controller.Stop | webrtc-sdk/src/voice/Voice.ts:236-240 | without an agent it throws (a TypeError); otherwise the agent is dropped and the state becomes `STOPPED`; the current session is left in place until its end is reported |
| Controller.AttachToSession | webrtc-sdk/src/voice/Voice.ts:431-436 | a new session becomes the current one, replacing any other, and one `session` event is published |
| Controller.Call | webrtc-sdk/src/voice/Voice.ts:247-258 | outside `READY` it throws `InvalidStateError("call", state)`; without a domain `InvalidDomainError`; with a domain but no user agent (after `stop`) a TypeError from reading `call` of a null agent; otherwise an unmuted outgoing session to `sip:number@domain` is attached and the state becomes `CALL_IN_PROGRESS`, publishing `session` then `stateChange`; the target reads back as number and domain when the domain has no `@` |
| Controller.HasActiveCall | webrtc-sdk/src/voice/Voice.ts:325-327 | true exactly in `CALL_IN_PROGRESS`, and under the invariant there is then a current session |
| Controller.GetCurrentState | webrtc-sdk/src/voice/Voice.ts:333-335 | under the invariant, the state the last `stateChange` announced |
| Controller.GetUser | webrtc-sdk/src/voice/Voice.ts:341-343 | the configured user; no contract of its own, but `Controller.New` and `Controller.SetUser` state that it reads back the user they store |
| Controller.IsReady | webrtc-sdk/src/voice/Voice.ts:378-380 | true in both `READY` and `CALL_IN_PROGRESS` |
| Controller.IsStopped | webrtc-sdk/src/voice/Voice.ts:386-388 | exactly the negation of `isReady` |
| Controller.IsMuted | webrtc-sdk/src/voice/Voice.ts:394-399 | false whenever no call is active; during a call it is the session's flag |
| Controller.SendDTMF | webrtc-sdk/src/voice/Voice.ts:298-307 | without an active call nothing changes; during a call, if the session threw, it publishes `error` when someone listens and otherwise throws that error; when it does not throw it then publishes `sendDtmf` |
| Controller.HangUp | webrtc-sdk/src/voice/Voice.ts:312-319 | without an active call nothing changes; during a call the state becomes `READY` at once and the session reference stays until its end is reported |
| Controller.SetUser | webrtc-sdk/src/voice/Voice.ts:348-354 | succeeds exactly in `STOPPED` and then changes only the user; elsewhere it throws `InvalidStateError("setUser", state)` |
| Controller.ToggleMute | webrtc-sdk/src/voice/Voice.ts:360-372 | outside `CALL_IN_PROGRESS` it throws `InvalidStateError("toggleMute", state)`; during a call it flips the session's flag, returns the new value that `isMuted` then reports, and publishes nothing |
| Controller.OnProgress | webrtc-sdk/src/voice/Voice.ts:264-268 | publishes `callRinging` exactly for a remote 180 on an outgoing session, and nothing else |
| Controller.OnConfirmed | webrtc-sdk/src/voice/Voice.ts:270-272 | an outgoing session's confirmation publishes one `callconnected`; the state does not change |
| Controller.OnNewInfo | webrtc-sdk/src/voice/Voice.ts:278-282 | only remote INFO on an outgoing session is published as `info` |
| Controller.OnEnded | webrtc-sdk/src/voice/Voice.ts:450-454 | any session's end makes the controller `READY` and forgets the current session; an outgoing session first publishes `hangup` |
| Controller.OnFailedAsWritten | webrtc-sdk/src/voice/Voice.ts:284-286 | an outgoing session's failure publishes `callFailed` and leaves the state as it was |
| Controller.OnFailed | webrtc-sdk/src/voice/Voice.ts:284-286 | the corrected handling: after `callFailed`, the state is `READY` and the session is forgotten |
| Controller.AsError | webrtc-sdk/src/voice/Voice.ts:440-445 | an `Error` cause is published unchanged; any other cause becomes an error whose message is the fixed prefix followed by the cause's text |
| Controller.OnCallFailure | webrtc-sdk/src/voice/Voice.ts:439-448 | with an `error` listener, each of the five failure events publishes one `error`, then one `stateChange` to `READY`, and nothing else changes; without one the handler throws that error and the state is not reset |
| Machine.Next | webrtc-sdk/src/voice/Voice.ts:179-457 | every operation and callback, with the `failed` handler as written or corrected, keeps the invariant and only appends to the trace; in the model only `attachAudioElement`, `start`, `stop`, the three guarded operations, `sendDTMF` and the failure handler can throw, because exceptions raised inside jssip are not modelled |
| Machine.Run | webrtc-sdk/src/voice/Voice.ts:179-457 | any sequence of operations and callbacks, with thrown calls caught, keeps the invariant, for either `failed` handler |
| Machine.ReachableKeepsInvariant | webrtc-sdk/src/voice/Voice.ts:401-404 | in every record reachable with either `failed` handler, a call in progress has a session, and `getCurrentState` equals the last state announced by `stateChange` |
| Machine.ToggleTwiceRestores | webrtc-sdk/src/voice/Voice.ts:360-372 | two toggles return opposite values and restore the controller exactly |
| Machine.GuardsReportOperationAndState | webrtc-sdk/src/voice/Errors.ts:16-20 | `call`, `setUser` and `toggleMute` refused in a state throw the error naming the operation and that state, and that message reads back to both |
| Machine.NoCallNoEffect | webrtc-sdk/src/voice/Voice.ts:298-319 | with no active call, `sendDTMF` and `hangup` change and publish nothing, and `isMuted` is false |
| Machine.CallThenConfirmed | webrtc-sdk/src/voice/Voice.ts:270-272 | a placed call that is confirmed publishes exactly one `callconnected` and stays `CALL_IN_PROGRESS` |
| Machine.CallThenMediaFailure | webrtc-sdk/src/voice/Voice.ts:439-448 | with an `error` listener, a placed call followed by a low-level failure publishes one `error` and returns to `READY`, keeping the session reference |
| Machine.UnheardFailureKeepsCall | webrtc-sdk/src/voice/Voice.ts:298-307 | without an `error` listener, a low-level failure throws and leaves the call in progress, so the next `call` throws; a failing `sendDTMF` throws the session's error |
| Machine.ReentrantCallInsideEnded | webrtc-sdk/src/voice/Voice.ts:450-454 | a `stateChange` listener that calls `call` inside `ended` leaves `CALL_IN_PROGRESS` with no session, outside the invariant |
| Machine.FailedCallStaysInProgress | webrtc-sdk/src/voice/Voice.ts:284-286 | as written, a placed call that fails leaves `CALL_IN_PROGRESS`, and the next `call` throws |
| Machine.FailedCallReturnsToReady | webrtc-sdk/src/voice/Voice.ts:284-286 | with the correction, the same sequence returns to `READY` and the next `call` succeeds |
| Machine.HangUpThenEnded | webrtc-sdk/src/voice/Voice.ts:312-319 | when the session's end is reported after `hangup` returns, `hangup` and that `ended` each announce `READY`; only the second forgets the session |
| Machine.EndedAfterStop | webrtc-sdk/src/voice/Voice.ts:236-240 | when the session's end is reported after `stop` returns, stopping during a call and then the session ending leaves the controller reporting ready without an agent, and `call` then throws a TypeError |
| Machine.StaleEndedForgetsNewSession | webrtc-sdk/src/voice/Voice.ts:431-454 | when a replaced session ends, the controller forgets the session that replaced it |
| Machine.StartThenCall | webrtc-sdk/src/voice/Voice.ts:216-258 | from any config with a non-empty user, a domain, a proxy and a port but no token: `start` fails with `InvalidAuthTokenError`; after `setAuth`, start, connect and call reach `CALL_IN_PROGRESS`; the agent's identity is `sip:user@domain` and the session's target `sip:number@domain`, and both read back when the domain has no `@` |
| Machine.AliceConstructs | webrtc-sdk/src/voice/Voice.ts:148-153 | the concrete config for `alice` at `sip.example.com:443` constructs a stopped controller with the proxy URI `wss://sip.example.com:443` |
| Machine.MissingPortScenario | webrtc-sdk/src/voice/Voice.ts:148-151 | a proxy without a port fails construction with `ProxyUriSetError` and its fixed message |

## Findings

| source | as written | input that shows it | evidently intended | confidence | as-written member | corrected member |
|---|---|---|---|---|---|---|
| webrtc-sdk/src/voice/Voice.ts:284-286 | a session's `failed` event only republishes `callFailed`; no listener resets the state, and `attachToSession` listens only to `ended` | `call(n)` to a busy or rejecting callee: jssip raises `failed` and never `ended` for a call that was not established, so the state stays `CALL_IN_PROGRESS` and the next `call` throws `InvalidStateError("call", CALL_IN_PROGRESS)`. `hangup` probably does not get the controller out either: it calls `terminate` on the session that has already failed, which jssip refuses by throwing, before `setState(READY)` runs. The model takes `terminate` never to throw, so its `hangup` does reset | a call that fails during setup returns the controller to `READY` and clears the session, as `ended` does | medium (relies on jssip not raising `ended` after `failed`), not executed | Machine.FailedCallStaysInProgress | Controller.OnFailed |

`Machine.Next` takes the handler as a parameter. `AsWritten` runs `Controller.OnFailedAsWritten`, the code's behaviour. `Corrected` runs `Controller.OnFailed`. The invariant is proved for both.

## Left out

- The `debug` flag: `debug.enable` is a jssip logging side effect (Voice.ts:121-123). `Config.debug` is accepted and ignored.
- `on` and `removeListener`: the model records what is published, not how listeners are dispatched (Voice.ts:158-169). The one effect listeners have that is modelled is whether anyone listens to `error`; it is an input to `sendDTMF` and the failure handler.
- Machine.ReachableKeepsInvariant: assumes listeners do not call back into the controller. Listeners run inside `emit`, and a re-entrant call can break the invariant (`Machine.ReentrantCallInsideEnded`).
- `audioStream` events and the `track` listener of `attachAudioStreamListener`: media tracks are not modelled (Voice.ts:455-467). `AttachAudioElement` records only the subscription. Playback of the stream is also not modelled.
- `new Voice()` without a config: `setConfig` then reads `user` of `undefined`. That JavaScript TypeError is not modelled; `New` always takes a `Config`.
- Ports that are not integers (fractions, `NaN`): `port` is an `int`.
- Text.IntToString: plain decimal for every integer. JavaScript writes magnitudes of 10^21 and above in exponent form (`1e+21`), and integers beyond 2^53 are not exact numbers. Such ports are not modelled.
- The WebSocket and jssip internals: registration, network I/O, `terminate`, `mute`/`unmute` beyond the session's flag, DTMF options, and the call's `mediaConstraints`. No exception raised inside jssip is modelled. The calls made without a `try` are: `new WebSocketInterface`, `new UA` and `UA.call`; `UA.set` in `setAuth` (Voice.ts:182); `UA.stop` in `stop` (Voice.ts:237); `RTCSession.terminate` in `hangup` (Voice.ts:316); and `unmute`/`mute` in `toggleMute` (Voice.ts:365, 369). An exception from any of them would leave the method at that point.
- Controller.HangUp and Controller.Stop: jssip's `terminate` and the agent's `stop` are taken to report the session's end later, as a separate `ended` or `failed` input. If jssip raises `ended` synchronously inside them, its effects come before the `stateChange` of `hangup` or `stop`. That interleaving is not modelled. `terminate` is also taken never to throw, although jssip refuses to terminate a session that has already ended or failed; there `hangup` would throw before `setState(READY)`.
- The ordering of jssip callbacks is taken as given. In particular, `call` attaches the new session synchronously, before `stateChange(CALL_IN_PROGRESS)`.
- A `start` that never connects: there is no time in the model.
