/** The six error classes of Errors.ts. Each class is a message builder; the
    model keeps the constructor arguments and derives the message text. */
module Errors {
  import opened Wrappers
  import opened Text
  import opened States

  const AudioElementMessage: string := "Audio element must be a HTML element of type HTMLAudioElement"
  const AuthTokenMessage: string := "Authorization token must be set"
  const ProxyUriMessage: string := "The proxy URI can not be set. Make sure to define proxy and port"
  const DomainMessage: string := "Invalid domain"
  const NotAllowedInState: string := " not allowed in state "
  const UserPrefix: string := "User "
  const UserSuffix: string := " is invalid"

  datatype VoiceError =
    | InvalidAudioElementError
    | InvalidAuthTokenError
    | InvalidStateError(operation: string, state: VoiceState)
    | InvalidUserError(user: Option<string>)
    | ProxyUriSetError
    | InvalidDomainError
  {
    /** The `message` the class passes to `Error`. */
    function Message(): (m: string)
      ensures InvalidStateError? ==> HasSuffix(m, NotAllowedInState + state.Name())
      ensures InvalidUserError? ==> HasPrefix(m, UserPrefix) && HasSuffix(m, UserSuffix)
      ensures InvalidUserError? ==> |m| == |UserPrefix| + |Render(user)| + |UserSuffix|
      ensures InvalidUserError? ==> m[|UserPrefix|..|m| - |UserSuffix|] == Render(user)
    {
      match this
      case InvalidAudioElementError => AudioElementMessage
      case InvalidAuthTokenError => AuthTokenMessage
      case InvalidStateError(operation, state) => operation + NotAllowedInState + state.Name()
      case InvalidUserError(user) => UserPrefix + Render(user) + UserSuffix
      case ProxyUriSetError => ProxyUriMessage
      case InvalidDomainError => DomainMessage
    }
  }

  /** The one pair of errors whose messages collide: `InvalidUserError`
      renders an undefined user as the word `undefined`. */
  predicate RendersLikeUndefined(e: VoiceError)
  {
    e.InvalidUserError? && e.user == Some("undefined")
  }

  /** Reads an error back from its message text. */
  function Decode(m: string): Option<VoiceError>
  {
    if m == AudioElementMessage then Some(InvalidAudioElementError)
    else if m == AuthTokenMessage then Some(InvalidAuthTokenError)
    else if m == ProxyUriMessage then Some(ProxyUriSetError)
    else if m == DomainMessage then Some(InvalidDomainError)
    else if |m| >= |UserPrefix| + |UserSuffix| && HasPrefix(m, UserPrefix) && HasSuffix(m, UserSuffix) then
      var u := m[|UserPrefix|..|m| - |UserSuffix|];
      Some(InvalidUserError(if u == "undefined" then None else Some(u)))
    else if HasSuffix(m, NotAllowedInState + Stopped.Name()) then
      Some(InvalidStateError(m[..|m| - |NotAllowedInState + Stopped.Name()|], Stopped))
    else if HasSuffix(m, NotAllowedInState + Ready.Name()) then
      Some(InvalidStateError(m[..|m| - |NotAllowedInState + Ready.Name()|], Ready))
    else if HasSuffix(m, NotAllowedInState + CallInProgress.Name()) then
      Some(InvalidStateError(m[..|m| - |NotAllowedInState + CallInProgress.Name()|], CallInProgress))
    else None
  }

  /** The last character of every message, which separates the kinds:
      fixed messages end in a lower-case letter, state errors in the state's
      upper-case name, user errors in the `d` of "invalid". */
  function LastChar(m: string): char
    requires |m| > 0
  {
    m[|m| - 1]
  }

  lemma FixedMessagesEnd()
    ensures LastChar(AudioElementMessage) == 't' && LastChar(AuthTokenMessage) == 't'
    ensures LastChar(ProxyUriMessage) == 't' && LastChar(DomainMessage) == 'n'
    ensures LastChar(UserSuffix) == 'd'
  {
  }

  /** A message that ends in `c` is none of the fixed messages unless `c`
      is the last letter of one of them. */
  lemma NotFixed(m: string)
    requires |m| > 0 && LastChar(m) !in {'t', 'n'}
    ensures m != AudioElementMessage && m != AuthTokenMessage
    ensures m != ProxyUriMessage && m != DomainMessage
  {
    FixedMessagesEnd();
  }

  lemma DecodeStateMessage(operation: string, state: VoiceState)
    ensures Decode(InvalidStateError(operation, state).Message()) == Some(InvalidStateError(operation, state))
  {
    var m := InvalidStateError(operation, state).Message();
    var suffix := NotAllowedInState + state.Name();
    assert LastChar(m) == LastChar(suffix) == LastChar(state.Name());
    NotFixed(m);
    assert m[..|m| - |suffix|] == operation;
    forall s: VoiceState | HasSuffix(m, NotAllowedInState + s.Name())
      ensures s == state
    {
      var other := NotAllowedInState + s.Name();
      assert LastChar(m) == LastChar(other) == LastChar(s.Name());
      NameLastLetterIdentifies(s, state);
    }
  }

  lemma DecodeUserMessage(user: Option<string>)
    requires user != Some("undefined")
    ensures Decode(InvalidUserError(user).Message()) == Some(InvalidUserError(user))
  {
    var m := InvalidUserError(user).Message();
    FixedMessagesEnd();
    assert LastChar(m) == LastChar(UserSuffix);
    NotFixed(m);
  }

  /** A message names its error: decoding the text gives back the class and
      its arguments, except for a user literally called "undefined". */
  lemma DecodeMessage(e: VoiceError)
    requires !RendersLikeUndefined(e)
    ensures Decode(e.Message()) == Some(e)
  {
    match e
    case InvalidStateError(operation, state) => DecodeStateMessage(operation, state);
    case InvalidUserError(user) => DecodeUserMessage(user);
    case _ =>
  }

  /** Every message but the "undefined" lookalike identifies its error. */
  lemma MessageInjective(e1: VoiceError, e2: VoiceError)
    requires !RendersLikeUndefined(e1) && !RendersLikeUndefined(e2)
    requires e1.Message() == e2.Message()
    ensures e1 == e2
  {
    DecodeMessage(e1);
    DecodeMessage(e2);
  }

  /** The four fixed texts. */
  lemma FixedMessageTexts()
    ensures InvalidAudioElementError.Message() == "Audio element must be a HTML element of type HTMLAudioElement"
    ensures InvalidAuthTokenError.Message() == "Authorization token must be set"
    ensures ProxyUriSetError.Message() == "The proxy URI can not be set. Make sure to define proxy and port"
    ensures InvalidDomainError.Message() == "Invalid domain"
  {
  }

  /** The two messages built from arguments: the operation, then the enum's
      string value; and `undefined` for a missing user. */
  lemma FormattedMessageTexts()
    ensures InvalidStateError("call", Ready).Message() == "call not allowed in state READY"
    ensures InvalidUserError(None).Message() == "User undefined is invalid"
  {
    assert Ready.Name() == "READY";
    assert "call" + NotAllowedInState + "READY" == "call not allowed in state READY";
    assert UserPrefix + "undefined" + UserSuffix == "User undefined is invalid";
  }

  /** An undefined user and a user named "undefined" produce the same text. */
  lemma UndefinedUserCollides()
    ensures InvalidUserError(None).Message() == InvalidUserError(Some("undefined")).Message()
    ensures InvalidUserError(None) != InvalidUserError(Some("undefined"))
  {
  }
}
