/** The strings Voice.ts derives from its configuration: the WebSocket proxy
    URI, the bearer credential and the two SIP URIs (the agent's identity and a
    call's target). Each has a reader that recovers what was put in. */
module Uris {
  import opened Wrappers
  import opened Text

  const BearerPrefix: string := "Bearer "
  const SipScheme: string := "sip:"

  /** `ws` for an insecure transport, `wss` otherwise, then host and port. */
  function ProxyUri(insecure: bool, proxy: string, port: int): string
  {
    Scheme(insecure) + HostPort(proxy, port)
  }

  function Scheme(insecure: bool): string
  {
    "ws" + (if insecure then "" else "s") + "://"
  }

  function HostPort(proxy: string, port: int): string
  {
    proxy + ":" + IntToString(port)
  }

  datatype ProxyTarget = ProxyTarget(insecure: bool, proxy: string, port: int)

  function ParseProxyUri(u: string): Option<ProxyTarget>
  {
    if HasPrefix(u, "wss://") then ParseHostPort(false, u[6..])
    else if HasPrefix(u, "ws://") then ParseHostPort(true, u[5..])
    else None
  }

  /** Reads `host:port`, splitting at the last colon. */
  function ParseHostPort(insecure: bool, hostPort: string): Option<ProxyTarget>
  {
    match SplitLast(hostPort, ':')
    case None => None
    case Some((host, port)) =>
      match ParseInt(port)
      case None => None
      case Some(n) => Some(ProxyTarget(insecure, host, n))
  }

  /** The proxy URI carries exactly the transport flag, host and port it was
      built from, whatever characters the host holds. */
  lemma ProxyUriRoundTrip(insecure: bool, proxy: string, port: int)
    ensures ParseProxyUri(ProxyUri(insecure, proxy, port)) == Some(ProxyTarget(insecure, proxy, port))
  {
    HostPortRoundTrip(insecure, proxy, port);
    ParseScheme(insecure, HostPort(proxy, port));
  }

  /** The reader strips exactly the scheme the writer put in front. */
  lemma ParseScheme(insecure: bool, hostPort: string)
    ensures ParseProxyUri(Scheme(insecure) + hostPort) == ParseHostPort(insecure, hostPort)
  {
    var u := Scheme(insecure) + hostPort;
    if insecure {
      assert Scheme(insecure) == "ws://";
      SchemeSplit("ws://", hostPort, u);
      assert u[2] == ':';
    } else {
      assert Scheme(insecure) == "wss://";
      SchemeSplit("wss://", hostPort, u);
    }
  }

  lemma HostPortRoundTrip(insecure: bool, proxy: string, port: int)
    ensures ParseHostPort(insecure, HostPort(proxy, port)) == Some(ProxyTarget(insecure, proxy, port))
  {
    SplitLastJoin(proxy, ':', IntToString(port));
  }

  lemma SchemeSplit(scheme: string, rest: string, u: string)
    requires u == scheme + rest
    ensures HasPrefix(u, scheme) && u[|scheme|..] == rest
  {
    assert u[..|scheme|] == scheme;
  }

  /** The credential header value: the raw token behind `Bearer `, with an
      undefined token rendered as `undefined`. */
  function BearerToken(jwt: Option<string>): string
  {
    BearerPrefix + Render(jwt)
  }

  function StripBearer(s: string): Option<string>
  {
    if HasPrefix(s, BearerPrefix) then Some(s[|BearerPrefix|..]) else None
  }

  lemma BearerRoundTrip(jwt: Option<string>)
    ensures StripBearer(BearerToken(jwt)) == Some(Render(jwt))
  {
    assert BearerToken(jwt)[..|BearerPrefix|] == BearerPrefix;
  }

  /** `sip:user@domain`: the agent's identity, and a call's target. */
  function SipUri(user: string, domain: string): string
  {
    SipScheme + user + "@" + domain
  }

  datatype SipAddress = SipAddress(user: string, domain: string)

  function ParseSipUri(u: string): Option<SipAddress>
  {
    if !HasPrefix(u, SipScheme) then None
    else
      match SplitLast(u[|SipScheme|..], '@')
      case None => None
      case Some((user, domain)) => Some(SipAddress(user, domain))
  }

  /** A SIP URI gives back its user part and its domain, as long as the
      domain itself holds no `@`. */
  lemma SipUriRoundTrip(user: string, domain: string)
    requires '@' !in domain
    ensures ParseSipUri(SipUri(user, domain)) == Some(SipAddress(user, domain))
  {
    var u := SipUri(user, domain);
    assert u == SipScheme + (user + ['@'] + domain);
    assert u[..|SipScheme|] == SipScheme;
    assert u[|SipScheme|..] == user + ['@'] + domain;
    SplitLastJoin(user, '@', domain);
  }

  /** Without that condition the domain cannot be read back: the target
      `sip:alice@a@b` splits at its last `@`. */
  lemma SipUriAmbiguous()
    ensures SipUri("alice", "a@b") == SipUri("alice@a", "b")
    ensures ParseSipUri(SipUri("alice", "a@b")) != Some(SipAddress("alice", "a@b"))
  {
    SipUriRoundTrip("alice@a", "b");
  }
}
