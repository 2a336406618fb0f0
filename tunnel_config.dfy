/**
 * TunnelConfig: the mutable record describing one tunnel (host, forwards,
 * credentials, timings, HTTP proxy) and its buildProxy decision.
 */
module Config {
  import opened Wrappers
  import opened JavaStrings
  import opened JavaNumbers

  /** TimeUnit.MINUTES.toSeconds(1). */
  const DefaultKeepAliveSeconds: Int64 := 60
  const DefaultConnectTimeoutSeconds: Int64 := 60

  /** Every field of a TunnelConfig at one moment; None stands for a null reference. */
  datatype ConfigFields = ConfigFields(
    host: Option<string>,
    tunnels: seq<string>,
    user: Option<string>,
    privateKeyFile: Option<string>,
    privateKeyPassword: Option<string>,
    password: Option<string>,
    keepAliveSeconds: Int64,
    proxy: Option<string>,
    proxyUser: Option<string>,
    proxyPassword: Option<string>,
    connectTimeoutSeconds: Int64)

  /** What new TunnelConfig() holds. */
  const Initial: ConfigFields :=
    ConfigFields(None, [], None, None, None, None, DefaultKeepAliveSeconds, None, None, None, DefaultConnectTimeoutSeconds)

  /** The PasswordException that Password.decode throws and buildProxy passes on. */
  datatype PasswordException = PasswordException

  datatype Credentials = Credentials(user: Option<string>, password: Option<string>)

  /** A JSch ProxyHTTP: its host string and the user/password set on it, if any. */
  datatype ProxyHttp = ProxyHttp(host: string, credentials: Option<Credentials>)

  class TunnelConfig {
    var host: Option<string>
    var tunnels: seq<string>
    var user: Option<string>
    var privateKeyFile: Option<string>
    var privateKeyPassword: Option<string>
    var password: Option<string>
    var keepAliveSeconds: Int64
    var proxy: Option<string>
    var proxyUser: Option<string>
    var proxyPassword: Option<string>
    var connectTimeoutSeconds: Int64

    function Fields(): ConfigFields
      reads this
    {
      ConfigFields(host, tunnels, user, privateKeyFile, privateKeyPassword, password,
                   keepAliveSeconds, proxy, proxyUser, proxyPassword, connectTimeoutSeconds)
    }

    /** Every string field null, no forwards, both timings one minute. */
    constructor ()
      ensures Fields() == Initial
    {
      host, tunnels, user, privateKeyFile, privateKeyPassword, password := None, [], None, None, None, None;
      keepAliveSeconds, connectTimeoutSeconds := DefaultKeepAliveSeconds, DefaultConnectTimeoutSeconds;
      proxy, proxyUser, proxyPassword := None, None, None;
    }

    method SetHost(h: Option<string>)
      modifies this
      ensures Fields() == old(Fields()).(host := h)
    {
      host := h;
    }

    method WithHost(h: Option<string>) returns (r: TunnelConfig)
      modifies this
      ensures r == this && Fields() == old(Fields()).(host := h)
    {
      SetHost(h);
      r := this;
    }

    /** Appends ts, in order, after the forwards already held. */
    method SetTunnels(ts: seq<string>)
      modifies this
      ensures Fields() == old(Fields()).(tunnels := old(tunnels) + ts)
    {
      for i := 0 to |ts|
        invariant Fields() == old(Fields()).(tunnels := old(tunnels) + ts[..i])
      {
        assert ts[..i + 1] == ts[..i] + [ts[i]];
        tunnels := tunnels + [ts[i]];
      }
      assert ts[..|ts|] == ts;
    }

    method WithTunnels(ts: seq<string>) returns (r: TunnelConfig)
      modifies this
      ensures r == this && Fields() == old(Fields()).(tunnels := old(tunnels) + ts)
    {
      SetTunnels(ts);
      r := this;
    }

    method SetUser(s: Option<string>)
      modifies this
      ensures Fields() == old(Fields()).(user := s)
    {
      user := s;
    }

    method WithUser(s: Option<string>) returns (r: TunnelConfig)
      modifies this
      ensures r == this && Fields() == old(Fields()).(user := s)
    {
      SetUser(s);
      r := this;
    }

    method SetPrivateKeyFile(s: Option<string>)
      modifies this
      ensures Fields() == old(Fields()).(privateKeyFile := s)
    {
      privateKeyFile := s;
    }

    method WithPrivateKeyFile(s: Option<string>) returns (r: TunnelConfig)
      modifies this
      ensures r == this && Fields() == old(Fields()).(privateKeyFile := s)
    {
      SetPrivateKeyFile(s);
      r := this;
    }

    method SetPrivateKeyPassword(s: Option<string>)
      modifies this
      ensures Fields() == old(Fields()).(privateKeyPassword := s)
    {
      privateKeyPassword := s;
    }

    method WithPrivateKeyPassword(s: Option<string>) returns (r: TunnelConfig)
      modifies this
      ensures r == this && Fields() == old(Fields()).(privateKeyPassword := s)
    {
      SetPrivateKeyPassword(s);
      r := this;
    }

    method SetPassword(s: Option<string>)
      modifies this
      ensures Fields() == old(Fields()).(password := s)
    {
      password := s;
    }

    method WithPassword(s: Option<string>) returns (r: TunnelConfig)
      modifies this
      ensures r == this && Fields() == old(Fields()).(password := s)
    {
      SetPassword(s);
      r := this;
    }

    /** The number as given, negative values included. */
    method WithKeepAliveSeconds(n: Int64) returns (r: TunnelConfig)
      modifies this
      ensures r == this && Fields() == old(Fields()).(keepAliveSeconds := n)
    {
      keepAliveSeconds := n;
      r := this;
    }

    /** The decimal value of s, or 60 when s is null or does not parse as a long. */
    method SetKeepAliveSeconds(s: Option<string>)
      modifies this
      ensures Fields() == old(Fields()).(keepAliveSeconds := ToLong(s, DefaultKeepAliveSeconds))
    {
      keepAliveSeconds := ToLong(s, DefaultKeepAliveSeconds);
    }

    /** The number as given, negative values included. */
    method WithConnectTimeout(n: Int64) returns (r: TunnelConfig)
      modifies this
      ensures r == this && Fields() == old(Fields()).(connectTimeoutSeconds := n)
    {
      connectTimeoutSeconds := n;
      r := this;
    }

    /** The decimal value of s, or 60 when s is null or does not parse as a long. */
    method SetConnectTimeoutSeconds(s: Option<string>)
      modifies this
      ensures Fields() == old(Fields()).(connectTimeoutSeconds := ToLong(s, DefaultConnectTimeoutSeconds))
    {
      connectTimeoutSeconds := ToLong(s, DefaultConnectTimeoutSeconds);
    }

    method SetProxy(p: Option<string>, u: Option<string>, pw: Option<string>)
      modifies this
      ensures Fields() == old(Fields()).(proxy := p, proxyUser := u, proxyPassword := pw)
    {
      proxy, proxyUser, proxyPassword := p, u, pw;
    }

    method WithProxy(p: Option<string>, u: Option<string>, pw: Option<string>) returns (r: TunnelConfig)
      modifies this
      ensures r == this && Fields() == old(Fields()).(proxy := p, proxyUser := u, proxyPassword := pw)
    {
      SetProxy(p, u, pw);
      r := this;
    }

    /**
     * buildProxy(), as written: the three proxy fields are resolved; a blank
     * host gives no proxy; otherwise an HTTP proxy on that host, which gets
     * the resolved user and the decoded password only when the user is BLANK.
     * ExternalResolver.resolve and Password.decode are the parameters.
     */
    function BuildProxy(resolve: Option<string> -> Option<string>, decode: Option<string> -> Result<Option<string>, PasswordException>)
      : (r: Result<Option<ProxyHttp>, PasswordException>)
      reads this
      ensures (r.Ok? && r.value.None?) <==> IsBlank(resolve(proxy))
      ensures r.Err? <==> !IsBlank(resolve(proxy)) && IsBlank(resolve(proxyUser)) && decode(resolve(proxyPassword)).Err?
      ensures r.Ok? && r.value.Some? ==>
        && r.value.value.host == resolve(proxy).value
        && (r.value.value.credentials.Some? <==> IsBlank(resolve(proxyUser)))
        && (r.value.value.credentials.Some? ==>
              r.value.value.credentials.value == Credentials(resolve(proxyUser), decode(resolve(proxyPassword)).value))
    {
      var proxyHost := resolve(proxy);
      var proxyUserName := resolve(proxyUser);
      var proxyPass := resolve(proxyPassword);
      if IsBlank(proxyHost) then Ok(None)
      else if IsBlank(proxyUserName) then
        match decode(proxyPass)
        case Err(e) => Err(e)
        case Ok(plain) => Ok(Some(ProxyHttp(proxyHost.value, Some(Credentials(proxyUserName, plain)))))
      else Ok(Some(ProxyHttp(proxyHost.value, None)))
    }

    /**
     * buildProxy() as evidently intended: credentials are attached when the
     * proxy user is NOT blank.
     */
    function BuildProxyIntended(resolve: Option<string> -> Option<string>, decode: Option<string> -> Result<Option<string>, PasswordException>)
      : (r: Result<Option<ProxyHttp>, PasswordException>)
      reads this
      ensures (r.Ok? && r.value.None?) <==> IsBlank(resolve(proxy))
      ensures r.Err? <==> !IsBlank(resolve(proxy)) && !IsBlank(resolve(proxyUser)) && decode(resolve(proxyPassword)).Err?
      ensures r.Ok? && r.value.Some? ==>
        && r.value.value.host == resolve(proxy).value
        && (r.value.value.credentials.Some? <==> !IsBlank(resolve(proxyUser)))
        && (r.value.value.credentials.Some? ==>
              r.value.value.credentials.value == Credentials(resolve(proxyUser), decode(resolve(proxyPassword)).value))
    {
      var proxyHost := resolve(proxy);
      var proxyUserName := resolve(proxyUser);
      var proxyPass := resolve(proxyPassword);
      if IsBlank(proxyHost) then Ok(None)
      else if !IsBlank(proxyUserName) then
        match decode(proxyPass)
        case Err(e) => Err(e)
        case Ok(plain) => Ok(Some(ProxyHttp(proxyHost.value, Some(Credentials(proxyUserName, plain)))))
      else Ok(Some(ProxyHttp(proxyHost.value, None)))
    }
  }

  /** A resolver that leaves every value as it is (no %env or %sysprop references). */
  function Unresolved(s: Option<string>): Option<string> { s }

  /** A decoder for plain-text passwords. */
  function PlainText(s: Option<string>): Result<Option<string>, PasswordException> { Ok(s) }

  /**
   * As written, a proxy with a named user gets no credentials at all, while
   * the intended version passes that user and password on.
   */
  lemma BuildProxyDropsNamedUser(c: TunnelConfig)
    requires c.proxy == Some("proxy:3128") && c.proxyUser == Some("user") && c.proxyPassword == Some("password")
    ensures c.BuildProxy(Unresolved, PlainText) == Ok(Some(ProxyHttp("proxy:3128", None)))
    ensures c.BuildProxyIntended(Unresolved, PlainText)
      == Ok(Some(ProxyHttp("proxy:3128", Some(Credentials(Some("user"), Some("password"))))))
  {
    assert !IsWhitespace("proxy:3128"[0]);
    assert !IsWhitespace("user"[0]);
  }

  /**
   * testBuildProxy: a fresh config builds no proxy, and a proxy host builds
   * a proxy for every combination of null and non-null user and password.
   */
  method BuildProxyScenario() returns (none: Result<Option<ProxyHttp>, PasswordException>, all: seq<Result<Option<ProxyHttp>, PasswordException>>)
    ensures none == Ok(None)
    ensures |all| == 4 && forall i :: 0 <= i < 4 ==> all[i].Ok? && all[i].value.Some?
  {
    var c := new TunnelConfig();
    none := c.BuildProxy(Unresolved, PlainText);
    var host := Some("localhost:3128");
    assert !IsWhitespace(host.value[0]);
    all := [];
    var users := [Some("user"), None, Some("user"), None];
    var passwords := [Some("password"), None, None, Some("password")];
    for i := 0 to 4
      invariant |all| == i
      invariant forall j :: 0 <= j < i ==> all[j].Ok? && all[j].value.Some?
    {
      c := new TunnelConfig();
      c.SetProxy(host, users[i], passwords[i]);
      var p := c.BuildProxy(Unresolved, PlainText);
      all := all + [p];
    }
  }

  /** testWith*: every setter then getter returns what was stored, defaults otherwise. */
  method WithScenario() returns (before: ConfigFields, after: ConfigFields)
    ensures before == Initial
    ensures after == ConfigFields(Some("host"), ["1234:1234", "2345:2345"], Some("user"), Some("myFile"),
                                  Some("myPassword"), Some("myPassword"), 90, None, None, None, 90)
  {
    var c := new TunnelConfig();
    before := c.Fields();
    c := c.WithHost(Some("host"));
    c := c.WithTunnels(["1234:1234", "2345:2345"]);
    c := c.WithUser(Some("user"));
    c := c.WithPrivateKeyFile(Some("myFile"));
    c := c.WithPrivateKeyPassword(Some("myPassword"));
    c := c.WithPassword(Some("myPassword"));
    c := c.WithKeepAliveSeconds(90);
    c.SetConnectTimeoutSeconds(Some("90"));
    ToLongShow(90, DefaultConnectTimeoutSeconds);
    assert Show(90) == "90" by {
      assert Natural(90) == Natural(9) + "0";
    }
    after := c.Fields();
  }
}
