/**
 * The endpoint strings of a tunnel: "host" or "host:port" for the SSH server
 * (Tunnel.HostPortPair) and "localPort:remotePort" for each forward
 * (Tunnel.LocalRemotePortPair). Both split with String.split(":").
 */
module Endpoints {
  import opened Wrappers
  import opened JavaStrings
  import opened JavaNumbers

  /** The exceptions the two parsers can throw. */
  datatype ParseError = ArrayIndexOutOfBounds | NumberFormat | IllegalArgument

  const DefaultSshPort: Int32 := 22

  datatype HostPort = HostPort(host: string, port: Int32)

  /**
   * new HostPortPair(combined): the host is the first field; the port is the
   * second field read with NumberUtils.toInt(_, 22), or 22 when there is no
   * second field. A string of separators only has no first field, and reading
   * it throws.
   */
  function HostPortPair(combined: string): Result<HostPort, ParseError>
  {
    var pair := Split(combined);
    if |pair| == 0 then Err(ArrayIndexOutOfBounds)
    else Ok(HostPort(pair[0], if |pair| > 1 then ToInt(Some(pair[1]), DefaultSshPort) else DefaultSshPort))
  }

  /** Only a non-empty run of ':' fails, and the host is always the text before the first ':'. */
  lemma HostIsTextBeforeFirstColon(combined: string)
    ensures HostPortPair(combined).Err? <==> (combined != "" && forall j :: 0 <= j < |combined| ==> combined[j] == ':')
    ensures HostPortPair(combined).Ok? ==>
      var h := HostPortPair(combined).value.host;
      h <= combined && ':' !in h && (|h| == |combined| || combined[|h|] == ':')
  {
    SplitEmpty(combined);
    if Split(combined) != [] {
      SplitHead(combined);
    }
  }

  /** "host" alone: the whole string is the host and the port is 22. */
  lemma HostWithoutPort(host: string)
    requires ':' !in host
    ensures HostPortPair(host) == Ok(HostPort(host, 22))
  {
  }

  /** "host:" has an empty port field, which split drops: the port is 22. */
  lemma HostWithEmptyPort(host: string)
    requires ':' !in host && host != ""
    ensures HostPortPair(host + ":") == Ok(HostPort(host, 22))
  {
    SplitTrailingSeparator(host);
  }

  /** "host:p..." reads the port from the second field with default 22; later fields are ignored. */
  lemma HostWithPortField(host: string, p: string, rest: string)
    requires ':' !in host && ':' !in p && p != ""
    requires rest == "" || rest[0] == ':'
    ensures HostPortPair(host + ":" + p + rest) == Ok(HostPort(host, ToInt(Some(p), 22)))
  {
    SplitTwoFields(host, p, rest);
  }

  /** "host:port" with a decimal int port gives exactly that host and port. */
  lemma HostWithNumericPort(host: string, port: Int32)
    requires ':' !in host
    ensures HostPortPair(host + ":" + Show(port)) == Ok(HostPort(host, port))
  {
    HostWithPortField(host, Show(port), "");
    assert host + ":" + Show(port) + "" == host + ":" + Show(port);
    ParseIntShow(port);
  }

  /** A port field that does not parse falls back to 22. */
  lemma HostWithBadPort(host: string, p: string)
    requires ':' !in host && ':' !in p && p != "" && ParseInt(p).None?
    ensures HostPortPair(host + ":" + p) == Ok(HostPort(host, 22))
  {
    HostWithPortField(host, p, "");
    assert host + ":" + p + "" == host + ":" + p;
  }

  /**
   * The state of a LocalRemotePortPair after construction: both ports are set
   * (two or more fields) or both are null (fewer than two fields).
   */
  datatype PortPair = PortPair(localPort: Option<Int32>, remotePort: Option<Int32>)

  /**
   * new LocalRemotePortPair(portPairs): with two or more fields the first two
   * are read with Integer.parseInt, either failing throws NumberFormatException;
   * with fewer fields nothing is set.
   */
  function LocalRemotePortPair(portPairs: string): Result<PortPair, ParseError>
  {
    var pair := Split(portPairs);
    if |pair| > 1 then
      match (ParseInt(pair[0]), ParseInt(pair[1]))
      case (Some(l), Some(r)) => Ok(PortPair(Some(l), Some(r)))
      case _ => Err(NumberFormat)
    else Ok(PortPair(None, None))
  }

  /** getLocalPort(): the local port, or IllegalArgumentException when it was never set. */
  function GetLocalPort(p: PortPair): Result<Int32, ParseError>
  {
    match p.localPort
    case Some(v) => Ok(v)
    case None => Err(IllegalArgument)
  }

  /** getRemotePort(): the remote port, or IllegalArgumentException when it was never set. */
  function GetRemotePort(p: PortPair): Result<Int32, ParseError>
  {
    match p.remotePort
    case Some(v) => Ok(v)
    case None => Err(IllegalArgument)
  }

  /**
   * The forward a pair string asks for, as _start reads it: construction and
   * both getters must all return normally.
   */
  function Forward(portPairs: string): (r: Option<(Int32, Int32)>)
    ensures r.Some? <==>
      LocalRemotePortPair(portPairs).Ok?
      && GetLocalPort(LocalRemotePortPair(portPairs).value).Ok?
      && GetRemotePort(LocalRemotePortPair(portPairs).value).Ok?
    ensures r.Some? ==>
      r.value.0 == GetLocalPort(LocalRemotePortPair(portPairs).value).value
      && r.value.1 == GetRemotePort(LocalRemotePortPair(portPairs).value).value
  {
    match LocalRemotePortPair(portPairs)
    case Ok(PortPair(Some(l), Some(r))) => Some((l, r))
    case _ => None
  }

  /** "L:R" gives local L and remote R; any fields after the second are ignored. */
  lemma PortPairRoundTrip(local: Int32, remote: Int32, rest: string)
    requires rest == "" || rest[0] == ':'
    ensures LocalRemotePortPair(Show(local) + ":" + Show(remote) + rest) == Ok(PortPair(Some(local), Some(remote)))
    ensures Forward(Show(local) + ":" + Show(remote) + rest) == Some((local, remote))
  {
    SplitTwoFields(Show(local), Show(remote), rest);
    ParseIntShow(local);
    ParseIntShow(remote);
  }

  /**
   * Fewer than two fields ("localhost", "4444:"): construction succeeds and
   * both getters throw.
   */
  lemma PortPairSingleField(field: string)
    requires ':' !in field
    ensures LocalRemotePortPair(field) == Ok(PortPair(None, None))
    ensures field != "" ==> LocalRemotePortPair(field + ":") == Ok(PortPair(None, None))
    ensures GetLocalPort(PortPair(None, None)) == Err(IllegalArgument)
    ensures GetRemotePort(PortPair(None, None)) == Err(IllegalArgument)
    ensures Forward(field).None?
  {
    if field != "" {
      SplitTrailingSeparator(field);
    }
  }

  /** Two fields of which one is not an int ("localhost:localhost", ":5555"): construction throws. */
  lemma PortPairBadField(a: string, b: string, rest: string)
    requires ':' !in a && ':' !in b && b != ""
    requires rest == "" || rest[0] == ':'
    requires ParseInt(a).None? || ParseInt(b).None?
    ensures LocalRemotePortPair(a + ":" + b + rest) == Err(NumberFormat)
  {
    SplitTwoFields(a, b, rest);
  }

  lemma Show4444()
    ensures Show(4444) == "4444"
  {
    assert Natural(44) == Natural(4) + "4";
    assert Natural(444) == Natural(44) + "4";
    assert Natural(4444) == Natural(444) + "4";
  }

  lemma Show5555()
    ensures Show(5555) == "5555"
  {
    assert Natural(55) == Natural(5) + "5";
    assert Natural(555) == Natural(55) + "5";
    assert Natural(5555) == Natural(555) + "5";
  }

  /** testHostPortPair: "localhost" is port 22. */
  lemma HostPortDefaultExample()
    ensures HostPortPair("localhost") == Ok(HostPort("localhost", 22))
  {
    HostWithoutPort("localhost");
  }

  /** testHostPortPair: "localhost:4444" is port 4444. */
  lemma HostPortNumericExample(h: string)
    requires h == "localhost:4444"
    ensures HostPortPair(h) == Ok(HostPort("localhost", 4444))
  {
    Show4444();
    var host, port := "localhost", Show(4444);
    assert host + ":" + port == h;
    HostWithNumericPort(host, 4444);
  }

  /** testLocalRemotePortPair: "4444:5555" gives local 4444 and remote 5555. */
  lemma PortPairExample(s: string)
    requires s == "4444:5555"
    ensures LocalRemotePortPair(s) == Ok(PortPair(Some(4444), Some(5555)))
  {
    Show4444();
    Show5555();
    var local, remote := Show(4444), Show(5555);
    assert local + ":" + remote + "" == s;
    PortPairRoundTrip(4444, 5555, "");
  }

  /** testLocalRemotePortPair: "localhost" constructs with no ports, so both getters throw. */
  lemma PortPairMissingExample()
    ensures Forward("localhost").None?
  {
    PortPairSingleField("localhost");
  }

  lemma LocalhostIsNoPort()
    ensures ':' !in "localhost" && ParseInt("localhost").None?
  {
    var h := "localhost";
    assert h[0] == 'l';
    ParseRejectsNonNumeric(h, MinInt, MaxInt);
  }

  /** testLocalRemotePortPair: "localhost:localhost" throws NumberFormatException. */
  lemma PortPairNumberFormatExample(h: string)
    requires h == "localhost"
    ensures LocalRemotePortPair(h + ":" + h) == Err(NumberFormat)
  {
    LocalhostIsNoPort();
    PortPairBadField(h, h, "");
    assert h + ":" + h + "" == h + ":" + h;
  }
}
