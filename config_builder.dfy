/**
 * TunnelConfigBuilder: groups a flat key/value map into one TunnelConfig per
 * identifier, the identifiers taken from the keys "sshtunnel.tunnel.<id>.host"
 * and visited in String.compareTo order (a TreeSet).
 */
module ConfigBuilder {
  import opened Wrappers
  import opened JavaStrings
  import opened JavaNumbers
  import opened Config

  const KeyPrefix: string := "sshtunnel.tunnel."
  const HostSuffix: string := ".host"

  function HostKey(id: string): string { KeyPrefix + id + HostSuffix }
  function TunnelsKey(id: string): string { KeyPrefix + id + ".tunnel" }
  function UserKey(id: string): string { KeyPrefix + id + ".user" }
  function PrivateKeyKey(id: string): string { KeyPrefix + id + ".privateKey" }
  function PrivateKeyPasswordKey(id: string): string { KeyPrefix + id + ".privateKeyPassword" }
  function PasswordKey(id: string): string { KeyPrefix + id + ".password" }
  function KeepAliveKey(id: string): string { KeyPrefix + id + ".keepAlive.seconds" }
  function ProxyKey(id: string): string { KeyPrefix + id + ".proxy" }
  function ProxyUserKey(id: string): string { KeyPrefix + id + ".proxy.user" }
  function ProxyPasswordKey(id: string): string { KeyPrefix + id + ".proxy.password" }
  /** The connect timeout is global and read for every identifier. */
  const ConnectTimeoutKey: string := "sshtunnel.connect.timeout.seconds"

  /** Map.get: the value, or null when the key is absent. */
  function Lookup(m: map<string, string>, k: string): Option<string>
  {
    if k in m then Some(m[k]) else None
  }

  /** Text that the group (.*) can capture: no line terminators, which '.' refuses. */
  predicate Capturable(id: string)
  {
    forall i :: 0 <= i < |id| ==> !IsLineTerminator(id[i])
  }

  /**
   * The group captured when key matches ^sshtunnel\.tunnel\.(.*)\.host$ in
   * full (Matcher.matches), or None when it does not match.
   */
  function IdentifierOf(key: string): Option<string>
  {
    var n := |KeyPrefix| + |HostSuffix|;
    if |key| >= n && key[..|KeyPrefix|] == KeyPrefix && key[|key| - |HostSuffix|..] == HostSuffix
       && Capturable(key[|KeyPrefix|..|key| - |HostSuffix|])
    then Some(key[|KeyPrefix|..|key| - |HostSuffix|])
    else None
  }

  /** A key yields identifier id exactly when it is id's host key and id is capturable. */
  lemma IdentifierOfHostKey(key: string, id: string)
    ensures IdentifierOf(key) == Some(id) <==> key == HostKey(id) && Capturable(id)
  {
    var hk := HostKey(id);
    assert hk[..|KeyPrefix|] == KeyPrefix;
    assert hk[|hk| - |HostSuffix|..] == HostSuffix;
    assert hk[|KeyPrefix|..|hk| - |HostSuffix|] == id;
    if IdentifierOf(key) == Some(id) {
      assert key == key[..|KeyPrefix|] + key[|KeyPrefix|..|key| - |HostSuffix|] + key[|key| - |HostSuffix|..];
    }
  }

  /** The identifiers of a key set: one per key the pattern matches. */
  function Identifiers(keys: set<string>): set<string>
  {
    set k | k in keys && IdentifierOf(k).Some? :: IdentifierOf(k).value
  }

  /** No other key contributes an identifier: id is one exactly when its host key is present. */
  lemma {:induction false} InIdentifiers(keys: set<string>, id: string)
    ensures id in Identifiers(keys) <==> HostKey(id) in keys && Capturable(id)
  {
    if id in Identifiers(keys) {
      var k :| k in keys && IdentifierOf(k) == Some(id);
      IdentifierOfHostKey(k, id);
    }
    if HostKey(id) in keys && Capturable(id) {
      IdentifierOfHostKey(HostKey(id), id);
      assert IdentifierOf(HostKey(id)).value == id;
    }
  }

  /** Strictly ascending in compareTo order, so also free of duplicates. */
  predicate Sorted(s: seq<string>)
  {
    forall i, j :: 0 <= i < j < |s| ==> Less(s[i], s[j])
  }

  lemma SortedDistinct(s: seq<string>, i: int, j: int)
    requires Sorted(s) && 0 <= i < j < |s|
    ensures s[i] != s[j]
  {
    LessIrreflexive(s[i]);
  }

  /**
   * A map whose only host keys are those of a and b, with a before b in
   * compareTo order, has its identifiers iterated as exactly a, then b.
   */
  lemma TwoIdentifiersInOrder(m: map<string, string>, s: seq<string>, a: string, b: string)
    requires Sorted(s) && forall id :: id in s <==> id in Identifiers(m.Keys)
    requires HostKey(a) in m && HostKey(b) in m && Capturable(a) && Capturable(b)
    requires forall id :: HostKey(id) in m ==> id == a || id == b
    requires Less(a, b)
    ensures s == [a, b]
  {
    InIdentifiers(m.Keys, a);
    InIdentifiers(m.Keys, b);
    LessIrreflexive(a);
    forall x | x in s ensures x == a || x == b {
      InIdentifiers(m.Keys, x);
    }
    var i :| 0 <= i < |s| && s[i] == a;
    var j :| 0 <= j < |s| && s[j] == b;
    if i > j { LessAsymmetric(a, b); }
    if |s| > 2 {
      assert s[0] in s && s[1] in s && s[2] in s;
      SortedDistinct(s, 0, 1);
      SortedDistinct(s, 0, 2);
      SortedDistinct(s, 1, 2);
    }
    assert i == 0 && j == 1;
  }

  /** The two identifiers of the builder's end-to-end example come out in this order. */
  lemma ExampleIdentifierOrder(first: string, second: string)
    requires first == "myIdentifier" && second == "myOtherIdentifier"
    ensures Less(first, second)
  {
  }

  /** TreeSet.add on the ascending sequence of the set's elements. */
  function Insert(s: seq<string>, x: string): seq<string>
  {
    if s == [] then [x]
    else if s[0] == x then s
    else if Less(x, s[0]) then [x] + s
    else [s[0]] + Insert(s[1..], x)
  }

  /** Insert keeps the order and adds exactly x. */
  lemma {:induction false} InsertSorted(s: seq<string>, x: string)
    requires Sorted(s)
    ensures Sorted(Insert(s, x))
    ensures forall y :: y in Insert(s, x) <==> y in s || y == x
  {
    if s == [] {
    } else if s[0] == x {
    } else if Less(x, s[0]) {
      var r := [x] + s;
      forall i, j | 0 <= i < j < |r| ensures Less(r[i], r[j]) {
        if i == 0 && j > 1 { LessTransitive(x, s[0], s[j - 1]); }
      }
    } else {
      LessTotal(x, s[0]);
      var rest := s[1..];
      assert Sorted(rest);
      InsertSorted(rest, x);
      var ins := Insert(rest, x);
      var r := [s[0]] + ins;
      forall i, j | 0 <= i < j < |r| ensures Less(r[i], r[j]) {
        if i == 0 {
          assert r[j] in ins;
          if r[j] != x {
            assert r[j] in rest;
          }
        } else {
          assert r[i] == ins[i - 1] && r[j] == ins[j - 1];
        }
      }
      assert s == [s[0]] + rest;
    }
  }

  /** Every value whose key starts with prefix, in the order keys lists those keys. */
  ghost predicate Enumerates(values: seq<string>, keys: seq<string>, p: map<string, string>, prefix: string)
  {
    && |keys| == |values|
    && (forall i :: 0 <= i < |keys| ==> keys[i] in p && prefix <= keys[i] && values[i] == p[keys[i]])
    && (forall i, j :: 0 <= i < j < |keys| ==> keys[i] != keys[j])
    && (forall k :: k in p && prefix <= k ==> k in keys)
  }

  /** values lists, in some order of the keys, the value of every key starting with prefix, once each. */
  ghost predicate SubsetOf(values: seq<string>, p: map<string, string>, prefix: string)
  {
    exists keys :: Enumerates(values, keys, p, prefix)
  }

  /**
   * getSubset(p, prefix): walks the key set, whose order the map leaves
   * open, and appends the value of every key that starts with prefix.
   */
  method GetSubset(p: map<string, string>, prefix: string) returns (result: seq<string>)
    ensures SubsetOf(result, p, prefix)
  {
    result := [];
    ghost var keys: seq<string> := [];
    var remaining := p.Keys;
    while remaining != {}
      invariant remaining <= p.Keys
      invariant |keys| == |result|
      invariant forall i :: 0 <= i < |keys| ==> keys[i] in p && prefix <= keys[i] && result[i] == p[keys[i]] && keys[i] !in remaining
      invariant forall i, j :: 0 <= i < j < |keys| ==> keys[i] != keys[j]
      invariant forall k :: k in p && prefix <= k && k !in remaining ==> k in keys
      decreases remaining
    {
      var key :| key in remaining;
      if prefix <= key {
        result := result + [p[key]];
        keys := keys + [key];
      }
      remaining := remaining - {key};
    }
    assert Enumerates(result, keys, p, prefix);
  }

  /** A listing of distinct keys has as many entries as the set it covers. */
  lemma {:induction false} DistinctCount(keys: seq<string>, s: set<string>)
    requires forall i, j :: 0 <= i < j < |keys| ==> keys[i] != keys[j]
    requires forall k :: k in s <==> k in keys
    ensures |keys| == |s|
  {
    if keys != [] {
      var last := keys[|keys| - 1];
      var init := keys[..|keys| - 1];
      assert last !in init;
      forall k ensures k in s - {last} <==> k in init {
        if k in keys && k != last {
          var i :| 0 <= i < |keys| && keys[i] == k;
          assert i < |keys| - 1 && init[i] == k;
        }
      }
      DistinctCount(init, s - {last});
    } else {
      assert s == {};
    }
  }

  /** The forwards of a config are as many as the keys carrying its tunnel prefix. */
  lemma SubsetSize(values: seq<string>, p: map<string, string>, prefix: string)
    requires SubsetOf(values, p, prefix)
    ensures |values| == |set k | k in p && prefix <= k|
  {
    var keys :| Enumerates(values, keys, p, prefix);
    var matching := set k | k in p && prefix <= k;
    forall k ensures k in matching <==> k in keys {
      if k in keys {
        var i :| 0 <= i < |keys| && keys[i] == k;
      }
    }
    DistinctCount(keys, matching);
  }

  /** The fields of TunnelConfigBuilder.ConfigItem, in declaration order. */
  datatype ConfigItem = Host | Tunnels | User | PrivateKey | PrivateKeyPassword | Password | KeepAlive | ConnectTimeout | Proxy

  /** ConfigItem.values(). */
  const AllItems: seq<ConfigItem> := [Host, Tunnels, User, PrivateKey, PrivateKeyPassword, Password, KeepAlive, ConnectTimeout, Proxy]

  lemma AllItemsListed(item: ConfigItem)
    ensures item in AllItems
  {
    match item
    case Host => assert AllItems[0] == item;
    case Tunnels => assert AllItems[1] == item;
    case User => assert AllItems[2] == item;
    case PrivateKey => assert AllItems[3] == item;
    case PrivateKeyPassword => assert AllItems[4] == item;
    case Password => assert AllItems[5] == item;
    case KeepAlive => assert AllItems[6] == item;
    case ConnectTimeout => assert AllItems[7] == item;
    case Proxy => assert AllItems[8] == item;
  }

  /** The field(s) item sets hold what item.add(id, m, _) puts there. */
  ghost predicate Applied(item: ConfigItem, id: string, m: map<string, string>, f: ConfigFields)
  {
    match item
    case Host => f.host == Lookup(m, HostKey(id))
    case Tunnels => SubsetOf(f.tunnels, m, TunnelsKey(id))
    case User => f.user == Lookup(m, UserKey(id))
    case PrivateKey => f.privateKeyFile == Lookup(m, PrivateKeyKey(id))
    case PrivateKeyPassword => f.privateKeyPassword == Lookup(m, PrivateKeyPasswordKey(id))
    case Password => f.password == Lookup(m, PasswordKey(id))
    case KeepAlive => f.keepAliveSeconds == ToLong(Lookup(m, KeepAliveKey(id)), DefaultKeepAliveSeconds)
    case ConnectTimeout => f.connectTimeoutSeconds == ToLong(Lookup(m, ConnectTimeoutKey), DefaultConnectTimeoutSeconds)
    case Proxy =>
      f.proxy == Lookup(m, ProxyKey(id)) && f.proxyUser == Lookup(m, ProxyUserKey(id))
      && f.proxyPassword == Lookup(m, ProxyPasswordKey(id))
  }

  /** What build() makes of identifier id: every item applied to a fresh config. */
  ghost predicate Describes(f: ConfigFields, m: map<string, string>, id: string)
  {
    forall item :: Applied(item, id, m, f)
  }

  /** ConfigItem.add: one item's field(s) of existing set from the map; the other fields stay. */
  method Add(item: ConfigItem, id: string, m: map<string, string>, existing: TunnelConfig)
    modifies existing
    ensures item != Tunnels ==> Applied(item, id, m, existing.Fields())
    ensures item == Host ==> existing.Fields() == old(existing.Fields()).(host := Lookup(m, HostKey(id)))
    ensures item == Tunnels ==>
      exists xs :: SubsetOf(xs, m, TunnelsKey(id)) && existing.Fields() == old(existing.Fields()).(tunnels := old(existing.tunnels) + xs)
    ensures item == User ==> existing.Fields() == old(existing.Fields()).(user := Lookup(m, UserKey(id)))
    ensures item == PrivateKey ==>
      existing.Fields() == old(existing.Fields()).(privateKeyFile := Lookup(m, PrivateKeyKey(id)))
    ensures item == PrivateKeyPassword ==>
      existing.Fields() == old(existing.Fields()).(privateKeyPassword := Lookup(m, PrivateKeyPasswordKey(id)))
    ensures item == Password ==> existing.Fields() == old(existing.Fields()).(password := Lookup(m, PasswordKey(id)))
    ensures item == KeepAlive ==>
      existing.Fields() == old(existing.Fields()).(keepAliveSeconds := ToLong(Lookup(m, KeepAliveKey(id)), DefaultKeepAliveSeconds))
    ensures item == ConnectTimeout ==>
      existing.Fields() == old(existing.Fields()).(connectTimeoutSeconds := ToLong(Lookup(m, ConnectTimeoutKey), DefaultConnectTimeoutSeconds))
    ensures item == Proxy ==>
      existing.Fields() == old(existing.Fields()).(proxy := Lookup(m, ProxyKey(id)), proxyUser := Lookup(m, ProxyUserKey(id)),
                                                    proxyPassword := Lookup(m, ProxyPasswordKey(id)))
    ensures forall other :: other != item ==> (Applied(other, id, m, existing.Fields()) <==> Applied(other, id, m, old(existing.Fields())))
    ensures item != Tunnels ==> existing.tunnels == old(existing.tunnels)
  {
    match item
    case Host => existing.SetHost(Lookup(m, HostKey(id)));
    case Tunnels =>
      var xs := GetSubset(m, TunnelsKey(id));
      existing.SetTunnels(xs);
    case User => existing.SetUser(Lookup(m, UserKey(id)));
    case PrivateKey => existing.SetPrivateKeyFile(Lookup(m, PrivateKeyKey(id)));
    case PrivateKeyPassword => existing.SetPrivateKeyPassword(Lookup(m, PrivateKeyPasswordKey(id)));
    case Password => existing.SetPassword(Lookup(m, PasswordKey(id)));
    case KeepAlive => existing.SetKeepAliveSeconds(Lookup(m, KeepAliveKey(id)));
    case ConnectTimeout => existing.SetConnectTimeoutSeconds(Lookup(m, ConnectTimeoutKey));
    case Proxy => existing.SetProxy(Lookup(m, ProxyKey(id)), Lookup(m, ProxyUserKey(id)), Lookup(m, ProxyPasswordKey(id)));
  }

  /** The body of build() for one identifier: a fresh config with every item added in turn. */
  method BuildOne(id: string, m: map<string, string>) returns (cfg: TunnelConfig)
    ensures fresh(cfg)
    ensures Describes(cfg.Fields(), m, id)
  {
    cfg := new TunnelConfig();
    for k := 0 to |AllItems|
      invariant forall j :: 0 <= j < k ==> Applied(AllItems[j], id, m, cfg.Fields())
      invariant Tunnels !in AllItems[..k] ==> cfg.tunnels == []
    {
      var item := AllItems[k];
      assert AllItems[..k + 1] == AllItems[..k] + [item];
      ghost var before := cfg.tunnels;
      Add(item, id, m, cfg);
      if item == Tunnels {
        ghost var xs :| SubsetOf(xs, m, TunnelsKey(id)) && cfg.tunnels == before + xs;
        assert cfg.tunnels == xs;
      }
    }
    forall item ensures Applied(item, id, m, cfg.Fields()) {
      AllItemsListed(item);
    }
  }

  class TunnelConfigBuilder {
    const config: map<string, string>
    /** The TreeSet of identifiers, as its ascending iteration order. */
    var identifiers: seq<string>

    /** identifiers is the TreeSet of every identifier the map's keys carry, in ascending order. */
    ghost predicate Valid()
      reads this
    {
      && Sorted(identifiers)
      && (forall id :: id in identifiers <==> id in Identifiers(config.Keys))
    }

    /** new TunnelConfigBuilder(config): keeps the map and collects its identifiers. */
    constructor (config: map<string, string>)
      ensures Valid() && this.config == config
      ensures Sorted(identifiers)
      ensures forall id :: id in identifiers <==> id in Identifiers(config.Keys)
    {
      this.config := config;
      identifiers := [];
      new;
      BuildIdentifiers();
    }

    /**
     * buildIdentifiers(): walks the keys in the map's (unspecified) order
     * and adds every captured identifier to a TreeSet.
     */
    method BuildIdentifiers()
      modifies this
      ensures Valid()
      ensures Sorted(identifiers)
      ensures forall id :: id in identifiers <==> id in Identifiers(config.Keys)
    {
      identifiers := [];
      var remaining := config.Keys;
      while remaining != {}
        invariant remaining <= config.Keys
        invariant Sorted(identifiers)
        invariant forall id :: id in identifiers <==> id in Identifiers(config.Keys - remaining)
        decreases remaining
      {
        var key :| key in remaining;
        var done := config.Keys - remaining;
        match IdentifierOf(key) {
          case Some(id) =>
            InsertSorted(identifiers, id);
            identifiers := Insert(identifiers, id);
          case None =>
        }
        remaining := remaining - {key};
        assert config.Keys - remaining == done + {key};
      }
      assert config.Keys - remaining == config.Keys;
    }

    /** build(): one config per identifier, in ascending identifier order. */
    method Build() returns (result: seq<TunnelConfig>)
      requires Valid()
      ensures |result| == |identifiers|
      ensures forall i, j :: 0 <= i < j < |result| ==> Less(identifiers[i], identifiers[j])
      ensures forall id :: id in Identifiers(config.Keys) <==> exists i :: 0 <= i < |result| && identifiers[i] == id
      ensures forall i :: 0 <= i < |result| ==> fresh(result[i])
      ensures forall i, j :: 0 <= i < j < |result| ==> result[i] != result[j]
      ensures forall i :: 0 <= i < |result| ==> Describes(result[i].Fields(), config, identifiers[i])
    {
      result := [];
      for i := 0 to |identifiers|
        invariant |result| == i
        invariant forall j :: 0 <= j < i ==> fresh(result[j])
        invariant forall j, k :: 0 <= j < k < i ==> result[j] != result[k]
        invariant forall j :: 0 <= j < i ==> Describes(result[j].Fields(), config, identifiers[j])
      {
        var cfg := BuildOne(identifiers[i], config);
        result := result + [cfg];
      }
    }
  }

  /** Every built config has a host: the identifier came from its host key. */
  lemma HostAlwaysPresent(m: map<string, string>, id: string, f: ConfigFields)
    requires id in Identifiers(m.Keys) && Describes(f, m, id)
    ensures HostKey(id) in m && f.host == Some(m[HostKey(id)])
  {
    InIdentifiers(m.Keys, id);
    assert Applied(Host, id, m, f);
  }

  /** Two configs built from one map share the global connect timeout. */
  lemma SharedConnectTimeout(m: map<string, string>, id1: string, id2: string, f1: ConfigFields, f2: ConfigFields)
    requires Describes(f1, m, id1) && Describes(f2, m, id2)
    ensures f1.connectTimeoutSeconds == f2.connectTimeoutSeconds == ToLong(Lookup(m, ConnectTimeoutKey), 60)
  {
    assert Applied(ConnectTimeout, id1, m, f1);
    assert Applied(ConnectTimeout, id2, m, f2);
  }

  /** keepAlive is read per identifier, and is 60 when that identifier has no keepAlive key. */
  lemma KeepAliveDefault(m: map<string, string>, id: string, f: ConfigFields)
    requires Describes(f, m, id) && KeepAliveKey(id) !in m
    ensures f.keepAliveSeconds == 60
  {
    assert Applied(KeepAlive, id, m, f);
  }

  /** The string fields and the proxy fields are the map's values at the identifier's keys. */
  lemma DescribedFields(m: map<string, string>, id: string, f: ConfigFields)
    requires Describes(f, m, id)
    ensures f.host == Lookup(m, HostKey(id)) && f.user == Lookup(m, UserKey(id))
    ensures f.privateKeyFile == Lookup(m, PrivateKeyKey(id)) && f.privateKeyPassword == Lookup(m, PrivateKeyPasswordKey(id))
    ensures f.password == Lookup(m, PasswordKey(id))
    ensures f.proxy == Lookup(m, ProxyKey(id)) && f.proxyUser == Lookup(m, ProxyUserKey(id))
    ensures f.proxyPassword == Lookup(m, ProxyPasswordKey(id))
    ensures |f.tunnels| == |set k | k in m && TunnelsKey(id) <= k|
  {
    assert Applied(Host, id, m, f) && Applied(User, id, m, f) && Applied(PrivateKey, id, m, f);
    assert Applied(PrivateKeyPassword, id, m, f) && Applied(Password, id, m, f) && Applied(Proxy, id, m, f);
    assert Applied(Tunnels, id, m, f);
    SubsetSize(f.tunnels, m, TunnelsKey(id));
  }

  /**
   * The tunnel prefix of any identifier a is also a prefix of the host key of
   * identifier a + ".tunnel" + b, so the host of that second tunnel becomes
   * one of the forwards of a.
   */
  lemma TunnelPrefixOverlap(a: string, b: string)
    ensures TunnelsKey(a) <= HostKey(a + ".tunnel" + b)
  {
    assert HostKey(a + ".tunnel" + b) == TunnelsKey(a) + b + HostSuffix;
  }

  /** What the overlap does to build(): the config of a gets that host value as a forward. */
  lemma TunnelPrefixCapture(f: ConfigFields, m: map<string, string>, a: string, b: string)
    requires Describes(f, m, a)
    requires HostKey(a + ".tunnel" + b) in m
    ensures m[HostKey(a + ".tunnel" + b)] in f.tunnels
  {
    var key := HostKey(a + ".tunnel" + b);
    TunnelPrefixOverlap(a, b);
    assert Applied(Tunnels, a, m, f);
    var keys :| Enumerates(f.tunnels, keys, m, TunnelsKey(a));
    var i :| 0 <= i < |keys| && keys[i] == key;
    assert f.tunnels[i] == m[key];
  }
}
