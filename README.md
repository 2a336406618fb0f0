# SSH tunnel manager: a Dafny model

This project models the core of an SSH-tunnel manager. A flat key/value configuration is grouped into one `TunnelConfig` per tunnel identifier. Each `Tunnel` connects to its SSH server, installs its local-to-remote port forwards, and is then kept alive by a chain of scheduled tasks. A monitor re-arms itself while the session is connected. Otherwise it hands over to a retry task, which reconnects and restarts, or disconnects and re-arms itself.

The model has seven modules, one file each:

- `Wrappers` (`wrappers.dfy`): `Option` stands for a Java reference that may be null. `Result` stands for a call that may throw.
- `JavaStrings` (`java_strings.dfy`):
  - `String.split(":")`, which drops trailing empty fields and keeps a leading one. With no separator at all it returns the whole string.
  - `String.compareTo` as UTF-16 code-unit order. `TreeSet` iterates in this order.
  - `Character.isWhitespace` and `StringUtils.isBlank`.
  - The characters a regular-expression `.` refuses.
- `JavaNumbers` (`java_numbers.dfy`):
  - `Integer.parseInt` and `Long.parseLong`: an optional sign, then ASCII digits, within the 32- or 64-bit range.
  - `NumberUtils.toInt` and `toLong`: parse, else the default.
  - Decimal rendering of numbers, used only to state round trips.
- `Endpoints` (`endpoints.dfy`): the `HostPortPair` and `LocalRemotePortPair` parsers of `Tunnel.java`, with their exceptions as `ParseError`.
- `Config` (`tunnel_config.dfy`):
  - the mutable record `TunnelConfig` as a class, with its defaults, setters and fluent `with*` builders;
  - `buildProxy`, both as written and as evidently intended.
- `ConfigBuilder` (`config_builder.dfy`):
  - `TunnelConfigBuilder`, which collects identifiers from the host keys into a sorted sequence (the `TreeSet`);
  - `build`, which makes one config per identifier by applying every `ConfigItem` in turn;
  - `getSubset`, which walks a key set in an order the map leaves open.
- `Tunnels` (`tunnel.dfy`):
  - the `Tunnel` state machine over an explicit executor, the `Executor` class;
  - the scheduled tasks `Monitor` and `Retry`, and the worker step `RunNext`, which pops the job due first and runs it;
  - a ghost log of the calls made to the SSH library;
  - concrete scenarios: a healthy tunnel, and a tunnel that loses its session and recovers.

The SSH library (JSch) is not modelled as code. Every answer it can give is a parameter:

- for `getSession`: a session, or an exception;
- for the rest of `_connect`: whether it goes through;
- for `isConnected`: true or false;
- for each `setPortForwardingL` call: whether it throws;
- for `disconnect`: whether it throws.

`Environment` bundles these answers for one task run. `ExternalResolver.resolve` and `Password.decode` are function-typed parameters of `BuildProxy`.

Some behaviours of the code are easy to misread. The model keeps each of them as written:

- Forward pairs are parsed when `_start` runs, not when the configuration is built. A bad pair stops `_start`, and the forwards installed before it stay installed.
- `setKeepAliveSeconds` and `setConnectTimeoutSeconds` accept negative numbers as parsed.
- The tunnel-key prefix of identifier `a` is also a prefix of keys that belong to other identifiers (`TunnelPrefixOverlap`). So the host of tunnel `a.tunnel.b` becomes a forward of `a` (`TunnelPrefixCapture`).
- A monitor that runs while the session is null throws a `NullPointerException` and schedules nothing, so the chain of scheduled runs ends there. This can happen when `start` runs with no session and no forwards configured: no forward call throws, so a monitor is scheduled.
- `_connect` overwrites the session reference without disconnecting the old session.

## Model

| member | source | states |
|---|---|---|
| `JavaStrings.Split` | src/main/java/com/adaptris/management/ssh/Tunnel.java:159 | `String.split(":")`: the fields between separators with the trailing empty ones dropped, or the whole string when it holds no ':'. Its results are stated by `SplitEmpty`, `SplitHead`, `SplitTwoFields` and `SplitTrailingSeparator` |
| `JavaStrings.SplitEmpty` | src/main/java/com/adaptris/management/ssh/Tunnel.java:159 | `split(":")` yields no field exactly when the string is non-empty and made of ':' only |
| `JavaStrings.SplitHead` | src/main/java/com/adaptris/management/ssh/Tunnel.java:159-160 | the first field of `split(":")` is the prefix of the string up to the first ':', or the whole string when there is none |
| `JavaStrings.SplitTwoFields` | src/main/java/com/adaptris/management/ssh/Tunnel.java:180-183 | `"a:b" + rest`, with `b` non-empty and `rest` empty or starting with ':', splits into at least two fields whose first two are `a` and `b` |
| `JavaStrings.SplitTrailingSeparator` | src/main/java/com/adaptris/management/ssh/Tunnel.java:159 | a trailing ':' adds no field: `"a:"` splits into `[a]`, and `":"` into nothing |
| `JavaStrings.FieldsJoin` | src/main/java/com/adaptris/management/ssh/Tunnel.java:159 | the raw fields contain no ':' and joined with ':' give back the string |
| `JavaStrings.Less` | src/main/java/com/adaptris/management/ssh/TunnelConfigBuilder.java:125 | `a.compareTo(b) < 0`: the first differing UTF-16 code unit decides, and a proper prefix comes first. `LessIrreflexive`, `LessTransitive`, `LessTotal` and `LessAsymmetric` make it a strict total order |
| `JavaStrings.LessIrreflexive` | src/main/java/com/adaptris/management/ssh/TunnelConfigBuilder.java:125 | no string is below itself in `compareTo` order |
| `JavaStrings.LessTransitive` | src/main/java/com/adaptris/management/ssh/TunnelConfigBuilder.java:125 | `compareTo` order is transitive |
| `JavaStrings.LessTotal` | src/main/java/com/adaptris/management/ssh/TunnelConfigBuilder.java:125 | of two different strings one is below the other |
| `JavaStrings.LessAsymmetric` | src/main/java/com/adaptris/management/ssh/TunnelConfigBuilder.java:125 | two strings are never each below the other |
| `JavaStrings.CharRankInjective` | src/main/java/com/adaptris/management/ssh/TunnelConfigBuilder.java:125 | the code-unit rank that orders characters tells different characters apart |
| `JavaStrings.IsBlank` | src/main/java/com/adaptris/management/ssh/TunnelConfig.java:59-61 | `StringUtils.isBlank`: null, empty, or whitespace only by `Character.isWhitespace`; `BuildProxy`'s contract is stated in its terms |
| `JavaStrings.IsWhitespace` | src/main/java/com/adaptris/management/ssh/TunnelConfig.java:59-61 | `Character.isWhitespace`, on which `isBlank` rests: the Unicode space, line and paragraph separators except the no-break spaces, and the ASCII controls tab to carriage return and U+001C to U+001F |
| `JavaStrings.IsBlankConcat` | src/main/java/com/adaptris/management/ssh/TunnelConfig.java:59-61 | a concatenation is blank exactly when both of its parts are |
| `JavaStrings.IsLineTerminator` | src/main/java/com/adaptris/management/ssh/TunnelConfigBuilder.java:43 | the characters `.` refuses in that pattern (no DOTALL flag): `\n`, `\r`, U+0085, U+2028 and U+2029; an identifier holding one is not captured, by `IdentifierOfHostKey` |
| `JavaNumbers.ParseDecimal` | src/main/java/com/adaptris/management/ssh/Tunnel.java:182-183 | a parsed value lies within the type's range; `ParseDigits` and `ParseRejectsMalformed` together say what every input parses to |
| `JavaNumbers.ParseDigits` | src/main/java/com/adaptris/management/ssh/Tunnel.java:182-183 | an optional sign and one or more ASCII digits parse to the digits' value, negated after '-', exactly when it lies in range; out of range is `NumberFormatException` |
| `JavaNumbers.ParseRejectsMalformed` | src/main/java/com/adaptris/management/ssh/Tunnel.java:182-183 | every other input is refused: the empty string, a bare sign, and a sign (or none) followed by anything that is not all digits |
| `JavaNumbers.ParseInt` | src/main/java/com/adaptris/management/ssh/Tunnel.java:182-183 | `Integer.parseInt`: `ParseDecimal` within the 32-bit range, `None` for `NumberFormatException`; `ParseIntShow`, `ParseIntBounds`, `ParseIntRejects` and `ParseIntAccepts` state its results |
| `JavaNumbers.ParseShowOutOfRange` | src/main/java/com/adaptris/management/ssh/Tunnel.java:182-183 | the decimal form of a number outside the range never parses |
| `JavaNumbers.ParseIntBounds` | src/main/java/com/adaptris/management/ssh/Tunnel.java:182-183 | `"2147483648"` (MAX_VALUE + 1) is refused and `"-2147483648"` parses to MIN_VALUE |
| `JavaNumbers.ParseIntRejects` | src/main/java/com/adaptris/management/ssh/Tunnel.java:182-183 | `"12a"` and the bare sign `"-"` are refused |
| `JavaNumbers.ParseIntAccepts` | src/main/java/com/adaptris/management/ssh/Tunnel.java:182-183 | `"+5"` parses to 5 and `"007"` to 7 |
| `JavaNumbers.LeadingZeros` | src/main/java/com/adaptris/management/ssh/Tunnel.java:182-183 | leading zeros do not change the value of a digit string |
| `JavaNumbers.DigitsLeadingZero` | src/main/java/com/adaptris/management/ssh/Tunnel.java:182-183 | one leading zero does not change the value of a digit string |
| `JavaNumbers.ParseIntShow` | src/main/java/com/adaptris/management/ssh/Tunnel.java:182-183 | `Integer.parseInt` reads back the decimal form of every 32-bit int |
| `JavaNumbers.ToInt` | src/main/java/com/adaptris/management/ssh/Tunnel.java:162 | `NumberUtils.toInt(s, d)`: `d` for null or text that does not parse, else the parsed int; `HostWithNumericPort` and `HostWithBadPort` state both cases |
| `JavaNumbers.ParseLong` | src/main/java/com/adaptris/management/ssh/TunnelConfig.java:168 | `Long.parseLong`, as called by `toLong`: `ParseDecimal` within the 64-bit range, `None` for `NumberFormatException`; `ToLongShow` states its round trip |
| `JavaNumbers.ToLong` | src/main/java/com/adaptris/management/ssh/TunnelConfig.java:167-177 | `NumberUtils.toLong(s, d)`, the same for longs; `ToLongShow` states the round trip |
| `JavaNumbers.ToLongShow` | src/main/java/com/adaptris/management/ssh/TunnelConfig.java:167-177 | `NumberUtils.toLong` of the decimal form of any long is that long, negatives included, whatever the default |
| `JavaNumbers.ParseRejectsNonNumeric` | src/main/java/com/adaptris/management/ssh/Tunnel.java:162 | a string starting with a character that is neither a digit nor a sign does not parse, so `toInt` falls back to its default |
| `JavaNumbers.NaturalValue` | src/main/java/com/adaptris/management/ssh/Tunnel.java:182-183 | the digits rendered for a natural number have that number as their decimal value |
| `Endpoints.HostPortPair` | src/main/java/com/adaptris/management/ssh/Tunnel.java:154-164 | `new HostPortPair(s)`: host from the first field, port `toInt(second field, 22)` or 22; its results are stated by `HostIsTextBeforeFirstColon` and the `HostWith*` lemmas |
| `Endpoints.HostIsTextBeforeFirstColon` | src/main/java/com/adaptris/management/ssh/Tunnel.java:158-164 | `HostPortPair` throws (index out of bounds) exactly on a non-empty string of ':' only; otherwise the host is the text before the first ':' |
| `Endpoints.HostWithoutPort` | src/main/java/com/adaptris/management/ssh/Tunnel.java:156-164 | a string without ':' is the host, and the port is 22 |
| `Endpoints.HostWithEmptyPort` | src/main/java/com/adaptris/management/ssh/Tunnel.java:156-164 | `"host:"` has one field after the split, so the port is 22 |
| `Endpoints.HostWithPortField` | src/main/java/com/adaptris/management/ssh/Tunnel.java:158-164 | with a second field `p` the port is `toInt(p, 22)`, and any later fields are ignored |
| `Endpoints.HostWithNumericPort` | src/main/java/com/adaptris/management/ssh/Tunnel.java:158-164 | `"h:" + n` gives host `h` and port `n` for every int `n` |
| `Endpoints.HostWithBadPort` | src/main/java/com/adaptris/management/ssh/Tunnel.java:162 | a port field that does not parse gives port 22 |
| `Endpoints.LocalRemotePortPair` | src/main/java/com/adaptris/management/ssh/Tunnel.java:175-185 | `new LocalRemotePortPair(s)`: with two or more fields both ports by `Integer.parseInt`, else both null; stated by `PortPairRoundTrip`, `PortPairSingleField` and `PortPairBadField` |
| `Endpoints.GetLocalPort` | src/main/java/com/adaptris/management/ssh/Tunnel.java:187-192 | `getLocalPort`: the local port, or `IllegalArgumentException` when it is null; `Forward` and `PortPairSingleField` state its use |
| `Endpoints.GetRemotePort` | src/main/java/com/adaptris/management/ssh/Tunnel.java:194-199 | `getRemotePort`: the same for the remote port |
| `Endpoints.Forward` | src/main/java/com/adaptris/management/ssh/Tunnel.java:179-199 | a pair yields a forward exactly when construction and both getters return normally, and the forward holds the two getters' values |
| `Endpoints.PortPairRoundTrip` | src/main/java/com/adaptris/management/ssh/Tunnel.java:179-185 | `L + ":" + R + rest` parses back to local `L` and remote `R` for all ints; fields after the second are ignored |
| `Endpoints.PortPairSingleField` | src/main/java/com/adaptris/management/ssh/Tunnel.java:179-199 | with fewer than two fields construction succeeds with both ports unset, and both getters throw `IllegalArgumentException` |
| `Endpoints.PortPairBadField` | src/main/java/com/adaptris/management/ssh/Tunnel.java:181-184 | when either of two fields is not an int, construction throws `NumberFormatException` |
| `Endpoints.HostPortDefaultExample` | src/test/java/com/adaptris/management/ssh/TunnelTest.java:31-33 | `"localhost"` gives host `localhost`, port 22 |
| `Endpoints.HostPortNumericExample` | src/test/java/com/adaptris/management/ssh/TunnelTest.java:34-36 | `"localhost:4444"` gives host `localhost`, port 4444 |
| `Endpoints.PortPairExample` | src/test/java/com/adaptris/management/ssh/TunnelTest.java:42-44 | `"4444:5555"` gives local 4444 and remote 5555 |
| `Endpoints.PortPairMissingExample` | src/test/java/com/adaptris/management/ssh/TunnelTest.java:45-57 | `"localhost"` yields no forward: the getters throw |
| `Endpoints.PortPairNumberFormatExample` | src/test/java/com/adaptris/management/ssh/TunnelTest.java:58 | `"localhost:localhost"` throws `NumberFormatException` |
| `Config.TunnelConfig.constructor` | src/main/java/com/adaptris/management/ssh/TunnelConfig.java:35-52 | a fresh config has null strings, no forwards, keep-alive 60 and connect timeout 60 |
| `Config.TunnelConfig.SetHost` | src/main/java/com/adaptris/management/ssh/TunnelConfig.java:117-119 | stores the host; every other field is unchanged |
| `Config.TunnelConfig.WithHost` | src/main/java/com/adaptris/management/ssh/TunnelConfig.java:68-71 | stores the host and returns the same object; every other field is unchanged |
| `Config.TunnelConfig.SetTunnels` | src/main/java/com/adaptris/management/ssh/TunnelConfig.java:125-129 | appends the given pairs in order after the existing ones; every other field is unchanged |
| `Config.TunnelConfig.WithTunnels` | src/main/java/com/adaptris/management/ssh/TunnelConfig.java:73-76 | appends the pairs and returns the same object |
| `Config.TunnelConfig.SetUser` | src/main/java/com/adaptris/management/ssh/TunnelConfig.java:135-137 | stores the user; every other field is unchanged |
| `Config.TunnelConfig.WithUser` | src/main/java/com/adaptris/management/ssh/TunnelConfig.java:78-81 | stores the user and returns the same object |
| `Config.TunnelConfig.SetPrivateKeyFile` | src/main/java/com/adaptris/management/ssh/TunnelConfig.java:143-145 | stores the key file; every other field is unchanged |
| `Config.TunnelConfig.WithPrivateKeyFile` | src/main/java/com/adaptris/management/ssh/TunnelConfig.java:83-86 | stores the key file and returns the same object |
| `Config.TunnelConfig.SetPrivateKeyPassword` | src/main/java/com/adaptris/management/ssh/TunnelConfig.java:151-153 | stores the key password; every other field is unchanged |
| `Config.TunnelConfig.WithPrivateKeyPassword` | src/main/java/com/adaptris/management/ssh/TunnelConfig.java:88-91 | stores the key password and returns the same object |
| `Config.TunnelConfig.SetPassword` | src/main/java/com/adaptris/management/ssh/TunnelConfig.java:159-161 | stores the password; every other field is unchanged |
| `Config.TunnelConfig.WithPassword` | src/main/java/com/adaptris/management/ssh/TunnelConfig.java:93-96 | stores the password and returns the same object |
| `Config.TunnelConfig.WithKeepAliveSeconds` | src/main/java/com/adaptris/management/ssh/TunnelConfig.java:98-101 | stores the number unchanged, with no default substitution |
| `Config.TunnelConfig.SetKeepAliveSeconds` | src/main/java/com/adaptris/management/ssh/TunnelConfig.java:167-169 | stores the parsed long, or 60 for null or unparsable text |
| `Config.TunnelConfig.WithConnectTimeout` | src/main/java/com/adaptris/management/ssh/TunnelConfig.java:108-111 | stores the number unchanged |
| `Config.TunnelConfig.SetConnectTimeoutSeconds` | src/main/java/com/adaptris/management/ssh/TunnelConfig.java:175-177 | stores the parsed long, or 60 for null or unparsable text |
| `Config.TunnelConfig.SetProxy` | src/main/java/com/adaptris/management/ssh/TunnelConfig.java:179-183 | stores exactly the three proxy values; every other field is unchanged |
| `Config.TunnelConfig.WithProxy` | src/main/java/com/adaptris/management/ssh/TunnelConfig.java:103-106 | stores the three proxy values and returns the same object |
| `Config.TunnelConfig.BuildProxy` | src/main/java/com/adaptris/management/ssh/TunnelConfig.java:54-66 | no proxy iff the resolved host is blank. Otherwise an HTTP proxy on that host, which carries the resolved user and decoded password iff the resolved user IS blank. A decode failure propagates only on that branch. |
| `Config.TunnelConfig.BuildProxyIntended` | src/main/java/com/adaptris/management/ssh/TunnelConfig.java:54-66 | the same, with credentials attached iff the resolved user is NOT blank |
| `Config.BuildProxyDropsNamedUser` | src/main/java/com/adaptris/management/ssh/TunnelConfig.java:61-62 | with user "user" and password "password", the code as written builds a proxy without credentials, and the intended version builds one with those credentials |
| `Config.BuildProxyScenario` | src/test/java/com/adaptris/management/ssh/TunnelConfigTest.java:40-46 | a fresh config builds no proxy; a proxy host with any mix of null and non-null user and password builds a proxy |
| `Config.WithScenario` | src/test/java/com/adaptris/management/ssh/TunnelConfigTest.java:48-97 | a fresh config holds the defaults; after the chained `with*` calls and `setConnectTimeoutSeconds("90")`, every field holds the value given |
| `ConfigBuilder.Lookup` | src/main/java/com/adaptris/management/ssh/TunnelConfigBuilder.java:56 | `Map.get`: the value at the key, or null when the key is absent; `DescribedFields` states each field in its terms |
| `ConfigBuilder.IdentifierOf` | src/main/java/com/adaptris/management/ssh/TunnelConfigBuilder.java:43 | the group that `^sshtunnel\.tunnel\.(.*)\.host$` captures from a key, or none; `IdentifierOfHostKey` states when it matches |
| `ConfigBuilder.IdentifierOfHostKey` | src/main/java/com/adaptris/management/ssh/TunnelConfigBuilder.java:43 | the pattern captures `id` from a key iff the key is `"sshtunnel.tunnel." + id + ".host"` and `id` has no line terminator |
| `ConfigBuilder.InIdentifiers` | src/main/java/com/adaptris/management/ssh/TunnelConfigBuilder.java:124-132 | `id` is an identifier iff its host key is in the map; no other key contributes one |
| `ConfigBuilder.SortedDistinct` | src/main/java/com/adaptris/management/ssh/TunnelConfigBuilder.java:125 | a sequence ascending in `compareTo` order has no duplicates |
| `ConfigBuilder.Insert` | src/main/java/com/adaptris/management/ssh/TunnelConfigBuilder.java:129 | `TreeSet.add`: the string is placed in ascending order and a duplicate is dropped; `InsertSorted` states it |
| `ConfigBuilder.InsertSorted` | src/main/java/com/adaptris/management/ssh/TunnelConfigBuilder.java:125-129 | `TreeSet.add` keeps the sequence ascending and adds exactly the new element |
| `ConfigBuilder.GetSubset` | src/main/java/com/adaptris/management/ssh/TunnelConfigBuilder.java:146-154 | the result lists, in some order of distinct keys, the value of every key starting with the prefix, and nothing else |
| `ConfigBuilder.DistinctCount` | src/main/java/com/adaptris/management/ssh/TunnelConfigBuilder.java:146-154 | a duplicate-free listing of a set is as long as the set |
| `ConfigBuilder.SubsetSize` | src/main/java/com/adaptris/management/ssh/TunnelConfigBuilder.java:146-154 | `getSubset` returns one value per key with the prefix |
| `ConfigBuilder.AllItemsListed` | src/main/java/com/adaptris/management/ssh/TunnelConfigBuilder.java:50-113 | `ConfigItem.values()` lists every item |
| `ConfigBuilder.Add` | src/main/java/com/adaptris/management/ssh/TunnelConfigBuilder.java:50-113 | each item sets exactly its own field or fields, and every other field of the config keeps its value. Host, user, key file, key password and password get `Map.get` of the identifier's key. Keep-alive gets that key parsed, with default 60. The connect timeout gets the single global key, with default 60. Proxy gets its three keys. Tunnels appends, after the existing forwards, the values of the keys with the identifier's tunnel prefix. |
| `ConfigBuilder.BuildOne` | src/main/java/com/adaptris/management/ssh/TunnelConfigBuilder.java:137-141 | a fresh config with every item applied for the identifier |
| `ConfigBuilder.TunnelConfigBuilder.constructor` | src/main/java/com/adaptris/management/ssh/TunnelConfigBuilder.java:119-122 | keeps the map and establishes `Valid`: the identifiers are ascending and are exactly the identifiers of the map's keys |
| `ConfigBuilder.TunnelConfigBuilder.Valid` | src/main/java/com/adaptris/management/ssh/TunnelConfigBuilder.java:124-132 | the `TreeSet` invariant: ascending, and holding exactly the identifiers of the map's keys |
| `ConfigBuilder.TunnelConfigBuilder.BuildIdentifiers` | src/main/java/com/adaptris/management/ssh/TunnelConfigBuilder.java:124-132 | after a walk of the keys in any order, the identifiers are ascending and are exactly those of the keys |
| `ConfigBuilder.TunnelConfigBuilder.Build` | src/main/java/com/adaptris/management/ssh/TunnelConfigBuilder.java:134-144 | one fresh, distinct config per identifier, in ascending identifier order, covering every identifier of the map, each described by the map at that identifier |
| `ConfigBuilder.HostAlwaysPresent` | src/main/java/com/adaptris/management/ssh/TunnelConfigBuilder.java:56 | every built config has the (non-null) host value of its host key |
| `ConfigBuilder.SharedConnectTimeout` | src/main/java/com/adaptris/management/ssh/TunnelConfigBuilder.java:97-102 | any two configs from one map have the same connect timeout, read from the single global key with default 60 |
| `ConfigBuilder.KeepAliveDefault` | src/main/java/com/adaptris/management/ssh/TunnelConfigBuilder.java:94 | keep-alive is 60 when the identifier has no keep-alive key |
| `ConfigBuilder.DescribedFields` | src/main/java/com/adaptris/management/ssh/TunnelConfigBuilder.java:56-108 | host, user, key file, key password, password and the three proxy fields are the map's values at the identifier's keys (null when absent); there is one forward per key with the tunnel prefix |
| `ConfigBuilder.TunnelPrefixOverlap` | src/main/java/com/adaptris/management/ssh/TunnelConfigBuilder.java:31-32 | for all `a` and `b`, the tunnel prefix of identifier `a` is a prefix of the host key of identifier `a + ".tunnel" + b` |
| `ConfigBuilder.TunnelPrefixCapture` | src/main/java/com/adaptris/management/ssh/TunnelConfigBuilder.java:146-154 | so when that host key is in the map, its value is among the forwards built for `a` |
| `ConfigBuilder.TwoIdentifiersInOrder` | src/test/java/com/adaptris/management/ssh/SshTunnelConfigBuilderTest.java:34-47 | when a map's only host keys are those of `a` and `b`, with `a` before `b`, the builder visits exactly `a`, then `b` |
| `ConfigBuilder.ExampleIdentifierOrder` | src/test/java/com/adaptris/management/ssh/SshTunnelConfigBuilderTest.java:61-72 | `myIdentifier` comes before `myOtherIdentifier` |
| `Tunnels.LiveJobsAppend` | src/main/java/com/adaptris/management/ssh/Tunnel.java:110-112 | a job scheduled behind the queue is live after the earlier live jobs unless it is cancelled |
| `Tunnels.LiveJobsAllCancelled` | src/main/java/com/adaptris/management/ssh/Tunnel.java:67-70 | once every queued future is cancelled, nothing is left to run |
| `Tunnels.LiveJobsBound` | src/main/java/com/adaptris/management/ssh/Tunnel.java:130-139 | the live jobs are uncancelled jobs of the queue and never outnumber it |
| `Tunnels.Executor.constructor` | src/main/java/com/adaptris/management/ssh/SshTunnelComponent.java:47 | a new single-worker executor has no queued jobs, no cancelled futures and has issued none |
| `Tunnels.Executor.Schedule` | src/main/java/com/adaptris/management/ssh/Tunnel.java:111 | `schedule` returns a new future and queues exactly one job for it with the given delay |
| `Tunnels.Executor.Cancel` | src/main/java/com/adaptris/management/ssh/Tunnel.java:69 | `cancel` marks the future cancelled and leaves the queue as it is |
| `Tunnels.Executor.Take` | src/main/java/com/adaptris/management/ssh/SshTunnelComponent.java:47 | the single worker takes the job that falls due first, which leaves the queue; an empty queue yields nothing |
| `Tunnels.PortPairsAt` | src/main/java/com/adaptris/management/ssh/Tunnel.java:90-92 | the i-th forward requested is what the i-th configured pair parses to |
| `Tunnels.Installed` | src/main/java/com/adaptris/management/ssh/Tunnel.java:90-94 | the count of installed forwards: every earlier one succeeded and the next one, if any, throws |
| `Tunnels.InstalledIsFirstFailure` | src/main/java/com/adaptris/management/ssh/Tunnel.java:90-94 | any index whose predecessors succeed and which fails, or is the length, is that count |
| `Tunnels.Endpoint` | src/main/java/com/adaptris/management/ssh/Tunnel.java:76 | `new HostPortPair(config.getHost())` in `_connect`: a null host throws a `NullPointerException` and an all-':' host throws, both as `None`; otherwise the parsed host and port, which `Connect` opens the session on |
| `Tunnels.Tunnel.constructor` | src/main/java/com/adaptris/management/ssh/Tunnel.java:49-55 | a new tunnel has no session, no registered futures and nothing to run |
| `Tunnels.Tunnel.ScheduleNextRun` | src/main/java/com/adaptris/management/ssh/Tunnel.java:110-112 | exactly one new job, 60 s ahead and live, whose future joins `tunnelMonitors`; session and library calls are unchanged |
| `Tunnels.Tunnel.Connect` | src/main/java/com/adaptris/management/ssh/Tunnel.java:75-87 | a null or unparsable host, or a failing `getSession`, leaves the session unchanged and fails. Otherwise the new session replaces the old, one open call is logged on the parsed host and port, and the result is whether connect went through. |
| `Tunnels.Tunnel.ForwardAt` | src/main/java/com/adaptris/management/ssh/Tunnel.java:91-93 | one pass of the forward loop succeeds iff the pair parses, the session exists and the library accepts it; only then is a forward call logged |
| `Tunnels.Tunnel.InstallForwards` | src/main/java/com/adaptris/management/ssh/Tunnel.java:90-94 | the forwards up to the first failing pair are issued in list order on the session; the later pairs are not |
| `Tunnels.Tunnel.Start` | src/main/java/com/adaptris/management/ssh/Tunnel.java:89-96 | forwards are installed as above. When all succeed, exactly one monitor is scheduled 60 s ahead and registered. When one throws, the earlier forwards stay and nothing is scheduled or registered. |
| `Tunnels.Tunnel.StopQuietly` | src/main/java/com/adaptris/management/ssh/Tunnel.java:98-108 | an absent session stays absent with no call. A present one is disconnected and cleared only when disconnect returns normally; a throwing disconnect is swallowed and the session is kept. |
| `Tunnels.Tunnel.Stop` | src/main/java/com/adaptris/management/ssh/Tunnel.java:67-73 | every future ever registered is cancelled, so nothing is left to run, then as `StopQuietly`; a second stop only cancels again |
| `Tunnels.Tunnel.RunMonitor` | src/main/java/com/adaptris/management/ssh/Tunnel.java:114-125 | on a present session exactly one successor is scheduled: a monitor if connected, else a retry. Its future joins `tunnelMonitors`, whose earlier entries stay. On a null session the run throws and schedules and registers nothing. |
| `Tunnels.Tunnel.Reconnect` | src/main/java/com/adaptris/management/ssh/Tunnel.java:131-136 | the `try` of `TunnelRetry.run`: `_connect`, then `_start`, and `_stopQuietly` when either throws. Its library calls and final session are as `RetryOutcome`; it succeeds exactly as `RetrySucceeds`, and then a monitor is scheduled |
| `Tunnels.RetryNotConnected` | src/main/java/com/adaptris/management/ssh/Tunnel.java:131-136 | when `_connect` throws, the calls are the open of the new session if one was created, then the quiet stop of whichever session is current, which is the old one when `getSession` throws |
| `Tunnels.RetryConnected` | src/main/java/com/adaptris/management/ssh/Tunnel.java:131-136 | when `_connect` returns, the open call comes first, then the forwards installed on the new session; unless all succeed, the new session is disconnected and the old one never is |
| `Tunnels.Tunnel.RunRetry` | src/main/java/com/adaptris/management/ssh/Tunnel.java:127-140 | exactly one successor: a monitor when connect and start both succeed, else the retry again. Its future joins `tunnelMonitors`, whose earlier entries stay. The calls and session per path are as `RetryOutcome`. If `getSession` throws, the old session is disconnected. If the session is created but connect or start throws: open, the forwards installed, then disconnect of the new session. On success: open and every forward on the new session. A throwing disconnect leaves the current session in place. |
| `Tunnels.Tunnel.RunNext` | src/main/java/com/adaptris/management/ssh/Tunnel.java:114-140 | the job due first is dropped if cancelled, else its task runs. The number of live jobs never grows, and a task replaces itself by exactly its one successor. Each new future joins `tunnelMonitors` and no registration is dropped, so `Stop` still reaches every future ever registered. A retry that runs leaves the calls and session stated by `RetryOutcome`. |
| `Tunnels.ScenarioConfig` | src/main/java/com/adaptris/management/ssh/TunnelConfig.java:117-129 | a fresh config with the given host and the one given pair |
| `Tunnels.PairInstalls` | src/main/java/com/adaptris/management/ssh/Tunnel.java:90-94 | the pair `4444:5555` is installed on any session the library accepts it on |
| `Tunnels.StartedTunnel` | src/main/java/com/adaptris/management/ssh/Tunnel.java:57-96 | connecting to `localhost:4444` and starting with pair `4444:5555` leaves session 1 and exactly one live monitor |
| `Tunnels.MonitorScenario` | src/main/java/com/adaptris/management/ssh/Tunnel.java:114-125 | a monitor that finds the session alive re-arms itself, and the next, finding it dead, hands over to a retry |
| `Tunnels.FailedRetryTunnel` | src/main/java/com/adaptris/management/ssh/Tunnel.java:127-140 | a retry whose `getSession` throws disconnects the old session and re-arms itself |
| `Tunnels.RecoveredTunnel` | src/main/java/com/adaptris/management/ssh/Tunnel.java:127-140 | a retry that reconnects on session 2 and starts hands over to a monitor |
| `Tunnels.RecoveryScenario` | src/main/java/com/adaptris/management/ssh/Tunnel.java:67-140 | after that recovery, `stop` disconnects the session, and the monitor left in the queue is skipped when it falls due |

## Left out

- JSch is not modelled, because it is a foreign library. `getSession`, `setProxy`, `setUserInfo`, `connect`, `setPortForwardingL`, `isConnected` and `disconnect` are outcomes chosen by the caller. A failing `buildProxy` or `Password.decode` inside `_connect` is folded into the `connects` answer.
- `addIdentity` and `Tunnel.StaticPassword` (src/main/java/com/adaptris/management/ssh/Tunnel.java:54, 142-152, 202 onward) are left out: they only pass keys and passwords to JSch. `Tunnels.Tunnel.constructor` therefore never throws.
- `ExternalResolver.resolve` and `Password.decode` are foreign calls. They are the parameters `resolve` and `decode` of `BuildProxy`.
- Threads are not modelled, because they are concurrency. This covers `ScheduledExecutorService` threads, interruption by `cancel(true)`, and races between `stop` and a running task. `RunNext` runs one job at a time. The code has no stopped flag, so a task already running during `stop` can still re-arm; the sequential model cannot show this.
- Each `Tunnel` has its own `Executor`, its share of the shared single worker. Jobs of different tunnels never interleave in the model.
- The executor's 60-second delay is kept as a number, with no clock. The queue is first in, first out, which is the due order because every delay is the same.
- Rejection of `schedule` after the executor shuts down is left out, because `SshTunnelComponent` is not part of this model.
- The `WeakHashMap` behind `tunnelMonitors` is a plain set of every future ever registered. Removal by the garbage collector cannot be modelled.
- The seconds-to-milliseconds conversion with `intValue` truncation (src/main/java/com/adaptris/management/ssh/Tunnel.java:81, 84) only feeds JSch setters, so it is left out.
- `ProxyHTTP`'s own parsing of "host:port" belongs to JSch. `BuildProxy` keeps the resolved host string.
- `SshTunnelComponent` and `PropertyHelper.asMap` (the conversion from `Properties` to `Map`) are not part of this model. They are lifecycle glue around the `Tunnel` and builder operations modelled here.
- Logging is left out. Its argument evaluation is left out too: the getters in the trace call at src/main/java/com/adaptris/management/ssh/Tunnel.java:92 are folded into `Endpoints.Forward`.
- `JavaNumbers.ParseDecimal` accepts ASCII digits only. `Integer.parseInt` also accepts other Unicode decimal digits, and those are left out.
- `JavaStrings.IsWhitespace` leaves out U+180E, which is whitespace only in old Unicode versions.
- `Config.TunnelConfig.SetTunnels` takes a value sequence. Passing the config's own live list, which would alias it, is not modelled.
- `ConfigBuilder.TunnelConfigBuilder.constructor` takes a `Map`. The `Properties` overload is not modelled.
- The builder's end-to-end example is not replayed on its literal 15-key map. Its claims follow from `Build` with `DescribedFields`, `SharedConnectTimeout`, `KeepAliveDefault` and `TwoIdentifiersInOrder`/`ExampleIdentifierOrder`.

## Findings

| source | as written | input that shows it | evidently intended | confidence | as-written member | corrected member |
|---|---|---|---|---|---|---|
| src/main/java/com/adaptris/management/ssh/TunnelConfig.java:61-62 | credentials are set on the proxy only when the resolved proxy user is blank | proxy "proxy:3128", user "user", password "password": the proxy gets no credentials; with a null user, it gets a null user | credentials set when the user is not blank | high, not executed | `Config.TunnelConfig.BuildProxy` with `Config.BuildProxyDropsNamedUser` | `Config.TunnelConfig.BuildProxyIntended` |
