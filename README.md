# VLESS link to Xray configuration — a Dafny model

`startobhod.py` turns a single `vless://` link into a configuration for the Xray proxy
engine and starts the engine with it. This project models the two functions that do the
work:

- `parse_vless_url` reads `vless://<uuid>@<host>:<port>[?<query>]` into a connection
  descriptor with twelve fields (`uuid`, `host`, `port` and nine query-driven fields with
  defaults), or raises one of four `ValueError`s;
- `generate_xray_config` builds the engine configuration for a descriptor: one local
  SOCKS inbound, the VLESS proxy outbound and a DNS outbound, one routing rule that sends
  DNS traffic to the DNS outbound, and stream settings that gain `realitySettings`,
  `tlsSettings` and `wsSettings` depending on the descriptor.

Both are pure computations and are modelled as functions. The Python dictionaries become
datatypes; `generate_xray_config`'s in-place additions to `streamSettings` become record
updates on optional fields (`None` standing for an absent key).

Modules, one per file:

- `Wrappers` (`wrappers.dfy`): `Option` and `Result`.
- `Text` (`text.dfy`): the string operations the parser uses. These are `startswith`,
  `split(c, 1)`, `rsplit(c, 1)`, splitting on `&`, and decimal port conversion, each with
  its defining properties.
- `Query` (`query.dfy`): `urllib.parse.parse_qs(query, keep_blank_values=True)` followed
  by the lookup helper `g`. The dictionary of lists is kept as the ordered list of
  `(name, value)` pairs it is built from, so "the first value for a key" is the value of
  the first pair with that name.
- `VlessLink` (`vless_link.dfy`): `parse_vless_url`. Each failed check is a `ParseError`
  variant, and the query key `type` is the descriptor field `transport`, since `type` is
  a keyword in Dafny.
- `XrayConfig` (`xray_config.dfy`): `generate_xray_config`.
- `Pipeline` (`pipeline.dfy`): properties of the two stages together.

The decoding that `parse_qs` applies to names and values is a parameter
`decode: string -> string`. Properties that read values back require `KeepsPlain(decode)`,
which says that decoding leaves a string without `%` and `+` unchanged.
Percent-decoding (section 2.1 of RFC 3986) and the `+`-to-space rule of
`application/x-www-form-urlencoded` both satisfy this.

Behaviour of the code that the model keeps:

- A missing port separator raises its own `ValueError` (`startobhod.py:23-24`), so the
  model has four error variants: `SchemeError`, `FormatError`, `MissingPort` and
  `InvalidPort`.
- The code does not check the host or the uuid for emptiness: `vless://@:1` is accepted.
- The code tests for `@` in everything after the scheme, query included, before it cuts
  off the query. A link with no `@` before the query but one inside it therefore passes
  the `@` check, its uuid runs up to that `@`, and the address and port are read from the
  text after it (`VlessLink.ParseUrl`).

## Model

| member | source | states |
|---|---|---|
| Text.SplitFirst | startobhod.py:15 | `split(c, 1)`: no result exactly when `c` is absent; otherwise the input is the first part, `c`, the second part, and the first part has no `c` |
| Text.SplitFirstAt | startobhod.py:15-19 | splitting `a + c + b` at the first `c`, where `a` has no `c`, gives back exactly `a` and `b` |
| Text.SplitLast | startobhod.py:25 | `rsplit(c, 1)`: no result exactly when `c` is absent; otherwise the input is the two parts joined by `c`, and the second part has no `c` |
| Text.SplitLastAt | startobhod.py:25 | splitting `a + c + b` at the last `c`, where `b` has no `c`, gives back exactly `a` and `b`, whatever `a` contains |
| Text.FirstIndex | startobhod.py:15 | the position found holds `c` and no earlier position does; none is found exactly when `c` is absent |
| Text.LastIndex | startobhod.py:25 | the position found holds `c` and no later position does; none is found exactly when `c` is absent |
| Text.Split | startobhod.py:28 | splitting on `&` yields at least one piece, no piece contains `&`, and joining the pieces with `&` gives back the input |
| Text.SplitJoin | startobhod.py:28 | splitting the `&`-join of `&`-free pieces gives back exactly those pieces |
| Text.ParseDecimal | startobhod.py:26 | the port conversion succeeds exactly on non-empty strings of decimal digits |
| Text.ShowNat | startobhod.py:26 | every number has a decimal spelling that the port conversion accepts |
| Text.ParseDecimalShowNat | startobhod.py:26 | converting the decimal spelling of `n` gives `n` |
| Query.ParseSegments | startobhod.py:28 | every segment gives at most one pair, so there are never more pairs than segments |
| Query.ParseSegmentsSkipsEmpty | startobhod.py:28 | an empty segment, as between the two `&` of `a=1&&b=2`, contributes no pair: removing it changes nothing |
| Query.ParsePairBlank | startobhod.py:28 | any segment without `=`, such as `sni` or `s%6Ei`, is its decoded name with a blank value, kept because blank values are kept |
| Query.ParsePair | startobhod.py:28 | one segment of `parse_qs`, cut at its first `=`; pinned by `Query.ParsePairAt` (`name=value` gives the decoded name and value) and `Query.ParsePairBlank` (no `=` gives a blank value) |
| Query.ParseQuery | startobhod.py:28 | `parse_qs` with decoding as a parameter, as the ordered pairs; pinned by `Query.ParseQueryEncode` (an encoded query reads back to its pairs), `Query.ParseSegmentsSkipsEmpty` (empty segments add nothing) and `Query.ParseQueryEmpty` (no query, no pairs) |
| VlessLink.BareSniKept | startobhod.py:28-39 | a link with the query `sni` (no `=`) has a blank server name, not the host |
| Query.KeyIndex | startobhod.py:29 | the position of the first pair for a key: it names the key, no earlier pair does, and there is none exactly when no pair names the key |
| Query.Get | startobhod.py:29 | `g(k, d)`: the default when no pair names `k`, otherwise the value of the first pair that does |
| Query.GetDistinct | startobhod.py:29 | when keys are distinct, looking up the key of pair `i` gives that pair's value |
| Query.GetFirstWins | startobhod.py:28-29 | once a key has been given, later pairs for it change nothing: the first occurrence wins |
| Query.GetSkipsOthers | startobhod.py:28-29 | pairs for other keys in front do not change the value looked up for a key |
| Query.ParsePairAt | startobhod.py:28 | a segment `name=value` with an `=`-free name is cut at its first `=` into the decoded name and value; the value may contain `=` |
| Query.ParseSegmentsOfPairs | startobhod.py:28 | segments written as `name=value` parse back to exactly those pairs, in order |
| Query.ParseQueryEncode | startobhod.py:28 | an `&`-joined query of `name=value` segments parses back to exactly its pairs, in order, blank values kept as blank |
| Query.ParseQueryEmpty | startobhod.py:18-28 | a link without a query has no pairs, so every field takes its default |
| Text.StartsWith | startobhod.py:10 | `startswith`: the prefix test whose failure gives the scheme error, as the first `ensures` of `VlessLink.ParseVlessUrl` states |
| VlessLink.Fill | startobhod.py:29-43 | the dictionary of `g` calls; pinned by `VlessLink.FillDefaults` (no read key gives every default, `sni` the host), `VlessLink.FillIgnoresUnrecognised` (other keys change nothing) and `VlessLink.FillQueryPairs` (a descriptor's own nine pairs give it back) |
| VlessLink.ParseVlessUrl | startobhod.py:9-16 | a link not starting with `vless://` fails with the scheme error; one with no `@` after the scheme fails with the format error; an accepted link starts with `vless://`, then the uuid and `@`, and its uuid has no `@` |
| VlessLink.ParseUrl | startobhod.py:12-16 | after the scheme, no `@` means the format error; otherwise the uuid is exactly the text before the first `@` |
| VlessLink.CutQuery | startobhod.py:18-21 | the host-port part has no `?`; with a `?` the rest is host-port, `?`, query; without one the query is empty |
| VlessLink.ParseAddress | startobhod.py:18-24 | the port error is raised exactly when the part before the first `?` has no `:`; an accepted address keeps the uuid |
| VlessLink.ParseAfterUuid | startobhod.py:12-16 | behind `vless://`, an `@`-free uuid and `@`, the parse is the parse of the address part |
| VlessLink.CutQueryAt | startobhod.py:18-21 | a `?`-free host-port followed by `?query` is cut into that host-port and query; without `?` the query is empty |
| VlessLink.ParseLink | startobhod.py:9-44 | a link built from an `@`-free uuid, a `?`-free host (which may contain `:`), a decimal port and any query parses to that uuid, host and port value, with the fields filled from the parsed query |
| VlessLink.PortStage | startobhod.py:23-26 | an accepted address's host-port part is host, `:`, a decimal port text, and the descriptor is filled from the query after `?` |
| VlessLink.UuidPart | startobhod.py:10-16 | an accepted link is `vless://`, an `@`-free uuid, `@` and a rest, and its parse is the parse of that rest |
| VlessLink.AddressParts | startobhod.py:18-44 | an accepted address is exactly host, `:`, a decimal port text and an optional `?query`, with a `?`-free host, and the descriptor is filled from that query |
| VlessLink.ParsedLinkDecomposes | startobhod.py:9-44 | every accepted link is such a link: it is rebuilt from the descriptor's uuid and host, a decimal port text whose value is the port, and a query from which the descriptor's fields are filled |
| VlessLink.ParseEncodedLink | startobhod.py:9-44 | a link whose query is written from given pairs parses to the descriptor filled from exactly those pairs, with the port's value |
| VlessLink.ParseBareLink | startobhod.py:9-44 | `vless://u@h:p` without a query parses to uuid `u`, host `h`, port `p` and every other field at its default, `sni` being `h` |
| VlessLink.ColonOnlyInQuery | startobhod.py:18-24 | a `:` that appears only in the query does not count as the port separator: the link fails with the port error |
| VlessLink.NonDecimalPort | startobhod.py:25-26 | a port text (after the last `:`) that is not a decimal number fails with the numeric error |
| VlessLink.Recognised | startobhod.py:35-43 | keeping only the pairs whose key is one of the nine read keys leaves only such pairs |
| VlessLink.GetRecognised | startobhod.py:29-43 | looking up a read key among the recognised pairs gives what looking it up among all pairs gives |
| VlessLink.FillIgnoresUnrecognised | startobhod.py:28-43 | keys outside the nine read ones do not change the descriptor |
| VlessLink.FillDefaults | startobhod.py:35-43 | with none of the nine keys given, every optional field is at its default: `security` `none`, `flow` empty, `fp` `chrome`, `pbk` empty, `sni` the host, `type` `tcp`, `path` `/`, `sid` and `spx` empty |
| VlessLink.SniDefaultsToHost | startobhod.py:39 | without an `sni` key the server name is the parsed host |
| VlessLink.BlankSniQuery | startobhod.py:28 | the query `sni=` keeps its blank value: it parses to the one pair (`sni`, blank) |
| VlessLink.BlankSniKept | startobhod.py:28-39 | a link with the query `sni=` has a blank server name, not the host |
| VlessLink.FillQueryPairs | startobhod.py:29-43 | filling a descriptor from the nine pairs of its own fields gives it back |
| VlessLink.ParseRender | startobhod.py:9-44 | parsing the link written for a descriptor (decimal port, every field in the query) gives that descriptor back |
| XrayConfig.GenerateXrayConfig | startobhod.py:46-123 | the fixed layout, with the rule's tags naming the inbound and the DNS outbound; the SOCKS inbound on the local port; address, port and id from the descriptor, with `encryption` `none`; the flow emptied exactly for the two vision flows and kept otherwise; `network` and `security` copied; `realitySettings` exactly for `reality` and `tlsSettings` exactly for `tls`, with their contents; `wsSettings` with the path exactly for `ws`, whatever the security |
| XrayConfig.GenerateDefault | startobhod.py:46-66 | without a local port the SOCKS inbound listens on 127.0.0.1:25443 |
| XrayConfig.DnsModuleTagNamesNoOutbound | startobhod.py:52-89 | the DNS module's tag `dns_out` names no outbound; the DNS outbound is tagged `dns-out` |
| Pipeline.ConfigTargetsLinkAddress | startobhod.py:9-123 | for every accepted link, synthesis succeeds with the fixed layout and resolving rule tags, and the proxy's id, address and port are the uuid, host and decimal port written in the link |
| Pipeline.TlsWsVisionLink | startobhod.py:9-123 | a TLS link over websocket with the vision flow parses to the query's values and the defaults elsewhere; its configuration has an empty flow, TLS settings with the given server name, no Reality settings, and websocket settings with the path |
| Pipeline.TlsWsVisionDescriptor | startobhod.py:9-44 | that link parses to the descriptor with `security` `tls`, the vision flow, `sni`, `type` `ws`, the path, and defaults elsewhere |
| Pipeline.TlsWsVisionEncodable | startobhod.py:28 | the five pairs of that query are written without escaping |
| Pipeline.FillTlsWsVision | startobhod.py:29-43 | the descriptor filled from those five pairs |
| Pipeline.TlsWsVisionGiven | startobhod.py:29-43 | the five given keys take their values |
| Pipeline.TlsWsVisionDefaults | startobhod.py:29-43 | the four keys left out take their defaults |

## Left out

- `main` (`startobhod.py:125-155`): argument checking, console output, `sys.exit`, writing
  the configuration to a temporary JSON file, launching `xray` and removing the file. All
  of this is I/O and process handling around the core.
- JSON serialisation (`indent`, `ensure_ascii`): the model ends with the configuration as
  a value.
- How the Xray engine interprets the configuration.
- Query decoding: `parse_qs`'s percent-decoding, `+`-to-space and UTF-8 decoding are the
  parameter `decode`, constrained only by `KeepsPlain` where values are read back.
- `parse_qs` details outside `&`-separated `name=value` segments are not modelled. These
  are the `;` separator of older Python versions, `max_num_fields`, `strict_parsing` and
  the error modes of decoding.
- The error messages' texts: each `ValueError` is a `ParseError` variant.
- Text.ParseDecimal: accepts exactly non-empty ASCII decimal digit strings. That is
  narrower than Python's `int()`, which also accepts surrounding whitespace, a sign,
  `_` between digits and non-ASCII decimal digits. In the other direction it is broader:
  CPython's configurable limit on the number of digits `int()` converts from a string
  (4300 by default since 3.11 and the matching security releases) is not modelled, so an
  over-long digit string succeeds here and raises `ValueError` in the code.
- VlessLink.ParseVlessUrl: its port therefore never comes from such spellings, and never
  from a negative number. Those links fail with `InvalidPort` here but are accepted by
  the code.
- `generate_xray_config` on dictionaries that `parse_vless_url` does not produce, and the
  `KeyError` such a dictionary would raise: the model takes a `Descriptor`, which always
  has every field.
- The in-place update of `streamSettings` is modelled on values. No other part of the
  configuration refers to that dictionary, so there is no aliasing to capture.
