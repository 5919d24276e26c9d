/**
  `parse_vless_url`: reads `vless://<uuid>@<host>:<port>[?<query>]` into a connection
  descriptor with twelve fields, or fails at one of four checks.
 */
module VlessLink {
  import opened Wrappers
  import opened Text
  import opened Query

  const Scheme: string := "vless://"

  /** The four `ValueError`s the parser raises, one per failed check. */
  datatype ParseError =
    | SchemeError   // the link does not start with `vless://`
    | FormatError   // no `@` after the scheme
    | MissingPort   // no `:` in the part between `@` and the first `?`
    | InvalidPort   // the text after the last `:` is not a number

  /** The parsed link. `transport` holds the query key `type`. */
  datatype Descriptor = Descriptor(
    uuid: string,
    host: string,
    port: nat,
    security: string,
    flow: string,
    fp: string,
    pbk: string,
    sni: string,
    transport: string,
    path: string,
    sid: string,
    spx: string)

  /** The query keys the parser reads; every other key is ignored. */
  const RecognisedKeys: set<string> := {"security", "flow", "fp", "pbk", "sni", "type", "path", "sid", "spx"}

  /** The descriptor of a link without a query: every optional field at its default, `sni` at the host. */
  function Defaults(uuid: string, host: string, port: nat): Descriptor {
    Descriptor(uuid, host, port, "none", "", "chrome", "", host, "tcp", "/", "", "")
  }

  /** The descriptor built from the address parts and the parsed query. */
  function Fill(uuid: string, host: string, port: nat, params: seq<Pair>): Descriptor {
    Descriptor(
      uuid, host, port,
      Get(params, "security", "none"),
      Get(params, "flow", ""),
      Get(params, "fp", "chrome"),
      Get(params, "pbk", ""),
      Get(params, "sni", host),
      Get(params, "type", "tcp"),
      Get(params, "path", "/"),
      Get(params, "sid", ""),
      Get(params, "spx", ""))
  }

  /** `parse_vless_url(link)`, with `decode` the decoding of query names and values. */
  function ParseVlessUrl(link: string, decode: Decoder): (r: Result<Descriptor, ParseError>)
    ensures !StartsWith(link, Scheme) ==> r == Failure(SchemeError)
    ensures StartsWith(link, Scheme) && '@' !in link[|Scheme|..] ==> r == Failure(FormatError)
    ensures r.Success? ==> StartsWith(link, Scheme)
    ensures r.Success? ==> StartsWith(link[|Scheme|..], r.value.uuid + "@") && '@' !in r.value.uuid
  {
    if !StartsWith(link, Scheme) then Failure(SchemeError)
    else ParseUrl(link[|Scheme|..], decode)
  }

  /** The link after its scheme: the uuid is the text before the first `@`, even when that `@` is in the query. */
  function ParseUrl(url: string, decode: Decoder): (r: Result<Descriptor, ParseError>)
    ensures '@' !in url ==> r == Failure(FormatError)
    ensures r.Success? ==> StartsWith(url, r.value.uuid + "@") && '@' !in r.value.uuid
  {
    match SplitFirst(url, '@')
    case None => Failure(FormatError)
    case Some((uuid, rest)) =>
      var r := ParseAddress(uuid, rest, decode);
      assert url[..|uuid| + 1] == uuid + "@";
      r
  }

  /** The text after the first `?` is the query, or the query is empty when there is no `?`. */
  function CutQuery(rest: string): (parts: (string, string))
    ensures '?' !in parts.0
    ensures '?' in rest ==> rest == parts.0 + "?" + parts.1
    ensures '?' !in rest ==> parts == (rest, "")
  {
    match SplitFirst(rest, '?')
    case Some(parts) => parts
    case None => (rest, "")
  }

  /** The part after the first `@`: the host and port before the query, then the query's fields. */
  function ParseAddress(uuid: string, rest: string, decode: Decoder): (r: Result<Descriptor, ParseError>)
    ensures r.Success? ==> r.value.uuid == uuid
    ensures ':' !in CutQuery(rest).0 <==> r == Failure(MissingPort)
  {
    var (hostPort, query) := CutQuery(rest);
    match SplitLast(hostPort, ':')
    case None => Failure(MissingPort)
    case Some((host, portText)) =>
      match ParseDecimal(portText)
      case None => Failure(InvalidPort)
      case Some(port) => Success(Fill(uuid, host, port, ParseQuery(query, decode)))
  }

  /** `?query` when the link has a query, nothing otherwise. */
  function QueryTail(query: Option<string>): string {
    match query
    case None => ""
    case Some(q) => "?" + q
  }

  /** The link with the given parts; `query` is `None` when the link has no `?`. */
  function Link(uuid: string, host: string, portText: string, query: Option<string>): string {
    Scheme + (uuid + "@" + (host + ":" + portText + QueryTail(query)))
  }

  /** Parts that `Link` joins so that the parser cuts them back where they were joined. */
  predicate SeparableParts(uuid: string, host: string, portText: string) {
    '@' !in uuid && '?' !in host && IsDecimal(portText)
  }

  /** After the scheme, an `@`-free uuid and `@` leave the rest to the address stage. */
  lemma ParseAfterUuid(uuid: string, rest: string, decode: Decoder)
    requires '@' !in uuid
    ensures ParseVlessUrl(Scheme + (uuid + "@" + rest), decode) == ParseAddress(uuid, rest, decode)
  {
    var link := Scheme + (uuid + "@" + rest);
    assert link[..|Scheme|] == Scheme;
    assert link[|Scheme|..] == uuid + "@" + rest;
    SplitFirstAt(uuid, '@', rest);
  }

  lemma CutQueryAt(hostPort: string, query: Option<string>)
    requires '?' !in hostPort
    ensures CutQuery(hostPort + QueryTail(query)) == (hostPort, query.GetOr(""))
  {
    match query {
      case None =>
        assert QueryTail(query) == "" && hostPort + "" == hostPort;
        assert CutQuery(hostPort) == (hostPort, "");
      case Some(q) =>
        assert hostPort + QueryTail(query) == hostPort + "?" + q;
        SplitFirstAt(hostPort, '?', q);
    }
  }

  /** Parsing a link built from separable parts gives those parts back, with the query's fields filled in. */
  lemma ParseLink(uuid: string, host: string, portText: string, query: Option<string>, decode: Decoder)
    requires SeparableParts(uuid, host, portText)
    ensures ParseVlessUrl(Link(uuid, host, portText, query), decode)
         == Success(Fill(uuid, host, DigitsValue(portText), ParseQuery(query.GetOr(""), decode)))
  {
    var hostPort := host + ":" + portText;
    ParseAfterUuid(uuid, hostPort + QueryTail(query), decode);
    assert forall i :: 0 <= i < |portText| ==> IsDigit(portText[i]);
    assert '?' !in portText && ':' !in portText;
    CutQueryAt(hostPort, query);
    SplitLastAt(host, ':', portText);
  }

  /** The address stage accepts exactly host, `:`, decimal port and an optional query. */
  lemma AddressParts(uuid: string, rest: string, decode: Decoder)
    returns (host: string, portText: string, query: Option<string>)
    requires ParseAddress(uuid, rest, decode).Success?
    ensures rest == host + ":" + portText + QueryTail(query)
    ensures '?' !in host && IsDecimal(portText)
    ensures ParseAddress(uuid, rest, decode)
         == Success(Fill(uuid, host, DigitsValue(portText), ParseQuery(query.GetOr(""), decode)))
  {
    var cut := CutQuery(rest);
    query := if '?' in rest then Some(cut.1) else None;
    assert rest == cut.0 + QueryTail(query) by {
      if '?' in rest { Associative(cut.0, "?", cut.1); }
    }
    host, portText := PortStage(uuid, rest, decode);
  }

  /** The host and port of an accepted address, cut at the last `:` before the query. */
  lemma PortStage(uuid: string, rest: string, decode: Decoder) returns (host: string, portText: string)
    requires ParseAddress(uuid, rest, decode).Success?
    ensures CutQuery(rest).0 == host + ":" + portText
    ensures IsDecimal(portText)
    ensures ParseAddress(uuid, rest, decode)
         == Success(Fill(uuid, host, DigitsValue(portText), ParseQuery(CutQuery(rest).1, decode)))
  {
    var hostPort := CutQuery(rest).0;
    host, portText := SplitLast(hostPort, ':').value.0, SplitLast(hostPort, ':').value.1;
  }

  /** An accepted link is the scheme, an `@`-free uuid, `@`, and the rest the address stage accepted. */
  lemma UuidPart(link: string, decode: Decoder) returns (uuid: string, rest: string)
    requires ParseVlessUrl(link, decode).Success?
    ensures link == Scheme + (uuid + "@" + rest) && '@' !in uuid
    ensures ParseVlessUrl(link, decode) == ParseAddress(uuid, rest, decode)
  {
    assert StartsWith(link, Scheme);
    var url := link[|Scheme|..];
    SchemeStage(link, decode);
    assert '@' in url;
    uuid, rest := SplitFirst(url, '@').value.0, SplitFirst(url, '@').value.1;
    UuidStage(url, decode);
    assert link == link[..|Scheme|] + url;
  }

  lemma SchemeStage(link: string, decode: Decoder)
    requires StartsWith(link, Scheme)
    ensures ParseVlessUrl(link, decode) == ParseUrl(link[|Scheme|..], decode)
  {
  }

  lemma UuidStage(url: string, decode: Decoder)
    requires '@' in url
    ensures ParseUrl(url, decode) == ParseAddress(SplitFirst(url, '@').value.0, SplitFirst(url, '@').value.1, decode)
  {
  }

  /** Conversely, every link the parser accepts is such a link, with the descriptor filled from its query. */
  lemma ParsedLinkDecomposes(link: string, decode: Decoder) returns (portText: string, query: Option<string>)
    requires ParseVlessUrl(link, decode).Success?
    ensures var d := ParseVlessUrl(link, decode).value;
      && SeparableParts(d.uuid, d.host, portText)
      && link == Link(d.uuid, d.host, portText, query)
      && d == Fill(d.uuid, d.host, DigitsValue(portText), ParseQuery(query.GetOr(""), decode))
  {
    var uuid, rest := UuidPart(link, decode);
    var host;
    host, portText, query := AddressParts(uuid, rest, decode);
  }

  /** A link whose query encodes `pairs` reads back as the descriptor filled from exactly those pairs. */
  lemma ParseEncodedLink(uuid: string, host: string, port: nat, pairs: seq<Pair>, decode: Decoder)
    requires '@' !in uuid && '?' !in host && Encodable(pairs) && KeepsPlain(decode)
    ensures ParseVlessUrl(Link(uuid, host, ShowNat(port), Some(Encode(pairs))), decode)
         == Success(Fill(uuid, host, port, pairs))
  {
    ParseDecimalShowNat(port);
    ParseLink(uuid, host, ShowNat(port), Some(Encode(pairs)), decode);
    ParseQueryEncode(pairs, decode);
  }

  /** A link without a query, its port written in decimal, reads back as the default descriptor. */
  lemma ParseBareLink(uuid: string, host: string, port: nat, decode: Decoder)
    requires '@' !in uuid && '?' !in host
    ensures ParseVlessUrl(Link(uuid, host, ShowNat(port), None), decode) == Success(Defaults(uuid, host, port))
  {
    ParseDecimalShowNat(port);
    ParseLink(uuid, host, ShowNat(port), None, decode);
    ParseQueryEmpty(decode);
  }

  /** A `:` that appears only in the query does not stand for the port separator. */
  lemma ColonOnlyInQuery(uuid: string, host: string, query: Option<string>, decode: Decoder)
    requires '@' !in uuid && '?' !in host && ':' !in host
    ensures ParseVlessUrl(Scheme + (uuid + "@" + (host + QueryTail(query))), decode) == Failure(MissingPort)
  {
    ParseAfterUuid(uuid, host + QueryTail(query), decode);
    CutQueryAt(host, query);
  }

  /** A port text that is not a decimal number fails the numeric conversion. */
  lemma NonDecimalPort(uuid: string, host: string, portText: string, query: Option<string>, decode: Decoder)
    requires '@' !in uuid && '?' !in host && '?' !in portText && ':' !in portText
    requires !IsDecimal(portText)
    ensures ParseVlessUrl(Link(uuid, host, portText, query), decode) == Failure(InvalidPort)
  {
    var hostPort := host + ":" + portText;
    ParseAfterUuid(uuid, hostPort + QueryTail(query), decode);
    CutQueryAt(hostPort, query);
    SplitLastAt(host, ':', portText);
  }

  /** The pairs whose key the parser reads, in their order. */
  function Recognised(params: seq<Pair>): (kept: seq<Pair>)
    ensures forall i :: 0 <= i < |kept| ==> kept[i].0 in RecognisedKeys
  {
    if params == [] then []
    else (if params[0].0 in RecognisedKeys then [params[0]] else []) + Recognised(params[1..])
  }

  lemma {:induction false} GetRecognised(params: seq<Pair>, key: string, default: string)
    requires key in RecognisedKeys
    ensures Get(Recognised(params), key, default) == Get(params, key, default)
  {
    if params != [] {
      GetRecognised(params[1..], key, default);
      var p := params[0];
      if p.0 == key {
        assert [p][0].0 == key;
        GetFirstWins([p], params[1..], key, default);
        GetFirstWins([p], Recognised(params[1..]), key, default);
        assert params == [p] + params[1..];
      } else {
        GetSkipsOthers([p], params[1..], key, default);
        if p.0 in RecognisedKeys {
          assert Recognised(params) == [p] + Recognised(params[1..]);
          GetSkipsOthers([p], Recognised(params[1..]), key, default);
        } else {
          assert Recognised(params) == Recognised(params[1..]);
        }
        assert params == [p] + params[1..];
      }
    }
  }

  /** Pairs with an unrecognised key change nothing in the descriptor. */
  lemma FillIgnoresUnrecognised(uuid: string, host: string, port: nat, params: seq<Pair>)
    ensures Fill(uuid, host, port, Recognised(params)) == Fill(uuid, host, port, params)
  {
    GetRecognised(params, "security", "none");
    GetRecognised(params, "flow", "");
    GetRecognised(params, "fp", "chrome");
    GetRecognised(params, "pbk", "");
    GetRecognised(params, "sni", host);
    GetRecognised(params, "type", "tcp");
    GetRecognised(params, "path", "/");
    GetRecognised(params, "sid", "");
    GetRecognised(params, "spx", "");
  }

  /** Without a recognised key every optional field takes its default, `sni` the host. */
  lemma FillDefaults(uuid: string, host: string, port: nat, params: seq<Pair>)
    requires forall i :: 0 <= i < |params| ==> params[i].0 !in RecognisedKeys
    ensures Fill(uuid, host, port, params) == Defaults(uuid, host, port)
  {
  }

  lemma BlankSniQuery(decode: Decoder)
    requires KeepsPlain(decode)
    ensures ParseQuery("sni=", decode) == [("sni", "")]
  {
    var ps: seq<Pair> := [("sni", "")];
    assert Segment(ps[0]) == "sni=";
    assert Encode(ps) == "sni=" by {
      assert seq(|ps|, i requires 0 <= i < |ps| => Segment(ps[i])) == ["sni="];
    }
    ParseQueryEncode(ps, decode);
  }

  /** Without an `sni` key the server name is the parsed host. */
  lemma SniDefaultsToHost(uuid: string, host: string, port: nat, params: seq<Pair>)
    requires forall i :: 0 <= i < |params| ==> params[i].0 != "sni"
    ensures Fill(uuid, host, port, params).sni == host
  {
  }

  /** A blank `sni=` is kept as a blank value: `sni` is blank, not the host. */
  lemma BlankSniKept(uuid: string, host: string, portText: string, decode: Decoder)
    requires SeparableParts(uuid, host, portText) && KeepsPlain(decode)
    ensures var r := ParseVlessUrl(Link(uuid, host, portText, Some("sni=")), decode);
      r.Success? && r.value.host == host && r.value.sni == ""
  {
    var ps: seq<Pair> := [("sni", "")];
    BlankSniQuery(decode);
    ParseLink(uuid, host, portText, Some("sni="), decode);
    var d := Fill(uuid, host, DigitsValue(portText), ps);
    assert ParseVlessUrl(Link(uuid, host, portText, Some("sni=")), decode) == Success(d);
    GetDistinct(ps, 0, host);
    assert d.sni == "";
  }

  lemma BareSniQuery(decode: Decoder)
    requires KeepsPlain(decode)
    ensures ParseQuery("sni", decode) == [("sni", "")]
  {
    assert Join(["sni"], '&') == "sni";
    SplitJoin(["sni"], '&');
    assert Split("sni", '&') == ["sni"];
    ParsePairBlank("sni", decode);
    assert Plain("sni");
  }

  /** A bare `sni` without `=` is a blank value too: `sni` is blank, not the host. */
  lemma BareSniKept(uuid: string, host: string, portText: string, decode: Decoder)
    requires SeparableParts(uuid, host, portText) && KeepsPlain(decode)
    ensures var r := ParseVlessUrl(Link(uuid, host, portText, Some("sni")), decode);
      r.Success? && r.value.host == host && r.value.sni == ""
  {
    var ps: seq<Pair> := [("sni", "")];
    BareSniQuery(decode);
    ParseLink(uuid, host, portText, Some("sni"), decode);
    var d := Fill(uuid, host, DigitsValue(portText), ps);
    assert ParseVlessUrl(Link(uuid, host, portText, Some("sni")), decode) == Success(d);
    GetDistinct(ps, 0, host);
    assert d.sni == "";
  }

  /** The query `Render` writes: all nine keys, each with the descriptor's value. */
  function QueryPairs(d: Descriptor): seq<Pair> {
    [("security", d.security), ("flow", d.flow), ("fp", d.fp), ("pbk", d.pbk), ("sni", d.sni),
     ("type", d.transport), ("path", d.path), ("sid", d.sid), ("spx", d.spx)]
  }

  /** The link that describes `d`: its port in decimal and every optional field in the query. */
  function Render(d: Descriptor): string {
    Link(d.uuid, d.host, ShowNat(d.port), Some(Encode(QueryPairs(d))))
  }

  /** Descriptors whose parts `Render` can write so that the parser cuts them back apart. */
  predicate Renderable(d: Descriptor) {
    '@' !in d.uuid && '?' !in d.host && Encodable(QueryPairs(d))
  }

  /** Filling a descriptor from its own query pairs gives it back. */
  lemma FillQueryPairs(d: Descriptor)
    ensures Fill(d.uuid, d.host, d.port, QueryPairs(d)) == d
  {
    var ps := QueryPairs(d);
    assert DistinctKeys(ps);
    GetDistinct(ps, 0, "none");
    GetDistinct(ps, 1, "");
    GetDistinct(ps, 2, "chrome");
    GetDistinct(ps, 3, "");
    GetDistinct(ps, 4, d.host);
    GetDistinct(ps, 5, "tcp");
    GetDistinct(ps, 6, "/");
    GetDistinct(ps, 7, "");
    GetDistinct(ps, 8, "");
  }

  /** Parsing the rendered link of a descriptor gives the descriptor back. */
  lemma ParseRender(d: Descriptor, decode: Decoder)
    requires Renderable(d) && KeepsPlain(decode)
    ensures ParseVlessUrl(Render(d), decode) == Success(d)
  {
    ParseEncodedLink(d.uuid, d.host, d.port, QueryPairs(d), decode);
    FillQueryPairs(d);
  }
}
