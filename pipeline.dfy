/**
  The two stages together: a link is parsed into a descriptor, and the descriptor
  is turned into the engine configuration.
 */
module Pipeline {
  import opened Wrappers
  import opened Text
  import opened Query
  import opened VlessLink
  import opened XrayConfig

  /** The configuration of an accepted link targets the server, port and identity written in the link. */
  lemma ConfigTargetsLinkAddress(link: string, decode: Decoder, localPort: int)
    returns (portText: string, query: Option<string>)
    requires ParseVlessUrl(link, decode).Success?
    ensures var c := GenerateXrayConfig(ParseVlessUrl(link, decode).value, localPort);
      && FixedShape(c) && RoutesResolve(c)
      && link == Link(ServerOf(c).users[0].id, ServerOf(c).address, portText, query)
      && IsDecimal(portText) && ServerOf(c).port == DigitsValue(portText)
  {
    portText, query := ParsedLinkDecomposes(link, decode);
  }

  /** The query `security=tls&sni=<sni>&type=ws&path=<path>&flow=xtls-rprx-vision`, as pairs. */
  function TlsWsVisionPairs(sni: string, path: string): seq<Pair> {
    [("security", "tls"), ("sni", sni), ("type", "ws"), ("path", path), ("flow", "xtls-rprx-vision")]
  }

  /**
    A TLS link over websocket with the vision flow, such as
    `vless://abc-123@example.com:443?security=tls&sni=foo.com&type=ws&path=/x&flow=xtls-rprx-vision`:
    the descriptor carries the query's values and defaults elsewhere, and the configuration drops
    the vision flow, carries TLS settings for the given server name and websocket settings for the path.
   */
  lemma TlsWsVisionLink(uuid: string, host: string, port: nat, sni: string, path: string, decode: Decoder)
    requires '@' !in uuid && '?' !in host
    requires Plain(sni) && '&' !in sni && Plain(path) && '&' !in path
    requires KeepsPlain(decode)
    ensures var r := ParseVlessUrl(Link(uuid, host, ShowNat(port), Some(Encode(TlsWsVisionPairs(sni, path)))), decode);
      && r == Success(Descriptor(uuid, host, port, "tls", "xtls-rprx-vision", "chrome", "", sni, "ws", path, "", ""))
      && var c := GenerateXrayConfig(r.value, DefaultLocalPort);
      && ServerOf(c).users[0].flow == ""
      && Stream(c).tlsSettings == Some(TlsSettings(sni, "chrome"))
      && Stream(c).realitySettings.None?
      && Stream(c).wsSettings == Some(WsSettings(path))
  {
    TlsWsVisionDescriptor(uuid, host, port, sni, path, decode);
  }

  lemma TlsWsVisionDescriptor(uuid: string, host: string, port: nat, sni: string, path: string, decode: Decoder)
    requires '@' !in uuid && '?' !in host
    requires Plain(sni) && '&' !in sni && Plain(path) && '&' !in path
    requires KeepsPlain(decode)
    ensures ParseVlessUrl(Link(uuid, host, ShowNat(port), Some(Encode(TlsWsVisionPairs(sni, path)))), decode)
         == Success(Descriptor(uuid, host, port, "tls", "xtls-rprx-vision", "chrome", "", sni, "ws", path, "", ""))
  {
    TlsWsVisionEncodable(sni, path);
    ParseEncodedLink(uuid, host, port, TlsWsVisionPairs(sni, path), decode);
    FillTlsWsVision(uuid, host, port, sni, path);
  }

  lemma TlsWsVisionEncodable(sni: string, path: string)
    requires Plain(sni) && '&' !in sni && Plain(path) && '&' !in path
    ensures Encodable(TlsWsVisionPairs(sni, path))
  {
  }

  lemma FillTlsWsVision(uuid: string, host: string, port: nat, sni: string, path: string)
    ensures Fill(uuid, host, port, TlsWsVisionPairs(sni, path))
         == Descriptor(uuid, host, port, "tls", "xtls-rprx-vision", "chrome", "", sni, "ws", path, "", "")
  {
    TlsWsVisionGiven(uuid, host, port, sni, path);
    TlsWsVisionDefaults(uuid, host, port, sni, path);
  }

  /** The five keys the query gives take their values. */
  lemma TlsWsVisionGiven(uuid: string, host: string, port: nat, sni: string, path: string)
    ensures var d := Fill(uuid, host, port, TlsWsVisionPairs(sni, path));
      && d.security == "tls" && d.sni == sni && d.transport == "ws" && d.path == path
      && d.flow == "xtls-rprx-vision"
  {
    var ps := TlsWsVisionPairs(sni, path);
    assert DistinctKeys(ps);
    GetDistinct(ps, 0, "none");
    GetDistinct(ps, 1, host);
    GetDistinct(ps, 2, "tcp");
    GetDistinct(ps, 3, "/");
    GetDistinct(ps, 4, "");
  }

  /** The four keys the query leaves out take their defaults. */
  lemma TlsWsVisionDefaults(uuid: string, host: string, port: nat, sni: string, path: string)
    ensures var d := Fill(uuid, host, port, TlsWsVisionPairs(sni, path));
      d.fp == "chrome" && d.pbk == "" && d.sid == "" && d.spx == ""
  {
    var ps := TlsWsVisionPairs(sni, path);
    GetAbsent(ps, "fp", "chrome");
    GetAbsent(ps, "pbk", "");
    GetAbsent(ps, "sid", "");
    GetAbsent(ps, "spx", "");
  }
}
