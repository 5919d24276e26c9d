/**
  `generate_xray_config`: the configuration of the Xray engine for one connection
  descriptor. The shape is fixed (one SOCKS inbound, the proxy and DNS outbounds,
  one routing rule); the proxy outbound's stream settings gain `realitySettings`,
  `tlsSettings` and `wsSettings` depending on the descriptor.
 */
module XrayConfig {
  import opened Wrappers
  import opened VlessLink

  /** The local SOCKS port used when the caller gives none. */
  const DefaultLocalPort: int := 25443

  /** The flow values that are left out of the client-side user entry. */
  const VisionFlows: set<string> := {"xtls-rprx-vision", "xtls-rprx-vision-udp443"}

  datatype Log = Log(loglevel: string)
  datatype Dns = Dns(servers: seq<string>, tag: string)

  datatype SocksSettings = SocksSettings(auth: string, udp: bool, ip: string)
  datatype Inbound = Inbound(port: int, listen: string, protocol: string, settings: SocksSettings, tag: string)

  datatype User = User(id: string, flow: string, encryption: string)
  datatype Server = Server(address: string, port: int, users: seq<User>)
  datatype VlessSettings = VlessSettings(vnext: seq<Server>, domainStrategy: string)

  datatype RealitySettings = RealitySettings(
    publicKey: string, shortId: string, fingerprint: string, serverName: string, spiderX: string)
  datatype TlsSettings = TlsSettings(serverName: string, fingerprint: string)
  datatype WsSettings = WsSettings(path: string)

  /** `streamSettings`; an absent key is `None`. */
  datatype StreamSettings = StreamSettings(
    network: string,
    security: string,
    realitySettings: Option<RealitySettings>,
    tlsSettings: Option<TlsSettings>,
    wsSettings: Option<WsSettings>)

  /** The two kinds of outbound entries: the proxy itself and the DNS handler. */
  datatype Outbound =
    | VlessOutbound(protocol: string, settings: VlessSettings, streamSettings: StreamSettings, tag: string)
    | DnsOutbound(protocol: string, tag: string)

  /** A routing rule; `ruleType` holds the JSON key `type`. */
  datatype Rule = Rule(ruleType: string, inboundTag: seq<string>, network: string, port: int, outboundTag: string)
  datatype Routing = Routing(domainStrategy: string, rules: seq<Rule>)

  datatype Config = Config(log: Log, dns: Dns, inbounds: seq<Inbound>, outbounds: seq<Outbound>, routing: Routing)

  /** The layout every generated configuration has: one inbound, a proxy outbound with one server and one user, a DNS outbound, one rule. */
  predicate FixedShape(c: Config) {
    && |c.inbounds| == 1
    && |c.outbounds| == 2
    && c.outbounds[0].VlessOutbound?
    && |c.outbounds[0].settings.vnext| == 1
    && |c.outbounds[0].settings.vnext[0].users| == 1
    && c.outbounds[1].DnsOutbound?
    && |c.routing.rules| == 1
  }

  /** Every tag a routing rule names belongs to an inbound or an outbound of the same configuration. */
  predicate RoutesResolve(c: Config) {
    forall r :: r in c.routing.rules ==>
      && (forall t :: t in r.inboundTag ==> exists ib :: ib in c.inbounds && ib.tag == t)
      && (exists ob :: ob in c.outbounds && ob.tag == r.outboundTag)
  }

  /** The proxy outbound's stream settings. */
  function Stream(c: Config): StreamSettings
    requires FixedShape(c)
  {
    c.outbounds[0].streamSettings
  }

  /** The proxy outbound's only server. */
  function ServerOf(c: Config): Server
    requires FixedShape(c)
  {
    c.outbounds[0].settings.vnext[0]
  }

  /** `generate_xray_config(d, localPort)`. */
  function GenerateXrayConfig(d: Descriptor, localPort: int): (c: Config)
    ensures FixedShape(c) && RoutesResolve(c)
    ensures c.log == Log("debug") && c.dns == Dns(["8.8.8.8", "1.1.1.1"], "dns_out")
    ensures c.outbounds[0].settings.domainStrategy == "UseIP" && c.routing.domainStrategy == "IPIfNonMatch"
    ensures c.inbounds[0] == Inbound(localPort, "127.0.0.1", "socks", SocksSettings("noauth", false, "127.0.0.1"), "socks-in")
    ensures c.outbounds[0].tag == "vless-out" && c.outbounds[0].protocol == "vless"
    ensures c.outbounds[1] == DnsOutbound("dns", "dns-out")
    ensures c.routing.rules[0] == Rule("field", [c.inbounds[0].tag], "udp", 53, c.outbounds[1].tag)
    // the server and user entry come from the descriptor
    ensures ServerOf(c).address == d.host && ServerOf(c).port == d.port
    ensures ServerOf(c).users[0].id == d.uuid && ServerOf(c).users[0].encryption == "none"
    // vision flows are stripped, every other flow is kept
    ensures d.flow in VisionFlows ==> ServerOf(c).users[0].flow == ""
    ensures d.flow !in VisionFlows ==> ServerOf(c).users[0].flow == d.flow
    ensures Stream(c).network == d.transport && Stream(c).security == d.security
    // at most one of reality and tls, chosen by the security value
    ensures Stream(c).realitySettings.Some? <==> d.security == "reality"
    ensures Stream(c).tlsSettings.Some? <==> d.security == "tls"
    ensures Stream(c).realitySettings.Some? ==>
      Stream(c).realitySettings.value == RealitySettings(d.pbk, d.sid, d.fp, d.sni, d.spx)
    ensures Stream(c).tlsSettings.Some? ==> Stream(c).tlsSettings.value == TlsSettings(d.sni, d.fp)
    // websocket settings exactly for the ws transport, whatever the security
    ensures Stream(c).wsSettings.Some? <==> d.transport == "ws"
    ensures Stream(c).wsSettings.Some? ==> Stream(c).wsSettings.value.path == d.path
  {
    var userFlow := if d.flow in VisionFlows then "" else d.flow;
    var base := StreamSettings(d.transport, d.security, None, None, None);
    var secured :=
      if d.security == "reality" then
        base.(realitySettings := Some(RealitySettings(d.pbk, d.sid, d.fp, d.sni, d.spx)))
      else if d.security == "tls" then
        base.(tlsSettings := Some(TlsSettings(d.sni, d.fp)))
      else base;
    var ss := if d.transport == "ws" then secured.(wsSettings := Some(WsSettings(d.path))) else secured;
    var inbound := Inbound(localPort, "127.0.0.1", "socks", SocksSettings("noauth", false, "127.0.0.1"), "socks-in");
    var proxy := VlessOutbound(
      "vless",
      VlessSettings([Server(d.host, d.port, [User(d.uuid, userFlow, "none")])], "UseIP"),
      ss,
      "vless-out");
    var dnsOut := DnsOutbound("dns", "dns-out");
    var rule := Rule("field", ["socks-in"], "udp", 53, "dns-out");
    assert inbound in [inbound] && dnsOut in [proxy, dnsOut];
    Config(
      Log("debug"),
      Dns(["8.8.8.8", "1.1.1.1"], "dns_out"),
      [inbound],
      [proxy, dnsOut],
      Routing("IPIfNonMatch", [rule]))
  }

  /** The DNS module's own tag, `dns_out`, is not the tag of the DNS outbound, `dns-out`, nor of any other outbound. */
  lemma DnsModuleTagNamesNoOutbound(d: Descriptor, localPort: int)
    ensures var c := GenerateXrayConfig(d, localPort);
      c.dns.tag == "dns_out" && forall ob :: ob in c.outbounds ==> ob.tag != c.dns.tag
  {
  }

  /** The configuration with the default local port. */
  function GenerateDefault(d: Descriptor): (c: Config)
    ensures c.inbounds == [Inbound(25443, "127.0.0.1", "socks", SocksSettings("noauth", false, "127.0.0.1"), "socks-in")]
  {
    GenerateXrayConfig(d, DefaultLocalPort)
  }
}
