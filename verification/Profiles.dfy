/**
 The user profile of `internal/model/model.go`: the parts routing depends on. List entries,
 servers and addresses arrive parsed (`Cidr.Entry`); other texts arrive trimmed, so a blank
 entry is the empty string.
 */
module Profiles {
  import opened Cidr

  datatype Option<+T> = None | Some(value: T)

  datatype Engine = SingBox | AmneziaWG | OpenVPN | Xray | Mihomo | OlcRTC | External | Nfqws

  datatype Protocol =
    | VLESS | VMess | Trojan | Shadowsocks | Hysteria2 | TUIC | AnyTLS
    | WireGuard | AmneziaWGProto | OlcRTCProto | SOCKS | HTTP

  /**
   `ifaceToken` is `params.interface` for an external endpoint, and the eight hex digits of
   the id's FNV hash for an AmneziaWG one. `localAddresses` is empty when none is recorded.
   */
  datatype Endpoint = Endpoint(
    id: string, engine: Engine, protocol: Protocol, server: Entry, endpointIP: Entry,
    enabled: bool, ifaceToken: string, localAddresses: seq<string>)

  datatype Group = Group(id: string, members: seq<string>, killSwitch: bool)

  datatype Rule = Rule(
    id: string,
    domainSuffix: seq<string>, domain: seq<string>, geoSite: seq<string>, geoIP: seq<string>,
    ipCidr: seq<Entry>, port: seq<int>,
    sourceIP: seq<Entry>, sourceMAC: seq<string>, sourceIface: seq<string>, sourcePort: seq<int>,
    isDefault: bool, disabled: bool, outbound: string)

  datatype RoutingList = RoutingList(
    id: string, source: string, manual: seq<Entry>, cidrCache: seq<Entry>,
    outbound: string, downloadVia: string, enabled: bool)

  datatype Profile = Profile(
    endpoints: seq<Endpoint>, groups: seq<Group>, rules: seq<Rule>, lists: seq<RoutingList>)

  const DIRECT := "direct"
  const BLOCK := "block"

  /** `Profile.EndpointByID`: the first endpoint with that id. */
  function EndpointByID(es: seq<Endpoint>, id: string): (r: Option<Endpoint>)
    ensures r.Some? ==> r.value in es && r.value.id == id
    ensures r.None? ==> forall e :: e in es ==> e.id != id
  {
    if es == [] then None else if es[0].id == id then Some(es[0]) else EndpointByID(es[1..], id)
  }

  function GroupByID(gs: seq<Group>, id: string): (r: Option<Group>)
    ensures r.Some? ==> r.value in gs && r.value.id == id
    ensures r.None? ==> forall g :: g in gs ==> g.id != id
  {
    if gs == [] then None else if gs[0].id == id then Some(gs[0]) else GroupByID(gs[1..], id)
  }

  /** `pbr.kernelIface`: the netdev of a kernel-plane endpoint, "" for any other engine. */
  function KernelIface(e: Endpoint): string {
    match e.engine
    case External => e.ifaceToken
    case AmneziaWG => "wr-" + e.ifaceToken
    case _ => ""
  }

  predicate HasNonBlank(ss: seq<string>) {
    exists s :: s in ss && s != ""
  }

  predicate HasEntry(es: seq<Entry>) {
    exists e :: e in es && !e.Blank?
  }

  /** `Rule.HasSourceMatcher`: blank entries impose no constraint and do not count. */
  predicate HasSourceMatcher(r: Rule) {
    HasEntry(r.sourceIP) || HasNonBlank(r.sourceMAC) || HasNonBlank(r.sourceIface) || r.sourcePort != []
  }

  /** Every address in the profile is a masked prefix, as the parsers produce them. */
  ghost predicate ParsedProfile(p: Profile) {
    && (forall r :: r in p.rules ==> WellFormed(r.ipCidr) && WellFormed(r.sourceIP))
    && (forall l :: l in p.lists ==> WellFormed(l.manual) && WellFormed(l.cidrCache))
    && (forall e :: e in p.endpoints ==> WellFormed([e.server, e.endpointIP]))
  }
}
