/**
 Packets, address sets, and the routing decision both kernel planes are meant to make: the
 anti-loop bypass first, then the last matching zone in name order, otherwise the main table.
 */
module Datapath {
  import opened Cidr
  import opened Compile

  datatype L4 = TCP | UDP | OtherL4

  /** One packet as the prerouting hook sees it; `mark` is its incoming fwmark. */
  datatype Packet = Packet(
    v6: bool, src: nat, dst: nat, iif: string, mac: string, l4: L4, sport: int, dport: int, mark: Word)

  function SrcAddr(k: Packet): Addr { Addr(k.v6, k.src) }
  function DstAddr(k: Packet): Addr { Addr(k.v6, k.dst) }

  /** The packet mark and the connection mark a chain leaves behind. */
  datatype Marks = Marks(mark: Word, ct: Word)

  // ---- named address sets ----

  datatype SetId = BypassSet(v6: bool) | DestSet(zone: string, v6: bool) | SrcSet(zone: string, v6: bool)

  /** The current contents of every set; one that is not declared holds nothing. */
  type Sets = SetId -> seq<Prefix>

  predicate InSet(sets: Sets, id: SetId, a: Addr) { Covered(sets(id), a) }

  /** The prefixes one zone declares under a set reference. */
  function ZonePart(z: Zone, id: SetId): seq<Prefix> {
    match id
    case BypassSet(_) => []
    case DestSet(name, v6) => if name != z.name then [] else if v6 then z.v6 else z.v4
    case SrcSet(name, v6) => if name != z.name then [] else if v6 then z.srcV6 else z.srcV4
  }

  /** Lookup by name: a name declared twice keeps only its last elements. */
  function ZonesPart(zs: seq<Zone>, id: SetId): seq<Prefix> {
    if zs == [] then []
    else if ZonePart(zs[|zs| - 1], id) != [] then ZonePart(zs[|zs| - 1], id)
    else ZonesPart(zs[..|zs| - 1], id)
  }

  function DeclaredSets(pl: Plan): Sets {
    (id: SetId) =>
      if id.BypassSet? then (if id.v6 then pl.bypassV6 else pl.bypassV4) else ZonesPart(pl.zones, id)
  }

  ghost predicate NamesDistinct(zs: seq<Zone>) {
    forall i, j :: 0 <= i < j < |zs| ==> zs[i].name != zs[j].name
  }

  lemma {:induction false} ForeignSets(zs: seq<Zone>, id: SetId)
    requires !id.BypassSet? && forall z :: z in zs ==> z.name != id.zone
    ensures ZonesPart(zs, id) == []
  {
    if zs != [] {
      var n := |zs| - 1;
      assert zs == zs[..n] + [zs[n]];
      ForeignSets(zs[..n], id);
    }
  }

  /** With distinct zone names, every set reference finds its own zone's prefixes. */
  lemma {:induction false} OwnSets(zs: seq<Zone>, i: nat, id: SetId)
    requires NamesDistinct(zs) && i < |zs| && !id.BypassSet? && id.zone == zs[i].name
    ensures ZonesPart(zs, id) == ZonePart(zs[i], id)
  {
    var n := |zs| - 1;
    if i == n {
      ForeignSets(zs[..n], id);
    } else {
      assert zs[..n][i] == zs[i];
      OwnSets(zs[..n], i, id);
    }
  }

  /** The references a zone's lines make resolve to that zone's own prefixes. */
  ghost predicate SetsOf(sets: Sets, z: Zone) {
    && sets(DestSet(z.name, false)) == z.v4 && sets(DestSet(z.name, true)) == z.v6
    && sets(SrcSet(z.name, false)) == z.srcV4 && sets(SrcSet(z.name, true)) == z.srcV6
  }

  lemma PlanSets(pl: Plan, z: Zone)
    requires NamesDistinct(pl.zones) && z in pl.zones
    ensures SetsOf(DeclaredSets(pl), z)
  {
    var i :| 0 <= i < |pl.zones| && pl.zones[i] == z;
    OwnSets(pl.zones, i, DestSet(z.name, false));
    OwnSets(pl.zones, i, DestSet(z.name, true));
    OwnSets(pl.zones, i, SrcSet(z.name, false));
    OwnSets(pl.zones, i, SrcSet(z.name, true));
  }

  // ---- the decision ----

  predicate EndsWith(s: string, c: char) { s != [] && s[|s| - 1] == c }

  /** An ingress interface pattern: a trailing star matches any continuation. */
  predicate IfaceMatches(pattern: string, name: string) {
    if EndsWith(pattern, '*') then pattern[..|pattern| - 1] <= name else pattern == name
  }

  predicate IfaceOk(z: Zone, k: Packet) {
    z.srcIface == [] || exists n :: n in z.srcIface && IfaceMatches(n, k.iif)
  }

  predicate MacOk(z: Zone, k: Packet) { z.srcMAC == [] || k.mac in z.srcMAC }

  predicate PortOk(z: Zone, k: Packet) { z.srcPort == [] || (k.l4 != OtherL4 && k.sport in z.srcPort) }

  predicate SourceAddressOk(z: Zone, k: Packet) {
    (z.srcV4 == [] && z.srcV6 == []) || Covered(if k.v6 then z.srcV6 else z.srcV4, SrcAddr(k))
  }

  predicate HasDest(z: Zone) { z.v4 != [] || z.v6 != [] }

  predicate DestOk(z: Zone, k: Packet) {
    if HasDest(z) then Covered(if k.v6 then z.v6 else z.v4, DstAddr(k)) else z.srcScoped
  }

  /** A zone claims a packet when every kind of matcher it carries accepts it. */
  predicate ZoneMatches(z: Zone, k: Packet) {
    DestOk(z, k) && SourceAddressOk(z, k) && IfaceOk(z, k) && MacOk(z, k) && PortOk(z, k)
  }

  predicate Bypassed(pl: Plan, k: Packet) {
    Covered(if k.v6 then pl.bypassV6 else pl.bypassV4, DstAddr(k))
  }

  datatype Decision = Main | Claimed(zone: Zone)

  /** The last zone in list order that claims the packet. */
  function LastClaim(zs: seq<Zone>, k: Packet): Decision {
    if zs == [] then Main
    else if ZoneMatches(zs[|zs| - 1], k) then Claimed(zs[|zs| - 1])
    else LastClaim(zs[..|zs| - 1], k)
  }

  function Decide(pl: Plan, k: Packet): Decision {
    if Bypassed(pl, k) then Main else LastClaim(pl.zones, k)
  }

  ghost predicate ClaimsLast(zs: seq<Zone>, k: Packet, i: nat)
  {
    i < |zs| && ZoneMatches(zs[i], k) && forall j :: i < j < |zs| ==> !ZoneMatches(zs[j], k)
  }

  lemma {:induction false} LastClaimIsLast(zs: seq<Zone>, k: Packet)
    ensures match LastClaim(zs, k)
      case Main => forall z :: z in zs ==> !ZoneMatches(z, k)
      case Claimed(z) => z in zs && exists i: nat :: ClaimsLast(zs, k, i) && zs[i] == z
  {
    if zs != [] {
      var n := |zs| - 1;
      assert zs == zs[..n] + [zs[n]];
      if ZoneMatches(zs[n], k) {
        assert ClaimsLast(zs, k, n);
      } else {
        LastClaimIsLast(zs[..n], k);
        if LastClaim(zs, k).Claimed? {
          var i: nat :| ClaimsLast(zs[..n], k, i) && zs[..n][i] == LastClaim(zs, k).zone;
          assert ClaimsLast(zs, k, i);
        }
      }
    }
  }

  /** The mark a decision leaves; every other bit stays. */
  function Stamped(mask: Word, d: Decision, s: Marks): Marks {
    if d.Claimed? then s.(mark := (s.mark - mask) + d.zone.mark) else s
  }

  /** A later claim leaves nothing of an earlier one. */
  lemma StampTwice(mask: Word, a: Decision, z: Zone, s: Marks)
    requires a.Claimed? ==> a.zone.mark <= mask
    ensures Stamped(mask, Claimed(z), Stamped(mask, a, s)) == Stamped(mask, Claimed(z), s)
  {
    if a.Claimed? {
      assert ((s.mark - mask) + a.zone.mark) - mask == s.mark - mask;
    }
  }

  // ---- what a plan must satisfy ----

  predicate AnySource(z: Zone) {
    z.srcV4 != [] || z.srcV6 != [] || z.srcMAC != [] || z.srcIface != [] || z.srcPort != []
  }

  ghost predicate GoodZone(z: Zone) {
    (z.srcScoped <==> AnySource(z)) && (HasDest(z) || z.domains != [] || z.srcScoped)
  }

  /** Distinct non-empty marks inside the mask, and every zone with the mark of its egress. */
  ghost predicate GoodShape(pl: Plan) {
    && pl.egresses != [] && pl.egresses[0].kind == WAN
    && (forall e :: e in pl.egresses ==> e.mark != {} && e.mark <= pl.mask)
    && (forall i, j :: 0 <= i < j < |pl.egresses| ==>
          pl.egresses[i].mark != pl.egresses[j].mark && pl.egresses[i].tag != pl.egresses[j].tag)
    && NamesDistinct(pl.zones)
    && (forall z :: z in pl.zones ==> exists e :: e in pl.egresses && e.tag == z.tag && e.mark == z.mark)
  }

  /** The shape every compiled plan has while its marks fit the mask. */
  ghost predicate GoodPlan(pl: Plan) { GoodShape(pl) && forall z :: z in pl.zones ==> GoodZone(z) }

  ghost predicate NoDomains(pl: Plan) {
    forall z :: z in pl.zones ==> z.domains == []
  }

  /** A packet of a fresh flow: no owned bit in its mark. */
  predicate Fresh(pl: Plan, w: Word) { w * pl.mask == {} }

  function WanMark(pl: Plan): Word
    requires pl.egresses != []
  {
    pl.egresses[0].mark
  }

  /** `hasV6Zone`. */
  predicate HasV6Zone(zs: seq<Zone>) {
    exists z :: z in zs && (z.v6 != [] || z.srcV6 != []
      || (z.srcScoped && !HasDest(z) && z.srcV4 == [] && z.srcV6 == []))
  }

  /** `hasV6`: the gate on every IPv6 rule and route. */
  predicate HasV6(pl: Plan) { pl.bypassV6 != [] || HasV6Zone(pl.zones) }

  method HasV6Scan(pl: Plan) returns (b: bool)
    ensures b == HasV6(pl)
  {
    if pl.bypassV6 != [] {
      return true;
    }
    for i := 0 to |pl.zones|
      invariant forall j :: 0 <= j < i ==> !HasV6Zone([pl.zones[j]])
    {
      var z := pl.zones[i];
      assert z in [z];
      if z.v6 != [] || z.srcV6 != [] {
        return true;
      }
      if z.srcScoped && z.v4 == [] && z.v6 == [] && z.srcV4 == [] && z.srcV6 == [] {
        return true;
      }
    }
    b := false;
    forall z | z in pl.zones ensures !HasV6Zone([z]) {
      var j :| 0 <= j < |pl.zones| && pl.zones[j] == z;
    }
    assert forall z :: z in pl.zones ==> z in [z];
  }

  /**
   The lockstep `hasV6` documents: a plan without IPv6 neither bypasses nor claims any IPv6
   packet, so gating the IPv6 rules on it hides no routed packet.
   */
  lemma NoV6NoClaim(pl: Plan, k: Packet)
    requires !HasV6(pl) && k.v6
    ensures !Bypassed(pl, k) && forall z :: z in pl.zones ==> !ZoneMatches(z, k)
  {
    forall z | z in pl.zones ensures !ZoneMatches(z, k) {
      assert !(z.v6 != [] || z.srcV6 != [] || (z.srcScoped && !HasDest(z) && z.srcV4 == [] && z.srcV6 == []));
    }
  }
}
