/**
 Where the two renderings of source matchers part: `srcMatchPrefix` puts every interface and
 MAC entry into an nft set, while `iptablesSourceMatchCombos` drops the whole condition for a
 blank entry. `Validate` lets blanks through next to real entries, so the exact condition
 for agreement is stated and proved here. A blank that is the first MAC entry has a coarser
 effect on the nft plane: its set is printed with nothing before the first comma, and the
 ruleset does not load.
 */
module SourceMatching {
  import opened Compile
  import opened Datapath
  import opened Iptables
  import opened PolicyRouting
  import opened ApplyTeardown
  import Nftables

  /** An interface entry `Validate` accepts: blank, or a name without plus and not a bare star. */
  predicate AcceptedIface(n: string) { n == "" || ('+' !in n && n != "*") }

  predicate SourceOk(z: Zone, k: Packet) { IfaceOk(z, k) && MacOk(z, k) && PortOk(z, k) }

  ghost predicate RenderingsAgree(z: Zone, sets: Sets, s: Marks) {
    forall k :: AnyOf(Combos(z), sets, k, s) <==> SourceOk(z, k)
  }

  lemma AnyCombo(z: Zone, sets: Sets, k: Packet, s: Marks)
    ensures AnyOf(Combos(z), sets, k, s) <==>
      AnyOf(IfaceAlternatives(z.srcIface), sets, k, s) && AnyOf(MacAlternatives(z.srcMAC), sets, k, s) && PortOk(z, k)
  {
    ProductAny(Product(IfaceAlternatives(z.srcIface), MacAlternatives(z.srcMAC)), PortAlternatives(z.srcPort),
               sets, k, s);
    ProductAny(IfaceAlternatives(z.srcIface), MacAlternatives(z.srcMAC), sets, k, s);
    PortAny(z, sets, k, s);
  }

  function SomeIface(names: seq<string>): string {
    if names == [] then "" else if EndsWith(names[0], '*') then names[0][..|names[0]| - 1] else names[0]
  }

  lemma FirstAlternatives(z: Zone, sets: Sets, k: Packet, s: Marks)
    requires forall n :: n in z.srcIface ==> AcceptedIface(n)
    ensures k.iif == SomeIface(z.srcIface) ==> AnyOf(IfaceAlternatives(z.srcIface), sets, k, s)
    ensures z.srcMAC != [] && k.mac == z.srcMAC[0] ==> AnyOf(MacAlternatives(z.srcMAC), sets, k, s)
    ensures z.srcMAC == [] ==> AnyOf(MacAlternatives(z.srcMAC), sets, k, s)
  {
    var ia, ma := IfaceAlternatives(z.srcIface), MacAlternatives(z.srcMAC);
    assert ia[0] in ia && ma[0] in ma;
    if z.srcIface != [] && z.srcIface[0] != "" && k.iif == SomeIface(z.srcIface) {
      assert z.srcIface[0] in z.srcIface;
      assert !EndsWith(z.srcIface[0], '+');
      TranslateMatches(z.srcIface[0], k.iif);
    }
  }

  lemma {:induction false} UnusedText(ss: seq<string>) returns (t: string)
    ensures |t| > 0 && forall s :: s in ss ==> |s| < |t|
  {
    if ss == [] {
      t := "x";
    } else {
      var r := UnusedText(ss[1..]);
      t := r + ss[0];
      assert ss == [ss[0]] + ss[1..];
    }
  }

  function Witness(z: Zone, iif: string, mac: string): Packet {
    Packet(false, 0, 0, iif, mac, TCP, if z.srcPort == [] then 0 else z.srcPort[0], 0, {})
  }

  /** nft takes a blank name for one no interface has; the other plane drops the condition. */
  lemma BlankIfaceDisagrees(z: Zone, sets: Sets, s: Marks)
    requires (forall n :: n in z.srcIface ==> AcceptedIface(n)) && "" in z.srcIface
    ensures !RenderingsAgree(z, sets, s)
  {
    var k := Witness(z, "+", if z.srcMAC == [] then "" else z.srcMAC[0]);
    BlankAlternative(z.srcIface, z.srcMAC, sets, k, s);
    FirstAlternatives(z, sets, k, s);
    AnyCombo(z, sets, k, s);
    forall n | n in z.srcIface ensures !IfaceMatches(n, k.iif) {
      if EndsWith(n, '*') { assert n[..|n| - 1] != [] && n[0] != '+'; }
    }
    assert !SourceOk(z, k);
  }

  /**
   Where the ruleset loads, a blank MAC entry stands after a real one; nft then matches the
   real addresses only, and the other plane every address.
   */
  lemma BlankMacDisagrees(z: Zone, sets: Sets, s: Marks)
    requires (forall n :: n in z.srcIface ==> AcceptedIface(n)) && "" in z.srcMAC
    ensures !RenderingsAgree(z, sets, s)
  {
    var mac := UnusedText(z.srcMAC);
    var k := Witness(z, SomeIface(z.srcIface), mac);
    BlankAlternative(z.srcIface, z.srcMAC, sets, k, s);
    FirstAlternatives(z, sets, k, s);
    AnyCombo(z, sets, k, s);
    assert !SourceOk(z, k);
  }

  lemma BlankRefuses(pl: Plan, z: Zone)
    requires z in pl.zones && Nftables.BlankZone(pl.mask, z)
    ensures !Nftables.Loads(Nftables.Chain(pl))
  {
    Nftables.ChainLoadsIff(pl);
  }

  /** With a blank first MAC entry in any zone that prints lines, `Apply` fails before it changes anything. */
  lemma BlankMacRefused(pl: Plan, o: Options, k: Kernel, z: Zone)
    requires z in pl.zones && Nftables.ZoneLines(pl.mask, z) != [] && z.srcMAC != [] && z.srcMAC[0] == ""
    ensures ApplyResult(pl, o, k) == Ran(k, false)
  {
    BlankRefuses(pl, z);
    RefusedLoad(pl, o, k);
  }

  /**
   Over validated entries, the nft set semantics and the iptables rendering of a zone's source
   matchers accept the same packets if and only if no interface and no MAC entry is blank.
   */
  lemma RenderingsAgreeIffNoBlank(z: Zone, sets: Sets, s: Marks)
    requires forall n :: n in z.srcIface ==> AcceptedIface(n)
    ensures RenderingsAgree(z, sets, s) <==> "" !in z.srcIface && "" !in z.srcMAC
  {
    if "" in z.srcIface {
      BlankIfaceDisagrees(z, sets, s);
    } else if "" in z.srcMAC {
      BlankMacDisagrees(z, sets, s);
    } else {
      forall k ensures AnyOf(Combos(z), sets, k, s) <==> SourceOk(z, k) {
        assert Loose(z) == z;
        CombosAny(z, sets, k, s);
      }
    }
  }
}
