/** Splitting a challenge's resolved FQDN into the record name and the domain that
    the LiveDNS API is addressed with (`getDomainAndChallengeFQDN`). */
module ChallengeNames {
  import opened GoStrings

  /** The record name relative to the zone (`challengeFQDN` in the solver) and the
      zone without its trailing dot (`domain`). */
  datatype ChallengeName = ChallengeName(entry: string, domain: string)

  /** Both inputs normally end with '.'; the split is suffix removal and nothing else. */
  function SplitChallengeFqdn(fqdn: string, zone: string): (r: ChallengeName)
    ensures |r.entry| <= |fqdn|
    ensures |zone| - 1 <= |r.domain| <= |zone|
  {
    ChallengeName(TrimSuffix(TrimSuffix(fqdn, zone), "."), TrimSuffix(zone, "."))
  }

  /** The record name is a prefix of the FQDN; the domain is the zone minus at most one
      dot, and is the zone itself exactly when the zone has no trailing dot. */
  lemma SplitBounds(fqdn: string, zone: string)
    ensures var r := SplitChallengeFqdn(fqdn, zone);
            && r.entry <= fqdn && r.domain <= zone
            && |zone| - 1 <= |r.domain| <= |zone|
            && (r.domain == zone <==> !HasSuffix(zone, "."))
  {
    var inner := TrimSuffix(fqdn, zone);
    assert TrimSuffix(inner, ".") <= inner <= fqdn;
    if HasSuffix(zone, ".") {
      assert |TrimSuffix(zone, ".")| == |zone| - 1;
    }
  }

  /** Splitting `<x>.<zone>` and joining the record name, a dot and the zone gives the
      FQDN back. */
  lemma SplitRecomposes(fqdn: string, zone: string)
    requires HasSuffix(fqdn, "." + zone)
    ensures SplitChallengeFqdn(fqdn, zone).entry + "." + zone == fqdn
  {
    RecomposeEntry(fqdn, zone);
  }

  /** When the FQDN is `<entry>.<zone>`, the two trims give back `<entry>`. */
  lemma RecomposeEntry(fqdn: string, zone: string)
    requires HasSuffix(fqdn, "." + zone)
    ensures TrimSuffix(TrimSuffix(fqdn, zone), ".") + "." + zone == fqdn
  {
    var name := fqdn[..|fqdn| - |zone| - 1];
    assert fqdn == name + "." + zone by {
      assert fqdn[|fqdn| - |zone| - 1..] == "." + zone;
    }
    SplitDecomposition(name, zone);
  }

  /** A challenge name `<name>.<zone>` splits into `name` and the dot-less zone. */
  lemma SplitDecomposition(name: string, zone: string)
    ensures TrimSuffix(TrimSuffix(name + "." + zone, zone), ".") == name
  {
    TrimSuffixOnce(name + ".", zone);
    TrimSuffixOnce(name, ".");
  }

  /** The general decomposition: the record name and the zone with its trailing dot removed. */
  lemma SplitNameAndZone(name: string, zone: string)
    requires HasSuffix(zone, ".")
    ensures SplitChallengeFqdn(name + "." + zone, zone) == ChallengeName(name, zone[..|zone| - 1])
  {
    SplitDecomposition(name, zone);
  }

  /** The worked example of the solver's own comment and of the DNS-01 owner name. */
  lemma SplitAcmeChallenge()
    ensures SplitChallengeFqdn("_acme-challenge.example.com.", "example.com.")
         == ChallengeName("_acme-challenge", "example.com")
  {
    assert "_acme-challenge.example.com." == "_acme-challenge" + "." + "example.com.";
    SplitNameAndZone("_acme-challenge", "example.com.");
  }

  /** An FQDN outside the zone is kept, minus at most one trailing dot, and the zone
      loses at most one dot. */
  lemma SplitOutsideZone(fqdn: string, zone: string)
    requires !HasSuffix(fqdn, zone)
    ensures var r := SplitChallengeFqdn(fqdn, zone);
            (r.entry == fqdn && !HasSuffix(fqdn, "."))
            || (r.entry + "." == fqdn)
    ensures |SplitChallengeFqdn(fqdn, zone).domain| <= |zone|
  {
  }

  /** A challenge at the zone apex leaves an empty record name. */
  lemma SplitApex(zone: string)
    ensures SplitChallengeFqdn(zone, zone).entry == ""
  {
    assert zone[|zone| - |zone|..] == zone;
  }
}
