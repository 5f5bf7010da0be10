/** The tunnel configuration ServiceSinkhole builds (its Builder subclass):
    addresses, routes, DNS servers, MTU and the apps that bypass the tunnel,
    plus the equality that decides between an in-place engine restart and a
    new interface. */
module Tunnel {
  import opened Wrappers
  import opened Settings
  import opened Admission
  import Dns

  /** The recorded fields of a Builder. `network` is the type of the active
      network when the builder was made (None when there was none). */
  datatype Builder = Builder(
    network: Option<int>,
    mtu: int,
    addresses: seq<string>,
    routes: seq<string>,
    dns: seq<InetAddr>,
    disallowed: seq<string>)

  /** Every element of `xs` occurs in `ys` (`List.contains` for each). */
  ghost predicate Covers<T>(xs: seq<T>, ys: seq<T>) {
    forall x :: x in xs ==> x in ys
  }

  /** Builder.equals: both networks known and of the same type, same MTU,
      lists of equal sizes, and every entry of this builder's lists found in
      the other's. A missing previous builder is never equal. */
  ghost predicate SameTunnel(a: Builder, other: Option<Builder>) {
    && other.Some?
    && var b := other.value;
    && a.network.Some? && b.network.Some? && a.network.value == b.network.value
    && a.mtu == b.mtu
    && |a.addresses| == |b.addresses|
    && |a.routes| == |b.routes|
    && |a.dns| == |b.dns|
    && |a.disallowed| == |b.disallowed|
    && Covers(a.addresses, b.addresses)
    && Covers(a.routes, b.routes)
    && Covers(a.dns, b.dns)
    && Covers(a.disallowed, b.disallowed)
  }

  /** The membership loop for one list. */
  method ContainsAll<T(==)>(xs: seq<T>, ys: seq<T>) returns (r: bool)
    ensures r == Covers(xs, ys)
  {
    for i := 0 to |xs|
      invariant forall k :: 0 <= k < i ==> xs[k] in ys
    {
      if xs[i] !in ys {
        return false;
      }
    }
    return true;
  }

  /** Builder.equals, as the read-only comparison it is. */
  method Equals(a: Builder, other: Option<Builder>) returns (eq: bool)
    ensures eq == SameTunnel(a, other)
  {
    if other.None? {
      return false;
    }
    var b := other.value;
    if a.network.None? || b.network.None? || a.network.value != b.network.value {
      return false;
    }
    if a.mtu != b.mtu {
      return false;
    }
    if |a.addresses| != |b.addresses| || |a.routes| != |b.routes| || |a.dns| != |b.dns| || |a.disallowed| != |b.disallowed| {
      return false;
    }
    var ok := ContainsAll(a.addresses, b.addresses);
    if !ok {
      return false;
    }
    ok := ContainsAll(a.routes, b.routes);
    if !ok {
      return false;
    }
    ok := ContainsAll(a.dns, b.dns);
    if !ok {
      return false;
    }
    ok := ContainsAll(a.disallowed, b.disallowed);
    return ok;
  }

  // ---------------------------------------------------------------------
  // Building a configuration

  function TunnelAddresses(p: Prefs): seq<string> {
    [p.vpn4 + "/32"] + (if p.ip6 then [p.vpn6 + "/128"] else [])
  }

  function TunnelRoutes(p: Prefs): seq<string> {
    ["0.0.0.0/0"] + (if p.ip6 then ["2000::/3"] else [])
  }

  /** The servers of `list` of an enabled family, in order. */
  function FamilyFilter(list: seq<InetAddr>, ip6: bool): seq<InetAddr>
    decreases |list|
  {
    if list == [] then []
    else FamilyFilter(list[..|list| - 1], ip6) + (if ip6 || list[|list| - 1].isV4 then [list[|list| - 1]] else [])
  }

  /** What getDns returns for these inputs. Note that it reads "filter" with
      default false, whereas getBuilder reads it with default true. */
  function SelectedDns(p: Prefs, dev: Device): seq<InetAddr> {
    Dns.SelectDns(p.dns1, p.dns2, dev.systemDns, dev.subnets, p.ip6, p.lan, FilterOr(p, false) && p.useHosts)
  }

  function PackageNames(rules: seq<Rule>): seq<string>
    decreases |rules|
  {
    if rules == [] then [] else PackageNames(rules[..|rules| - 1]) + [rules[|rules| - 1].packageName]
  }

  /** Installed apps and apps named by a rule, without the service itself. */
  function AllApps(rules: seq<Rule>, dev: Device): set<string> {
    ((set a | a in dev.apps) + (set r | r in rules :: r.packageName)) - {dev.ownPackage}
  }

  ghost predicate NoDuplicates<T>(s: seq<T>) {
    forall i, j :: 0 <= i < j < |s| ==> s[i] != s[j]
  }

  /** The disallowed (tunnel-bypassing) apps: none before Lollipop; otherwise
      the service itself first, then the allowed apps when connected without
      filtering, or with filtering every known app that is not routed through
      the tunnel, each once, in any order. */
  ghost predicate DisallowedFor(d: seq<string>, allowed: seq<Rule>, rules: seq<Rule>, p: Prefs, dev: Device, lastConnected: bool) {
    var filter := FilterOr(p, true);
    if dev.sdk < Lollipop then d == []
    else
      && |d| >= 1 && d[0] == dev.ownPackage
      && if lastConnected && !filter then d[1..] == PackageNames(allowed)
         else if filter then
           && NoDuplicates(d)
           && forall x :: x in d[1..] <==> x in AllApps(rules, dev) && x !in dev.prifiApps
         else d[1..] == []
  }

  /** What getBuilder produces for a cycle. */
  ghost predicate BuiltFor(b: Builder, allowed: seq<Rule>, rules: seq<Rule>, p: Prefs, dev: Device, lastConnected: bool) {
    && b.network == dev.networkType
    && b.mtu == dev.mtu
    && b.addresses == TunnelAddresses(p)
    && b.routes == TunnelRoutes(p)
    && b.dns == (if FilterOr(p, true) then SelectedDns(p, dev) else [])
    && DisallowedFor(b.disallowed, allowed, rules, p, dev, lastConnected)
  }

  method FamilyFilterLoop(list: seq<InetAddr>, ip6: bool) returns (r: seq<InetAddr>)
    ensures r == FamilyFilter(list, ip6)
  {
    r := [];
    for i := 0 to |list|
      invariant r == FamilyFilter(list[..i], ip6)
    {
      assert list[..i + 1][..i] == list[..i];
      if ip6 || list[i].isV4 {
        r := r + [list[i]];
      }
    }
    assert list[..|list|] == list;
  }

  method AllowedNamesLoop(allowed: seq<Rule>) returns (names: seq<string>)
    ensures names == PackageNames(allowed)
  {
    names := [];
    for i := 0 to |allowed|
      invariant names == PackageNames(allowed[..i])
    {
      assert allowed[..i + 1][..i] == allowed[..i];
      names := names + [allowed[i].packageName];
    }
    assert allowed[..|allowed|] == allowed;
  }

  /** The loop over the (unordered) set of all apps, skipping routed ones. */
  method BypassLoop(own: string, allApps: set<string>, prifiApps: set<string>) returns (d: seq<string>)
    requires own !in allApps
    ensures |d| >= 1 && d[0] == own
    ensures NoDuplicates(d)
    ensures forall x :: x in d[1..] <==> x in allApps && x !in prifiApps
  {
    d := [own];
    var remaining := allApps;
    while remaining != {}
      invariant remaining <= allApps
      invariant |d| >= 1 && d[0] == own
      invariant NoDuplicates(d)
      invariant forall x :: x in d[1..] <==> x in allApps - remaining && x !in prifiApps
      decreases remaining
    {
      var pkg :| pkg in remaining;
      remaining := remaining - {pkg};
      if pkg !in prifiApps {
        assert pkg !in d;
        d := d + [pkg];
        assert d[1..] == d[..|d| - 1][1..] + [pkg];
      }
    }
  }

  /** getBuilder. */
  method GetBuilder(allowed: seq<Rule>, rules: seq<Rule>, p: Prefs, dev: Device, lastConnected: bool)
    returns (b: Builder)
    ensures BuiltFor(b, allowed, rules, p, dev, lastConnected)
  {
    var ip6 := p.ip6;
    var filter := FilterOr(p, true);
    var addresses := [p.vpn4 + "/32"];
    if ip6 {
      addresses := addresses + [p.vpn6 + "/128"];
    }
    var dns := [];
    if filter {
      var selected := Dns.GetDns(p.dns1, p.dns2, dev.systemDns, dev.subnets, ip6, p.lan, FilterOr(p, false) && p.useHosts);
      dns := FamilyFilterLoop(selected, ip6);
      SelectedDnsUsable(p, dev);
      FamilyFilterUsable(selected, ip6);
    }
    var routes := ["0.0.0.0/0"];
    if ip6 {
      routes := routes + ["2000::/3"];
    }
    var disallowed := [];
    if dev.sdk >= Lollipop {
      if lastConnected && !filter {
        var names := AllowedNamesLoop(allowed);
        disallowed := [dev.ownPackage] + names;
      } else if filter {
        disallowed := BypassLoop(dev.ownPackage, AllApps(rules, dev), dev.prifiApps);
      } else {
        disallowed := [dev.ownPackage];
      }
    }
    b := Builder(dev.networkType, dev.mtu, addresses, routes, dns, disallowed);
  }

  // ---------------------------------------------------------------------
  // Properties

  lemma {:induction false} FamilyFilterIdentity(list: seq<InetAddr>, ip6: bool)
    requires forall d :: d in list ==> ip6 || d.isV4
    ensures FamilyFilter(list, ip6) == list
    decreases |list|
  {
    if list != [] {
      var n := |list| - 1;
      FamilyFilterIdentity(list[..n], ip6);
      assert list == list[..n] + [list[n]];
    }
  }

  /** The family check getBuilder repeats on getDns's result removes nothing. */
  lemma FamilyFilterUsable(selected: seq<InetAddr>, ip6: bool)
    requires forall d :: d in selected ==> Dns.Usable(d, ip6)
    ensures FamilyFilter(selected, ip6) == selected
  {
    FamilyFilterIdentity(selected, ip6);
  }

  lemma SelectedDnsUsable(p: Prefs, dev: Device)
    ensures forall d :: d in SelectedDns(p, dev) ==> Dns.Usable(d, p.ip6)
  {
    Dns.SelectDnsUsable(p.dns1, p.dns2, dev.systemDns, dev.subnets, p.ip6, p.lan, FilterOr(p, false) && p.useHosts);
  }

  /** A configuration with a known network equals itself. */
  lemma SameTunnelReflexive(a: Builder)
    requires a.network.Some?
    ensures SameTunnel(a, Some(a))
  {
  }

  lemma {:induction false} NoDuplicatesCard<T>(s: seq<T>)
    requires NoDuplicates(s)
    ensures |set x | x in s| == |s|
    decreases |s|
  {
    if s != [] {
      var n := |s| - 1;
      assert NoDuplicates(s[..n]);
      NoDuplicatesCard(s[..n]);
      assert (set x | x in s) == (set x | x in s[..n]) + {s[n]};
      assert s[n] !in (set x | x in s[..n]);
    }
  }

  /** For duplicate-free lists of equal length, one-way containment is set
      equality, so it holds the other way too. */
  lemma CoversSameSize<T>(xs: seq<T>, ys: seq<T>)
    requires NoDuplicates(xs) && NoDuplicates(ys) && |xs| == |ys| && Covers(xs, ys)
    ensures Covers(ys, xs)
  {
    NoDuplicatesCard(xs);
    NoDuplicatesCard(ys);
    var sx, sy := set x | x in xs, set y | y in ys;
    assert sx <= sy;
    forall y | y in ys ensures y in xs {
      if y !in xs {
        assert y in sy - sx;
        assert sx <= sy - {y};
        assert |sy - {y}| == |sy| - 1;
        SubsetCard(sx, sy - {y});
        assert false;
      }
    }
  }

  lemma SubsetCard<T>(a: set<T>, b: set<T>)
    requires a <= b
    ensures |a| <= |b|
  {
    assert b == a + (b - a);
  }

  ghost predicate DuplicateFree(a: Builder) {
    NoDuplicates(a.addresses) && NoDuplicates(a.routes) && NoDuplicates(a.dns) && NoDuplicates(a.disallowed)
  }

  /** On duplicate-free lists the builder equality is symmetric. */
  lemma SameTunnelSymmetric(a: Builder, b: Builder)
    requires DuplicateFree(a) && DuplicateFree(b)
    requires SameTunnel(a, Some(b))
    ensures SameTunnel(b, Some(a))
  {
    CoversSameSize(a.addresses, b.addresses);
    CoversSameSize(a.routes, b.routes);
    CoversSameSize(a.dns, b.dns);
    CoversSameSize(a.disallowed, b.disallowed);
  }

  /** With a repeated entry (the same server configured as "dns" and
      "dns2"), the comparison is not symmetric: a configuration can compare
      equal to one with a server it lacks. */
  lemma SameTunnelAsymmetricWithDuplicates(x: InetAddr, y: InetAddr, a: Builder)
    requires x != y && a.network.Some?
    ensures var a1 := a.(dns := [x, x]);
            var a2 := a.(dns := [x, y]);
            SameTunnel(a1, Some(a2)) && !SameTunnel(a2, Some(a1))
  {
    var a1 := a.(dns := [x, x]);
    var a2 := a.(dns := [x, y]);
    assert y in a2.dns && y !in a1.dns;
  }

  /** Reload idempotence of the configuration: two builders made for the same
      inputs on a known network compare equal, whatever order the set of
      bypassing apps was visited in. */
  lemma BuildersForSameInputsEqual(b1: Builder, b2: Builder, allowed: seq<Rule>, rules: seq<Rule>, p: Prefs, dev: Device, lastConnected: bool)
    requires BuiltFor(b1, allowed, rules, p, dev, lastConnected)
    requires BuiltFor(b2, allowed, rules, p, dev, lastConnected)
    requires dev.networkType.Some?
    ensures SameTunnel(b1, Some(b2))
  {
    var filter := FilterOr(p, true);
    if dev.sdk >= Lollipop && !(lastConnected && !filter) && filter {
      var d1, d2 := b1.disallowed, b2.disallowed;
      var s1, s2 := set x | x in d1, set x | x in d2;
      assert s1 == s2 by {
        forall x ensures x in s1 <==> x in s2 {
          if x != dev.ownPackage {
            assert x in d1 <==> x in d1[1..] by { assert d1 == [d1[0]] + d1[1..]; }
            assert x in d2 <==> x in d2[1..] by { assert d2 == [d2[0]] + d2[1..]; }
          }
        }
      }
      NoDuplicatesCard(d1);
      NoDuplicatesCard(d2);
      assert Covers(d1, d2) by {
        forall x | x in d1 ensures x in d2 { assert x in s1; }
      }
    }
  }
}
