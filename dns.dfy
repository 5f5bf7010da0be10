/** DNS server selection of ServiceSinkhole (getDns): up to two custom
    servers, backfilled from the system list when fewer than two are usable,
    and local-subnet servers swapped for public resolvers when LAN routing and
    hosts blocking are both on. */
module Dns {
  import opened Wrappers
  import opened Settings

  /** A server is usable when it is neither a loopback nor the any-local
      address, and it is IPv4 unless IPv6 is enabled. */
  predicate Usable(d: InetAddr, ip6: bool) {
    !(d.isLoopback || d.isAnyLocal) && (ip6 || d.isV4)
  }

  /** The public resolvers used as replacements. */
  const PublicV4a: InetAddr := InetAddr("8.8.8.8", true, false, false)
  const PublicV4b: InetAddr := InetAddr("8.8.4.4", true, false, false)
  const PublicV6a: InetAddr := InetAddr("2001:4860:4860::8888", false, false, false)
  const PublicV6b: InetAddr := InetAddr("2001:4860:4860::8844", false, false, false)

  predicate IsPublicResolver(d: InetAddr) {
    d == PublicV4a || d == PublicV4b || d == PublicV6a || d == PublicV6b
  }

  /** The usable custom servers, "dns" before "dns2". */
  function CustomServers(dns1: Option<InetAddr>, dns2: Option<InetAddr>, ip6: bool): (r: seq<InetAddr>)
    ensures |r| <= 2
    ensures forall d :: d in r ==> Usable(d, ip6)
    ensures forall d :: d in r <==> (dns1 == Some(d) || dns2 == Some(d)) && Usable(d, ip6)
  {
    (if dns1.Some? && Usable(dns1.value, ip6) then [dns1.value] else [])
      + (if dns2.Some? && Usable(dns2.value, ip6) then [dns2.value] else [])
  }

  /** Appending the usable system servers, in order, that are not listed yet. */
  function Backfill(acc: seq<InetAddr>, sys: seq<InetAddr>, ip6: bool): seq<InetAddr>
    decreases |sys|
  {
    if sys == [] then acc
    else
      var prev := Backfill(acc, sys[..|sys| - 1], ip6);
      var d := sys[|sys| - 1];
      if d !in prev && Usable(d, ip6) then prev + [d] else prev
  }

  /** The servers of `list` that lie in subnet `s`, in list order. */
  function InSubnet(list: seq<InetAddr>, s: set<InetAddr>): seq<InetAddr>
    decreases |list|
  {
    if list == [] then []
    else InSubnet(list[..|list| - 1], s) + (if list[|list| - 1] in s then [list[|list| - 1]] else [])
  }

  /** The local servers, one entry per (interface address, matching server):
      interfaces outermost, as the enumeration visits them. */
  function LocalServers(list: seq<InetAddr>, subnets: seq<set<InetAddr>>): seq<InetAddr>
    decreases |subnets|
  {
    if subnets == [] then []
    else LocalServers(list, subnets[..|subnets| - 1]) + InSubnet(list, subnets[|subnets| - 1])
  }

  /** `List.remove(Object)`: drop the first occurrence, if any. */
  function RemoveFirst(s: seq<InetAddr>, x: InetAddr): (r: seq<InetAddr>)
    ensures multiset(r) == multiset(s) - multiset{x}
    ensures x !in s ==> r == s
  {
    if s == [] then []
    else
      assert s == [s[0]] + s[1..];
      if s[0] == x then s[1..] else [s[0]] + RemoveFirst(s[1..], x)
  }

  /** The list being rewritten and the replacement resolvers still unused. */
  datatype SwapState = SwapState(dns: seq<InetAddr>, pool4: seq<InetAddr>, pool6: seq<InetAddr>)

  /** One local server removed and, while the pool of its family lasts,
      replaced by the next public resolver of that family. */
  function SwapStep(st: SwapState, d: InetAddr): SwapState {
    var rest := RemoveFirst(st.dns, d);
    if d.isV4 then
      if |st.pool4| > 0 then SwapState(rest + [st.pool4[0]], st.pool4[1..], st.pool6)
      else SwapState(rest, st.pool4, st.pool6)
    else
      if |st.pool6| > 0 then SwapState(rest + [st.pool6[0]], st.pool4, st.pool6[1..])
      else SwapState(rest, st.pool4, st.pool6)
  }

  function Swap(st: SwapState, local: seq<InetAddr>): SwapState
    decreases |local|
  {
    if local == [] then st
    else SwapStep(Swap(st, local[..|local| - 1]), local[|local| - 1])
  }

  /** The list before the local-server step. */
  function BaseServers(dns1: Option<InetAddr>, dns2: Option<InetAddr>, sys: seq<InetAddr>, ip6: bool): seq<InetAddr> {
    var custom := CustomServers(dns1, dns2, ip6);
    if |custom| <= 1 then Backfill(custom, sys, ip6) else custom
  }

  function InitialPools(ip6: bool): SwapState {
    SwapState([], [PublicV4a, PublicV4b], if ip6 then [PublicV6a, PublicV6b] else [])
  }

  /** The whole selection; `useHosts` is "filter" (default false) and
      "use_hosts" together. */
  function SelectDns(dns1: Option<InetAddr>, dns2: Option<InetAddr>, sys: seq<InetAddr>,
                     subnets: seq<set<InetAddr>>, ip6: bool, lan: bool, useHosts: bool): seq<InetAddr>
  {
    var base := BaseServers(dns1, dns2, sys, ip6);
    if lan && useHosts then Swap(InitialPools(ip6).(dns := base), LocalServers(base, subnets)).dns
    else base
  }

  /** The system-server backfill loop of getDns. */
  method BackfillLoop(custom: seq<InetAddr>, sys: seq<InetAddr>, ip6: bool) returns (listDns: seq<InetAddr>)
    ensures listDns == Backfill(custom, sys, ip6)
  {
    listDns := custom;
    for i := 0 to |sys|
      invariant listDns == Backfill(custom, sys[..i], ip6)
    {
      assert sys[..i + 1][..i] == sys[..i];
      var ddns := sys[i];
      if ddns !in listDns && !(ddns.isLoopback || ddns.isAnyLocal) && (ip6 || ddns.isV4) {
        listDns := listDns + [ddns];
      }
    }
    assert sys[..|sys|] == sys;
  }

  /** The interface enumeration of getDns: which selected servers are local. */
  method LocalServersLoop(listDns: seq<InetAddr>, subnets: seq<set<InetAddr>>) returns (listLocal: seq<InetAddr>)
    ensures listLocal == LocalServers(listDns, subnets)
  {
    listLocal := [];
    for j := 0 to |subnets|
      invariant listLocal == LocalServers(listDns, subnets[..j])
    {
      assert subnets[..j + 1][..j] == subnets[..j];
      var hits := [];
      for k := 0 to |listDns|
        invariant hits == InSubnet(listDns[..k], subnets[j])
      {
        assert listDns[..k + 1][..k] == listDns[..k];
        if listDns[k] in subnets[j] {
          hits := hits + [listDns[k]];
        }
      }
      assert listDns[..|listDns|] == listDns;
      listLocal := listLocal + hits;
    }
    assert subnets[..|subnets|] == subnets;
  }

  /** The replacement loop of getDns. */
  method SwapLoop(base: seq<InetAddr>, listLocal: seq<InetAddr>, ip6: bool) returns (listDns: seq<InetAddr>)
    ensures listDns == Swap(InitialPools(ip6).(dns := base), listLocal).dns
  {
    listDns := base;
    var listDns4 := [PublicV4a, PublicV4b];
    var listDns6 := if ip6 then [PublicV6a, PublicV6b] else [];
    for j := 0 to |listLocal|
      invariant SwapState(listDns, listDns4, listDns6) == Swap(InitialPools(ip6).(dns := base), listLocal[..j])
    {
      assert listLocal[..j + 1][..j] == listLocal[..j];
      var dns := listLocal[j];
      listDns := RemoveFirst(listDns, dns);
      if dns.isV4 {
        if |listDns4| > 0 {
          listDns := listDns + [listDns4[0]];
          listDns4 := listDns4[1..];
        }
      } else {
        if |listDns6| > 0 {
          listDns := listDns + [listDns6[0]];
          listDns6 := listDns6[1..];
        }
      }
    }
    assert listLocal[..|listLocal|] == listLocal;
  }

  /** getDns. */
  method GetDns(dns1: Option<InetAddr>, dns2: Option<InetAddr>, sys: seq<InetAddr>,
                subnets: seq<set<InetAddr>>, ip6: bool, lan: bool, useHosts: bool)
    returns (listDns: seq<InetAddr>)
    ensures listDns == SelectDns(dns1, dns2, sys, subnets, ip6, lan, useHosts)
  {
    listDns := [];
    if dns1.Some? && !(dns1.value.isLoopback || dns1.value.isAnyLocal) && (ip6 || dns1.value.isV4) {
      listDns := listDns + [dns1.value];
    }
    if dns2.Some? && !(dns2.value.isLoopback || dns2.value.isAnyLocal) && (ip6 || dns2.value.isV4) {
      listDns := listDns + [dns2.value];
    }
    assert listDns == CustomServers(dns1, dns2, ip6);
    if |listDns| <= 1 {
      listDns := BackfillLoop(listDns, sys, ip6);
    }
    if lan && useHosts {
      var listLocal := LocalServersLoop(listDns, subnets);
      listDns := SwapLoop(listDns, listLocal, ip6);
    }
  }

  // ---------------------------------------------------------------------
  // Properties of the selection

  lemma {:induction false} BackfillShape(acc: seq<InetAddr>, sys: seq<InetAddr>, ip6: bool)
    ensures var r := Backfill(acc, sys, ip6);
      && acc <= r
      && (forall i :: |acc| <= i < |r| ==> r[i] in sys && Usable(r[i], ip6) && r[i] !in r[..i])
    decreases |sys|
  {
    if sys != [] {
      var init := sys[..|sys| - 1];
      BackfillShape(acc, init, ip6);
      var prev := Backfill(acc, init, ip6);
      var r := Backfill(acc, sys, ip6);
      forall i | |acc| <= i < |prev| ensures prev[i] in sys {
        assert prev[i] in init;
      }
      if r != prev {
        assert r == prev + [sys[|sys| - 1]];
        assert r[..|prev|] == prev;
      }
    }
  }

  /** The pre-swap list: the usable custom servers first; the system list is
      consulted only when at most one custom server is usable, and then adds
      usable system servers, each once and none already listed. */
  lemma BaseShape(dns1: Option<InetAddr>, dns2: Option<InetAddr>, sys: seq<InetAddr>, ip6: bool)
    ensures var custom := CustomServers(dns1, dns2, ip6);
            var base := BaseServers(dns1, dns2, sys, ip6);
      && custom <= base
      && (|custom| == 2 ==> base == custom)
      && (forall i :: |custom| <= i < |base| ==> base[i] in sys && Usable(base[i], ip6) && base[i] !in base[..i])
  {
    BackfillShape(CustomServers(dns1, dns2, ip6), sys, ip6);
  }

  lemma BaseUsable(dns1: Option<InetAddr>, dns2: Option<InetAddr>, sys: seq<InetAddr>, ip6: bool)
    ensures forall d :: d in BaseServers(dns1, dns2, sys, ip6) ==> Usable(d, ip6)
  {
    var custom := CustomServers(dns1, dns2, ip6);
    var base := BaseServers(dns1, dns2, sys, ip6);
    BaseShape(dns1, dns2, sys, ip6);
    forall d | d in base ensures Usable(d, ip6) {
      var i :| 0 <= i < |base| && base[i] == d;
      if i < |custom| {
        assert base[i] == custom[i];
      }
    }
  }

  /** Every server in the state and in its pools is usable. */
  ghost predicate AllUsable(st: SwapState, ip6: bool) {
    forall d :: (d in st.dns || d in st.pool4 || d in st.pool6) ==> Usable(d, ip6)
  }

  /** The pools hold public resolvers only, v4 ones in pool4 and v6 ones in pool6. */
  ghost predicate PoolsPublic(st: SwapState) {
    && (forall d :: d in st.pool4 ==> IsPublicResolver(d) && d.isV4)
    && (forall d :: d in st.pool6 ==> IsPublicResolver(d) && !d.isV4)
  }

  lemma RemoveFirstSubset(s: seq<InetAddr>, x: InetAddr)
    ensures forall y :: y in RemoveFirst(s, x) ==> y in s
  {
    var r := RemoveFirst(s, x);
    forall y | y in r ensures y in s {
      assert y in multiset(r);
    }
  }

  lemma SwapStepKeeps(st: SwapState, d: InetAddr, ip6: bool)
    requires PoolsPublic(st)
    ensures PoolsPublic(SwapStep(st, d))
    ensures AllUsable(st, ip6) ==> AllUsable(SwapStep(st, d), ip6)
    ensures forall x :: !IsPublicResolver(x) ==>
              multiset(SwapStep(st, d).dns)[x] == multiset(RemoveFirst(st.dns, d))[x]
  {
    var rest := RemoveFirst(st.dns, d);
    RemoveFirstSubset(st.dns, d);
    var next := SwapStep(st, d);
    if d.isV4 && |st.pool4| > 0 {
      var g := st.pool4[0];
      assert next == SwapState(rest + [g], st.pool4[1..], st.pool6);
      assert IsPublicResolver(g);
      assert multiset(next.dns) == multiset(rest) + multiset{g};
    } else if !d.isV4 && |st.pool6| > 0 {
      var g := st.pool6[0];
      assert next == SwapState(rest + [g], st.pool4, st.pool6[1..]);
      assert IsPublicResolver(g);
      assert multiset(next.dns) == multiset(rest) + multiset{g};
    } else {
      assert next == SwapState(rest, st.pool4, st.pool6);
    }
  }

  /** A local server is replaced by the next public resolver of its own
      family while that family's pool lasts, and only removed once it is
      empty. */
  lemma SwapStepSameFamily(st: SwapState, d: InetAddr)
    requires PoolsPublic(st)
    ensures (if d.isV4 then st.pool4 else st.pool6) == [] ==> SwapStep(st, d).dns == RemoveFirst(st.dns, d)
    ensures (if d.isV4 then st.pool4 else st.pool6) != [] ==>
              var next := SwapStep(st, d).dns;
              && |next| == |RemoveFirst(st.dns, d)| + 1
              && next[..|next| - 1] == RemoveFirst(st.dns, d)
              && next[|next| - 1].isV4 == d.isV4
              && IsPublicResolver(next[|next| - 1])
  {
  }

  /** Counting argument for the swap: a non-public server keeps as many copies
      as it had, less the number of times it was reported local (never below
      zero). */
  lemma {:induction false} SwapInvariant(st: SwapState, local: seq<InetAddr>, ip6: bool)
    requires PoolsPublic(st)
    ensures PoolsPublic(Swap(st, local))
    ensures AllUsable(st, ip6) ==> AllUsable(Swap(st, local), ip6)
    ensures forall x :: !IsPublicResolver(x) ==>
              multiset(Swap(st, local).dns)[x] ==
                if multiset(st.dns)[x] >= multiset(local)[x] then multiset(st.dns)[x] - multiset(local)[x] else 0
    decreases |local|
  {
    if local != [] {
      var n := |local| - 1;
      var d := local[n];
      var prev := Swap(st, local[..n]);
      SwapInvariant(st, local[..n], ip6);
      SwapStepKeeps(prev, d, ip6);
      assert local == local[..n] + [d];
      assert multiset(local) == multiset(local[..n]) + multiset{d};
    }
  }

  lemma {:induction false} InSubnetCount(list: seq<InetAddr>, s: set<InetAddr>, x: InetAddr)
    ensures multiset(InSubnet(list, s))[x] == if x in s then multiset(list)[x] else 0
    decreases |list|
  {
    if list != [] {
      var n := |list| - 1;
      InSubnetCount(list[..n], s, x);
      assert list == list[..n] + [list[n]];
    }
  }

  /** A server inside one of the subnets is reported local at least as many
      times as it occurs in the list. */
  lemma {:induction false} LocalServersCount(list: seq<InetAddr>, subnets: seq<set<InetAddr>>, i: nat, x: InetAddr)
    requires i < |subnets| && x in subnets[i]
    ensures multiset(LocalServers(list, subnets))[x] >= multiset(list)[x]
    decreases |subnets|
  {
    var n := |subnets| - 1;
    var prefix, last := LocalServers(list, subnets[..n]), InSubnet(list, subnets[n]);
    assert LocalServers(list, subnets) == prefix + last;
    assert multiset(prefix + last)[x] == multiset(prefix)[x] + multiset(last)[x];
    InSubnetCount(list, subnets[n], x);
    if i < n {
      assert subnets[..n][i] == subnets[i];
      LocalServersCount(list, subnets[..n], i, x);
    }
  }

  /** Every selected server is usable: not loopback, not any-local, and IPv4
      unless IPv6 is enabled. */
  lemma SelectDnsUsable(dns1: Option<InetAddr>, dns2: Option<InetAddr>, sys: seq<InetAddr>,
                        subnets: seq<set<InetAddr>>, ip6: bool, lan: bool, useHosts: bool)
    ensures forall d :: d in SelectDns(dns1, dns2, sys, subnets, ip6, lan, useHosts) ==> Usable(d, ip6)
  {
    var base := BaseServers(dns1, dns2, sys, ip6);
    BaseUsable(dns1, dns2, sys, ip6);
    if lan && useHosts {
      var st := InitialPools(ip6).(dns := base);
      assert AllUsable(st, ip6);
      SwapInvariant(st, LocalServers(base, subnets), ip6);
    }
  }

  /** A non-public server left after the swap was there before, and was
      reported local fewer times than it occurred. */
  lemma SwapLeavesUnreported(st: SwapState, local: seq<InetAddr>, d: InetAddr)
    requires PoolsPublic(st)
    requires d in Swap(st, local).dns && !IsPublicResolver(d)
    ensures d in st.dns && multiset(local)[d] < multiset(st.dns)[d]
  {
    SwapInvariant(st, local, false);
    assert multiset(Swap(st, local).dns)[d] > 0;
  }

  lemma InitialPoolsPublic(ip6: bool, base: seq<InetAddr>)
    ensures PoolsPublic(InitialPools(ip6).(dns := base))
  {
  }

  /** A server reported local fewer times than it occurs lies in no subnet. */
  lemma UnderReportedNotLocal(base: seq<InetAddr>, subnets: seq<set<InetAddr>>, d: InetAddr)
    requires multiset(LocalServers(base, subnets))[d] < multiset(base)[d]
    ensures forall i :: 0 <= i < |subnets| ==> d !in subnets[i]
  {
    forall i | 0 <= i < |subnets| ensures d !in subnets[i] {
      if d in subnets[i] {
        LocalServersCount(base, subnets, i, d);
        assert false;
      }
    }
  }

  lemma SwapRemovesLocal(base: seq<InetAddr>, subnets: seq<set<InetAddr>>, ip6: bool, d: InetAddr)
    requires d in Swap(InitialPools(ip6).(dns := base), LocalServers(base, subnets)).dns
    requires !IsPublicResolver(d)
    ensures d in base
    ensures forall i :: 0 <= i < |subnets| ==> d !in subnets[i]
  {
    var st, local := InitialPools(ip6).(dns := base), LocalServers(base, subnets);
    InitialPoolsPublic(ip6, base);
    SwapLeavesUnreported(st, local, d);
    UnderReportedNotLocal(base, subnets, d);
  }

  /** With LAN routing and hosts blocking on, no selected server lies in a
      local subnet unless it is one of the public resolvers, and every other
      selected server was already selected before the swap. */
  lemma NoLocalServerLeft(dns1: Option<InetAddr>, dns2: Option<InetAddr>, sys: seq<InetAddr>,
                          subnets: seq<set<InetAddr>>, ip6: bool, d: InetAddr)
    requires d in SelectDns(dns1, dns2, sys, subnets, ip6, true, true)
    requires !IsPublicResolver(d)
    ensures d in BaseServers(dns1, dns2, sys, ip6)
    ensures forall i :: 0 <= i < |subnets| ==> d !in subnets[i]
  {
    SwapRemovesLocal(BaseServers(dns1, dns2, sys, ip6), subnets, ip6, d);
  }

  /** Without local servers, or without LAN routing and hosts blocking,
      the swap step changes nothing. */
  lemma NoLocalNoChange(dns1: Option<InetAddr>, dns2: Option<InetAddr>, sys: seq<InetAddr>,
                        subnets: seq<set<InetAddr>>, ip6: bool, lan: bool, useHosts: bool)
    requires !(lan && useHosts) || forall i :: 0 <= i < |subnets| ==> subnets[i] == {}
    ensures SelectDns(dns1, dns2, sys, subnets, ip6, lan, useHosts) == BaseServers(dns1, dns2, sys, ip6)
  {
    if lan && useHosts {
      var base := BaseServers(dns1, dns2, sys, ip6);
      assert LocalServers(base, subnets) == [] by { NoHits(base, subnets); }
    }
  }

  lemma {:induction false} NoHits(list: seq<InetAddr>, subnets: seq<set<InetAddr>>)
    requires forall i :: 0 <= i < |subnets| ==> subnets[i] == {}
    ensures LocalServers(list, subnets) == []
    decreases |subnets|
  {
    if subnets != [] {
      var n := |subnets| - 1;
      NoHits(list, subnets[..n]);
      assert InSubnet(list, subnets[n]) == [] by { EmptySubnet(list, subnets[n]); }
    }
  }

  lemma {:induction false} EmptySubnet(list: seq<InetAddr>, s: set<InetAddr>)
    requires s == {}
    ensures InSubnet(list, s) == []
    decreases |list|
  {
    if list != [] { EmptySubnet(list[..|list| - 1], s); }
  }
}
