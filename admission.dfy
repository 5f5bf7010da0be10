/** Admission evaluation of ServiceSinkhole: which applications are allowed
    through, given the rule records and a snapshot of the network state. */
module Admission {
  import opened Settings

  /** One per-application rule record as the rule store hands it out. */
  datatype Rule = Rule(
    packageName: string,
    uid: int,
    wifiBlocked: bool,
    otherBlocked: bool,
    screenWifi: bool,
    screenOther: bool,
    roaming: bool,
    lockdown: bool,
    notify: bool,
    system: bool)

  /** The mobile generation the service uses for its 2G/3G/4G overrides:
      it is never queried, so it is the literal "NA". */
  const Generation: string := "NA"

  /** The Wi-Fi name as the platform may report it, surrounded by quotes. */
  function Quoted(ssid: string): string {
    "\"" + ssid + "\""
  }

  /** The derived metering class: the probe's flag, overridden to unmetered on
      Wi-Fi when metered Wi-Fi is not honoured, back to metered on a Wi-Fi
      outside the configured home set, and to unmetered by a generation
      override. */
  function DeriveMetered(net: NetworkState, p: Prefs): (m: bool)
    ensures net.wifi && |p.wifiHomes| > 0 && net.ssid !in p.wifiHomes && Quoted(net.ssid) !in p.wifiHomes ==> m
    ensures !(net.wifi && |p.wifiHomes| > 0 && net.ssid !in p.wifiHomes && Quoted(net.ssid) !in p.wifiHomes) ==>
              m == (if net.wifi && !p.useMetered then false else net.metered)
  {
    var m0 := net.metered;
    var m1 := if net.wifi && !p.useMetered then false else m0;
    var m2 := if net.wifi && |p.wifiHomes| > 0 && !(net.ssid in p.wifiHomes || Quoted(net.ssid) in p.wifiHomes)
              then true else m1;
    var m3 := if p.unmetered2g && Generation == "2G" then false else m2;
    var m4 := if p.unmetered3g && Generation == "3G" then false else m3;
    if p.unmetered4g && Generation == "4G" then false else m4
  }

  /** Whether lockdown is in force for the given metering class. */
  function IsLockedDown(metered: bool, p: Prefs): (r: bool)
    ensures r == (p.lockdown && (if metered then p.lockdownOther else p.lockdownWifi))
  {
    if (if metered then !p.lockdownOther else !p.lockdownWifi) then false else p.lockdown
  }

  /** The per-network block flag of a rule for a metering class. */
  function Blocked(r: Rule, metered: bool): bool {
    if metered then r.otherBlocked else r.wifiBlocked
  }

  /** The per-network "allowed while the screen is on" flag of a rule. */
  function Screen(r: Rule, metered: bool): bool {
    if metered then r.screenOther else r.screenWifi
  }

  /** The three conditions a rule must meet to be allowed. */
  predicate Keep(r: Rule, metered: bool, roaming: bool, interactive: bool, lockdown: bool) {
    && (!Blocked(r, metered) || (Screen(r, metered) && interactive))
    && (!metered || !(r.roaming && roaming))
    && (!lockdown || r.lockdown)
  }

  /** The rules of `rules` that are kept, in their order. */
  function Kept(rules: seq<Rule>, metered: bool, roaming: bool, interactive: bool, lockdown: bool): seq<Rule>
    decreases |rules|
  {
    if rules == [] then []
    else
      var last := rules[|rules| - 1];
      Kept(rules[..|rules| - 1], metered, roaming, interactive, lockdown)
        + (if Keep(last, metered, roaming, interactive, lockdown) then [last] else [])
  }

  /** The allowed set: nothing while disconnected, otherwise the kept rules
      for the derived metering class. */
  function AllowedRules(rules: seq<Rule>, net: NetworkState, p: Prefs, interactive: bool): (a: seq<Rule>)
    ensures !net.connected ==> a == []
  {
    if !net.connected then []
    else
      var metered := DeriveMetered(net, p);
      Kept(rules, metered, net.roaming, interactive, IsLockedDown(metered, p))
  }

  /** getAllowedRules: the filtering loop, which also reports the connected
      flag and the derived metering class that the service caches. */
  method GetAllowedRules(rules: seq<Rule>, net: NetworkState, p: Prefs, interactive: bool)
    returns (allowed: seq<Rule>, connected: bool, metered: bool)
    ensures connected == net.connected
    ensures metered == DeriveMetered(net, p)
    ensures allowed == AllowedRules(rules, net, p, interactive)
  {
    allowed := [];
    connected := net.connected;
    metered := DeriveMetered(net, p);
    var lockdown := IsLockedDown(metered, p);
    if connected {
      for i := 0 to |rules|
        invariant allowed == Kept(rules[..i], metered, net.roaming, interactive, lockdown)
      {
        assert rules[..i + 1][..i] == rules[..i];
        var rule := rules[i];
        var blocked := if metered then rule.otherBlocked else rule.wifiBlocked;
        var screen := if metered then rule.screenOther else rule.screenWifi;
        if (!blocked || (screen && interactive)) && (!metered || !(rule.roaming && net.roaming)) && (!lockdown || rule.lockdown) {
          allowed := allowed + [rule];
        }
      }
      assert rules[..|rules|] == rules;
    }
  }

  // ---------------------------------------------------------------------
  // Order-preserving subsequence

  /** `idx` picks, in increasing order, positions of `b` that spell `a`. */
  ghost predicate Embeds<T>(idx: seq<nat>, a: seq<T>, b: seq<T>) {
    && |idx| == |a|
    && (forall k :: 0 <= k < |idx| ==> idx[k] < |b| && b[idx[k]] == a[k])
    && (forall k, l :: 0 <= k < l < |idx| ==> idx[k] < idx[l])
  }

  /** `a` is an order-preserving subsequence of `b`. */
  ghost predicate IsSubsequence<T>(a: seq<T>, b: seq<T>) {
    exists idx :: Embeds(idx, a, b)
  }

  lemma {:induction false} KeptEmbeds(rules: seq<Rule>, metered: bool, roaming: bool, interactive: bool, lockdown: bool)
      returns (idx: seq<nat>)
    ensures Embeds(idx, Kept(rules, metered, roaming, interactive, lockdown), rules)
    decreases |rules|
  {
    if rules == [] {
      idx := [];
    } else {
      var n := |rules| - 1;
      var init := rules[..n];
      var prev := KeptEmbeds(init, metered, roaming, interactive, lockdown);
      var kept := Kept(init, metered, roaming, interactive, lockdown);
      if Keep(rules[n], metered, roaming, interactive, lockdown) {
        idx := prev + [n];
      } else {
        idx := prev;
      }
      forall k | 0 <= k < |prev| ensures prev[k] < n && rules[prev[k]] == kept[k] {
        assert init[prev[k]] == rules[prev[k]];
      }
    }
  }

  /** The allowed set is an order-preserving subsequence of the rule list. */
  lemma AllowedIsSubsequence(rules: seq<Rule>, net: NetworkState, p: Prefs, interactive: bool)
    ensures IsSubsequence(AllowedRules(rules, net, p, interactive), rules)
  {
    if !net.connected {
      var idx: seq<nat> := [];
      assert Embeds(idx, AllowedRules(rules, net, p, interactive), rules);
    } else {
      var metered := DeriveMetered(net, p);
      var idx := KeptEmbeds(rules, metered, net.roaming, interactive, IsLockedDown(metered, p));
    }
  }

  lemma {:induction false} KeptMembership(rules: seq<Rule>, metered: bool, roaming: bool, interactive: bool, lockdown: bool, r: Rule)
    ensures r in Kept(rules, metered, roaming, interactive, lockdown) <==> r in rules && Keep(r, metered, roaming, interactive, lockdown)
    decreases |rules|
  {
    if rules != [] {
      var n := |rules| - 1;
      KeptMembership(rules[..n], metered, roaming, interactive, lockdown, r);
      assert rules == rules[..n] + [rules[n]];
    }
  }

  /** A rule is allowed iff the device is connected, the rule is in the list
      and it meets all three conditions for the derived metering class. */
  lemma AllowedMembership(rules: seq<Rule>, net: NetworkState, p: Prefs, interactive: bool, r: Rule)
    ensures r in AllowedRules(rules, net, p, interactive) <==>
              && net.connected && r in rules
              && var m := DeriveMetered(net, p);
                 Keep(r, m, net.roaming, interactive, IsLockedDown(m, p))
  {
    if net.connected {
      var m := DeriveMetered(net, p);
      KeptMembership(rules, m, net.roaming, interactive, IsLockedDown(m, p), r);
    }
  }

  /** Some rule's decision depends on the screen state for the metering class:
      it is blocked there but allowed while the screen is on. */
  predicate ScreenDependent(rules: seq<Rule>, metered: bool) {
    exists i :: 0 <= i < |rules| && Blocked(rules[i], metered) && Screen(rules[i], metered)
  }

  lemma {:induction false} KeptIgnoresInteractive(rules: seq<Rule>, metered: bool, roaming: bool, lockdown: bool)
    requires !ScreenDependent(rules, metered)
    ensures Kept(rules, metered, roaming, true, lockdown) == Kept(rules, metered, roaming, false, lockdown)
    decreases |rules|
  {
    if rules != [] {
      var n := |rules| - 1;
      assert !ScreenDependent(rules[..n], metered) by {
        forall i | 0 <= i < n ensures !(Blocked(rules[..n][i], metered) && Screen(rules[..n][i], metered)) {
          assert rules[..n][i] == rules[i];
        }
      }
      KeptIgnoresInteractive(rules[..n], metered, roaming, lockdown);
      assert !(Blocked(rules[n], metered) && Screen(rules[n], metered));
    }
  }

  /** When no rule is screen-dependent for the derived metering class, the
      interactive state does not change the allowed set; this is what makes
      the interactive shortcut of reload sound. */
  lemma InteractiveIrrelevant(rules: seq<Rule>, net: NetworkState, p: Prefs)
    requires !ScreenDependent(rules, DeriveMetered(net, p))
    ensures AllowedRules(rules, net, p, true) == AllowedRules(rules, net, p, false)
  {
    if net.connected {
      var m := DeriveMetered(net, p);
      KeptIgnoresInteractive(rules, m, net.roaming, IsLockedDown(m, p));
    }
  }

  /** A rule that carries no screen exemption for the class is decided the
      same way whatever the interactive state. */
  lemma NoExemptionNoScreenEffect(r: Rule, metered: bool, roaming: bool, lockdown: bool)
    requires !Screen(r, metered)
    ensures Keep(r, metered, roaming, true, lockdown) == Keep(r, metered, roaming, false, lockdown)
  {
  }

  /** The 2G/3G/4G overrides never fire: with the generation fixed to "NA"
      the derived class does not depend on them. */
  lemma GenerationOverridesInert(net: NetworkState, p: Prefs, b2: bool, b3: bool, b4: bool)
    ensures DeriveMetered(net, p) == DeriveMetered(net, p.(unmetered2g := b2, unmetered3g := b3, unmetered4g := b4))
  {
  }

  // ---------------------------------------------------------------------
  // Scenarios

  /** A rule that blocks an app on metered networks only lets it through on
      an unmetered Wi-Fi, screen on or off. */
  lemma MeteredOnlyRuleOnWifi(rules: seq<Rule>, r: Rule, net: NetworkState, p: Prefs, interactive: bool)
    requires r in rules && !r.wifiBlocked
    requires net.connected && net.wifi && !net.metered && |p.wifiHomes| == 0 && !p.lockdown
    ensures r in AllowedRules(rules, net, p, interactive)
  {
    AllowedMembership(rules, net, p, interactive, r);
  }

  /** The same rule keeps the app out on a metered cellular network when it
      carries no screen exemption there. */
  lemma MeteredOnlyRuleOnCellular(rules: seq<Rule>, r: Rule, net: NetworkState, p: Prefs, interactive: bool)
    requires r.otherBlocked && !r.screenOther
    requires !net.wifi && net.metered
    ensures r !in AllowedRules(rules, net, p, interactive)
  {
    AllowedMembership(rules, net, p, interactive, r);
  }

  /** Lockdown for the metered class keeps out every rule without the
      lockdown exemption, whatever its block flags. */
  lemma LockdownExcludes(rules: seq<Rule>, r: Rule, net: NetworkState, p: Prefs, interactive: bool)
    requires DeriveMetered(net, p) && p.lockdown && p.lockdownOther && !r.lockdown
    ensures r !in AllowedRules(rules, net, p, interactive)
  {
    AllowedMembership(rules, net, p, interactive, r);
  }
}
