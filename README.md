# Sinkhole VPN control plane and DC-net encoder, in Dafny

This project models two parts of a PriFi-enabled Android firewall.

- The control plane of the VPN service `ServiceSinkhole`: the command handler and the state it owns.
- The DC-net encoding that the PriFi client library performs for each round.

The control plane (modules `Settings`, `Admission`, `Dns`, `Tunnel`, `IpRules`, `Sinkhole`, `Scenarios`) covers:

- `handleIntent`'s gate: background-user commands are dropped, and the temporary-stop latch drops reloads.
- The failure classifier: with consent in place, an auto-start notice when the device was last connected and nothing otherwise; without consent, an error notice and the feature switched off unless the failure is the service's own start failure.
- `start`, `reload` (the interactive shortcut, the legacy restart, the native restart and the seamless handover with its fallback), `stop` and `watchdog`. They work over a `Controller` class holding the fields the service updates in place.
- The admission rules of `getAllowedRules`: the derived metering class, lockdown, and the three conditions per rule.
- `getDns`, with its backfill from the system servers and the swap of local-subnet servers for public resolvers.
- `getBuilder` with `Builder.equals`.
- The `IPKey` constructor and `IPRule.updateExpires`/`isExpired`.

The platform's interface is a `Platform` class. Its `Establish` answers from a fixed sequence of outcomes: grant, refuse (null or any other exception) or security exception. Its `Close` logs each close in a ghost list. The controller's invariant `Controller.Valid` says two things:

- the engine thread runs exactly when a descriptor is open;
- no descriptor leaks: every descriptor opened has been closed exactly once, except the current one, which is open.

The DC-net part (modules `DcNet`, `RoundManager`) covers:

- `NewDCNetEntity`: the options it was given, the equivocation contribution and payload length they determine, one PRNG seeded from each shared key (none for a relay), and nothing consumed yet.
- `EncodeForRound`: its two error cases, the skipping of PRNG material for future rounds, and the client and trustee encodings.
- The round counter of `DCNet_RoundManager.ClientEncodeForRound`.
- `RevealBits`.

A PRNG is a byte stream (`nat -> bv8`), and an entity records how many bytes each PRNG has produced. The XOR of the pads is done in place on an `array`, as `clientEncode` does on the caller's buffer. The DC-net property is proved: XORing a message's encoding with the encoding of zeros under the same pads gives the message back (`DcNet.PadsCancel`).

Inputs that the service reads from the platform are passed in as immutable snapshots (`Settings.Prefs`, `Settings.NetworkState`, `Settings.Device`):

- preferences;
- connectivity;
- installed apps;
- system DNS servers and interface subnets;
- the engine's MTU;
- the SDK level.

In these places the code does something its names or comments do not suggest; the model follows the code:

- **The classifier.** `VpnService.prepare(..) == null` means consent is already in place. That case keeps the feature on, and shows the auto-start notice only when the device was last connected. A non-null answer shows an error and switches the feature off unless the failure is a `StartFailedException`.
- **`start` with an open descriptor.** It does nothing; it is not an error.
- **`Builder.equals`.** It compares list sizes and one-way containment, which is not set equality when a list holds a duplicate (`Tunnel.SameTunnelAsymmetricWithDuplicates`).
- **The "filter" preference.** It is read with default `true` when the configuration is built, and with default `false` by reload's native-restart test and by `getDns`. `Settings.Prefs.filter` is therefore optional, and each reader applies its own default.
- **The 32-byte disruption reservation.** It is subtracted from the payload length when *equivocation* protection is on, as `NewDCNetEntity` is written.

## Model

| member | source | states |
|---|---|---|
| Admission.DeriveMetered | app/src/main/java/eu/faircode/netguard/ServiceSinkhole.java:936-953 | a Wi-Fi outside a non-empty home set (with or without quotes) is metered; otherwise a Wi-Fi with metered Wi-Fi not honoured is unmetered, and anything else keeps the probe's flag |
| Admission.IsLockedDown | app/src/main/java/eu/faircode/netguard/ServiceSinkhole.java:902-911 | lockdown is in force exactly when it is on and enabled for the metering class |
| Admission.AllowedRules | app/src/main/java/eu/faircode/netguard/ServiceSinkhole.java:970-978 | nothing is allowed while disconnected |
| Admission.GetAllowedRules | app/src/main/java/eu/faircode/netguard/ServiceSinkhole.java:913-982 | the loop reports the connected flag, the derived metering class, and exactly the allowed rules of the specification |
| Admission.KeptEmbeds | app/src/main/java/eu/faircode/netguard/ServiceSinkhole.java:970-978 | the kept rules occur in the rule list at increasing positions |
| Admission.AllowedIsSubsequence | app/src/main/java/eu/faircode/netguard/ServiceSinkhole.java:970-978 | the allowed list is an order-preserving subsequence of the rule list |
| Admission.KeptMembership | app/src/main/java/eu/faircode/netguard/ServiceSinkhole.java:971-977 | a rule is kept iff it is in the list and meets the three conditions |
| Admission.AllowedMembership | app/src/main/java/eu/faircode/netguard/ServiceSinkhole.java:913-982 | a rule is allowed iff the device is connected, the rule is listed, and it is unblocked or screen-exempt while interactive, not roaming-blocked on a metered network, and lockdown-exempt when lockdown is in force |
| Admission.KeptIgnoresInteractive | app/src/main/java/eu/faircode/netguard/ServiceSinkhole.java:972-976 | without a blocked, screen-exempt rule, the interactive flag does not change which rules are kept |
| Admission.InteractiveIrrelevant | app/src/main/java/eu/faircode/netguard/ServiceSinkhole.java:444-458 | when no rule is screen-dependent for the derived class, the allowed set is the same screen on or off, which makes the interactive shortcut of reload sound |
| Admission.NoExemptionNoScreenEffect | app/src/main/java/eu/faircode/netguard/ServiceSinkhole.java:972-976 | a rule without a screen exemption is decided the same way whatever the interactive state |
| Admission.GenerationOverridesInert | app/src/main/java/eu/faircode/netguard/ServiceSinkhole.java:923-952 | with the generation fixed to "NA", the 2G/3G/4G overrides never change the metering class |
| Admission.MeteredOnlyRuleOnWifi | app/src/main/java/eu/faircode/netguard/ServiceSinkhole.java:940-977 | a rule not blocked on Wi-Fi is allowed on an unmetered Wi-Fi without home set or lockdown |
| Admission.MeteredOnlyRuleOnCellular | app/src/main/java/eu/faircode/netguard/ServiceSinkhole.java:940-977 | a rule blocked on metered networks without a screen exemption there is not allowed on a metered cellular network |
| Admission.LockdownExcludes | app/src/main/java/eu/faircode/netguard/ServiceSinkhole.java:955-977 | lockdown for the metered class excludes every rule without the lockdown exemption |
| Dns.CustomServers | app/src/main/java/eu/faircode/netguard/ServiceSinkhole.java:599-616 | at most two servers, exactly the usable configured ones |
| Dns.RemoveFirst | app/src/main/java/eu/faircode/netguard/ServiceSinkhole.java:682 | removing drops one occurrence of the element (as multisets) and leaves a list without it unchanged |
| Dns.BackfillLoop | app/src/main/java/eu/faircode/netguard/ServiceSinkhole.java:619-629 | the system-server loop computes the backfill specification |
| Dns.LocalServersLoop | app/src/main/java/eu/faircode/netguard/ServiceSinkhole.java:634-665 | the interface enumeration collects, per interface address, the selected servers in its subnet |
| Dns.SwapLoop | app/src/main/java/eu/faircode/netguard/ServiceSinkhole.java:667-694 | the replacement loop computes the swap specification from the initial resolver pools |
| Dns.GetDns | app/src/main/java/eu/faircode/netguard/ServiceSinkhole.java:588-698 | getDns returns exactly the specified selection |
| Dns.BackfillShape | app/src/main/java/eu/faircode/netguard/ServiceSinkhole.java:619-629 | the backfill extends its input with usable system servers, each not already listed |
| Dns.BaseShape | app/src/main/java/eu/faircode/netguard/ServiceSinkhole.java:599-629 | custom servers come first; with two of them the system list is not consulted; every added server is a usable system server not listed before |
| Dns.BaseUsable | app/src/main/java/eu/faircode/netguard/ServiceSinkhole.java:599-629 | every server before the swap is usable |
| Dns.RemoveFirstSubset | app/src/main/java/eu/faircode/netguard/ServiceSinkhole.java:682 | removing introduces no element |
| Dns.SwapStepSameFamily | app/src/main/java/eu/faircode/netguard/ServiceSinkhole.java:681-693 | an IPv4 local server is replaced by an IPv4 public resolver and an IPv6 one by an IPv6 resolver while that family's pool lasts; with the pool empty it is only removed |
| Dns.SwapStepKeeps | app/src/main/java/eu/faircode/netguard/ServiceSinkhole.java:681-693 | one replacement keeps the pools public, keeps everything usable, and only adds public resolvers |
| Dns.SwapInvariant | app/src/main/java/eu/faircode/netguard/ServiceSinkhole.java:681-694 | after the swap, a non-public server occurs as often as before less the times it was reported local (never below zero) |
| Dns.InSubnetCount | app/src/main/java/eu/faircode/netguard/ServiceSinkhole.java:651-658 | a server inside the subnet is reported once per occurrence, one outside it never |
| Dns.LocalServersCount | app/src/main/java/eu/faircode/netguard/ServiceSinkhole.java:639-662 | a server inside some interface's subnet is reported at least as often as it occurs |
| Dns.SelectDnsUsable | app/src/main/java/eu/faircode/netguard/ServiceSinkhole.java:588-698 | no selected server is loopback or any-local, and none is IPv6 unless IPv6 is on |
| Dns.InitialPoolsPublic | app/src/main/java/eu/faircode/netguard/ServiceSinkhole.java:667-678 | the replacement pools start with public resolvers only, IPv4 ones in the IPv4 pool and IPv6 ones in the IPv6 pool |
| Dns.SwapLeavesUnreported | app/src/main/java/eu/faircode/netguard/ServiceSinkhole.java:680-693 | a non-public server left after the swap was there before and was reported local fewer times than it occurred |
| Dns.UnderReportedNotLocal | app/src/main/java/eu/faircode/netguard/ServiceSinkhole.java:634-665 | a server reported local fewer times than it occurs lies in no interface subnet |
| Dns.SwapRemovesLocal | app/src/main/java/eu/faircode/netguard/ServiceSinkhole.java:631-695 | a non-public server left after the swap was selected before it and lies in no local subnet |
| Dns.NoLocalServerLeft | app/src/main/java/eu/faircode/netguard/ServiceSinkhole.java:631-695 | with LAN routing and hosts blocking on, only public resolvers may lie in a local subnet |
| Dns.NoLocalNoChange | app/src/main/java/eu/faircode/netguard/ServiceSinkhole.java:631-695 | without LAN routing and hosts blocking, or without interface addresses, the swap changes nothing |
| Tunnel.ContainsAll | app/src/main/java/eu/faircode/netguard/ServiceSinkhole.java:1595-1609 | the containment loop answers whether every element is found in the other list |
| Tunnel.Equals | app/src/main/java/eu/faircode/netguard/ServiceSinkhole.java:1570-1612 | the comparison is true iff there is a previous builder, both networks are known and of one type, the MTUs agree, the list sizes agree, and every entry is found in the other's list |
| Tunnel.FamilyFilterLoop | app/src/main/java/eu/faircode/netguard/ServiceSinkhole.java:733-739 | the DNS loop keeps the servers of enabled families in order |
| Tunnel.AllowedNamesLoop | app/src/main/java/eu/faircode/netguard/ServiceSinkhole.java:773-779 | the allowed apps are added by package name, in order |
| Tunnel.BypassLoop | app/src/main/java/eu/faircode/netguard/ServiceSinkhole.java:780-793 | the service itself comes first; then, each once, exactly the known apps that are not routed through the tunnel |
| Tunnel.GetBuilder | app/src/main/java/eu/faircode/netguard/ServiceSinkhole.java:712-803 | the configuration has the network type, the MTU, the addresses and routes for the IPv6 setting, the selected DNS servers when filtering, and the disallowed apps of the specification |
| Tunnel.FamilyFilterIdentity | app/src/main/java/eu/faircode/netguard/ServiceSinkhole.java:735 | the family check removes nothing from a list of enabled families |
| Tunnel.FamilyFilterUsable | app/src/main/java/eu/faircode/netguard/ServiceSinkhole.java:733-739 | the family check repeated on getDns's result removes nothing |
| Tunnel.SelectedDnsUsable | app/src/main/java/eu/faircode/netguard/ServiceSinkhole.java:734 | the servers getBuilder receives are usable |
| Tunnel.SameTunnelReflexive | app/src/main/java/eu/faircode/netguard/ServiceSinkhole.java:1570-1612 | a builder with a known network equals itself |
| Tunnel.NoDuplicatesCard | app/src/main/java/eu/faircode/netguard/ServiceSinkhole.java:1583-1609 | a duplicate-free list has as many distinct elements as entries |
| Tunnel.CoversSameSize | app/src/main/java/eu/faircode/netguard/ServiceSinkhole.java:1583-1609 | for duplicate-free lists of one size, one-way containment holds the other way too |
| Tunnel.SubsetCard | app/src/main/java/eu/faircode/netguard/ServiceSinkhole.java:1583-1609 | a subset is no larger than its superset |
| Tunnel.SameTunnelSymmetric | app/src/main/java/eu/faircode/netguard/ServiceSinkhole.java:1570-1612 | on duplicate-free lists the comparison is symmetric |
| Tunnel.SameTunnelAsymmetricWithDuplicates | app/src/main/java/eu/faircode/netguard/ServiceSinkhole.java:1603-1605 | with a repeated DNS server, a builder compares equal to one holding a server it lacks, and not the other way round |
| Tunnel.BuildersForSameInputsEqual | app/src/main/java/eu/faircode/netguard/ServiceSinkhole.java:712-803 | two builders made for the same inputs on a known network compare equal, whatever order the app set is visited in |
| IpRules.MakeIPKey | app/src/main/java/eu/faircode/netguard/ServiceSinkhole.java:1621-1627 | the key keeps version, protocol and UID, and the port only for TCP and UDP (0 otherwise) |
| IpRules.PortlessFlowsShareKey | app/src/main/java/eu/faircode/netguard/ServiceSinkhole.java:1624-1625 | flows of another protocol that differ only in port share one key |
| IpRules.ExtendedExpiry | app/src/main/java/eu/faircode/netguard/ServiceSinkhole.java:1672-1674 | the new expiry is one of the two and no earlier than either |
| IpRules.IPRule.constructor | app/src/main/java/eu/faircode/netguard/ServiceSinkhole.java:1657-1662 | the entry holds its key, name, block flag and expiry |
| IpRules.IPRule.IsExpired | app/src/main/java/eu/faircode/netguard/ServiceSinkhole.java:1668-1670 | no contract of its own: expired exactly when the clock reading, passed in, is past the expiry; `UpdateExpires` and `ExpiredStaysExpired` are stated against it |
| IpRules.IPRule.ExpiredStaysExpired | app/src/main/java/eu/faircode/netguard/ServiceSinkhole.java:1668-1670 | `IsExpired` is monotone in time: an entry expired at a time is expired at every later time |
| IpRules.IPRule.UpdateExpires | app/src/main/java/eu/faircode/netguard/ServiceSinkhole.java:1672-1674 | the expiry never decreases and reaches at least the requested one, so an entry live at a time stays live at that time |
| IpRules.ExtensionsCommute | app/src/main/java/eu/faircode/netguard/ServiceSinkhole.java:1672-1674 | two extensions give the same expiry in either order, so a stale shorter one cannot undo a longer one |
| IpRules.ExtensionKeepsAlive | app/src/main/java/eu/faircode/netguard/ServiceSinkhole.java:1668-1674 | an entry live at a time stays live at that time after any extension |
| Sinkhole.Platform.constructor | app/src/main/java/eu/faircode/netguard/ServiceSinkhole.java:701-710 | a fresh platform has opened and closed nothing |
| Sinkhole.Platform.Establish | app/src/main/java/eu/faircode/netguard/ServiceSinkhole.java:701-710 | establishing yields a new descriptor, null for a refusal, or the SecurityException passed on; a new descriptor joins the open ones and no descriptor leaks |
| Sinkhole.Platform.Close | app/src/main/java/eu/faircode/netguard/ServiceSinkhole.java:984-990 | closing an open descriptor logs it as closed once and keeps the no-leak invariant for the rest |
| Sinkhole.Gate | app/src/main/java/eu/faircode/netguard/ServiceSinkhole.java:293-309 | a command is ignored iff it is not a stop while the user is in the background, or a reload during a temporary stop; a stop sets the latch to its temporary flag, a start clears it, others keep it |
| Sinkhole.Classify | app/src/main/java/eu/faircode/netguard/ServiceSinkhole.java:392-411 | with consent, a failed start or reload only shows the auto-start notice when last connected; without it, an error notice; the feature is switched off exactly when a start or reload fails without consent and the failure is not StartFailed; other commands only show an error |
| Sinkhole.AnswerAt | app/src/main/java/eu/faircode/netguard/ServiceSinkhole.java:701-710 | once the platform's fixed answers run out, establish requests are refused |
| Sinkhole.StartResult | app/src/main/java/eu/faircode/netguard/ServiceSinkhole.java:427-431 | start completes iff a descriptor is granted, fails with StartFailed iff none comes back, and passes a SecurityException on |
| Sinkhole.RetryResult | app/src/main/java/eu/faircode/netguard/ServiceSinkhole.java:504-516 | the second establish of a failed handover completes iff granted, is HandoverFailed iff refused, and passes a SecurityException on |
| Sinkhole.HandoverResult | app/src/main/java/eu/faircode/netguard/ServiceSinkhole.java:496-528 | a VPN restart ends in HandoverFailed iff a previous descriptor was open and both answers are refusals, in StartFailed iff there was none and the first answer is a refusal, and completes iff the first answer, or the retry after a refused first one, is a grant |
| Sinkhole.ReloadResult | app/src/main/java/eu/faircode/netguard/ServiceSinkhole.java:476-528 | the outcome a reload's path and the platform's answers determine: a skipped or native restart completes, HandoverFailed only on the VPN path with a previous descriptor, a SecurityException only after a denied establish |
| Sinkhole.AnyScreenDependent | app/src/main/java/eu/faircode/netguard/ServiceSinkhole.java:444-458 | the interactive check is true iff some rule is blocked and screen-exempt for the cached class |
| Sinkhole.Controller.constructor | app/src/main/java/eu/faircode/netguard/ServiceSinkhole.java:107-127 | a new controller has the fields' initial values (idle, foreground user, disconnected, metered, no builder, no descriptor, no latch, empty tables) and satisfies the invariant |
| Sinkhole.Controller.StartNative | app/src/main/java/eu/faircode/netguard/ServiceSinkhole.java:805-853 | the per-flow tables are cleared and the engine thread runs; nothing else changes |
| Sinkhole.Controller.StopNative | app/src/main/java/eu/faircode/netguard/ServiceSinkhole.java:855-877 | the engine thread no longer runs; nothing else changes |
| Sinkhole.Controller.Unprepare | app/src/main/java/eu/faircode/netguard/ServiceSinkhole.java:879-888 | the per-flow tables are cleared; nothing else changes |
| Sinkhole.Controller.CloseCurrent | app/src/main/java/eu/faircode/netguard/ServiceSinkhole.java:537-538 | the open descriptor is closed and forgotten, restoring the invariant |
| Sinkhole.Controller.Configure | app/src/main/java/eu/faircode/netguard/ServiceSinkhole.java:463-474 | the service enforces, caches the connected flag and metering class, and builds the configuration for the allowed rules |
| Sinkhole.Controller.Start | app/src/main/java/eu/faircode/netguard/ServiceSinkhole.java:415-437 | with a descriptor open nothing changes; otherwise the service is configured and the configuration remembered, and the result follows the platform's answer: a descriptor completes the start (per-flow tables reset), null is StartFailed, a SecurityException is passed on |
| Sinkhole.Controller.Reload | app/src/main/java/eu/faircode/netguard/ServiceSinkhole.java:440-532 | the invariant is kept; the cases are listed after this table |
| Sinkhole.Controller.Rebuild | app/src/main/java/eu/faircode/netguard/ServiceSinkhole.java:460-531 | reload after the interactive check: configured, one of the three restart paths, and the result the path and the platform's answers determine, as for Reload |
| Sinkhole.Controller.Restart | app/src/main/java/eu/faircode/netguard/ServiceSinkhole.java:476-531 | legacy restart iff below MR1; native restart iff a descriptor is open, filtering is on and the configuration equals the last one; otherwise VPN restart; the result is the one the path and the platform's answers determine (so HandoverFailed exactly when a previous descriptor was open and both answers are refusals); completed iff a descriptor is open at the end |
| Sinkhole.Controller.LegacySwap | app/src/main/java/eu/faircode/netguard/ServiceSinkhole.java:476-490 | the configuration is remembered, the open descriptor (if any) is closed, and a new one is established; a SecurityException is passed on, and otherwise a descriptor is open iff the platform granted one |
| Sinkhole.Controller.Handover | app/src/main/java/eu/faircode/netguard/ServiceSinkhole.java:496-522 | the new descriptor is established before the previous one is closed; the result follows the platform's answers: a grant completes, a refusal with a previous descriptor is retried once and a second refusal is HandoverFailed, a SecurityException is passed on, and a refusal without one leaves no descriptor; at most the previous descriptor is closed |
| Sinkhole.Controller.Fallback | app/src/main/java/eu/faircode/netguard/ServiceSinkhole.java:504-516 | the previous descriptor is closed first, then the configuration is established once more: a grant completes, a refusal is HandoverFailed, a SecurityException is passed on |
| Sinkhole.Controller.ReleasePrevious | app/src/main/java/eu/faircode/netguard/ServiceSinkhole.java:518-521 | the engine stops and exactly the previous descriptor is closed |
| Sinkhole.Controller.Finish | app/src/main/java/eu/faircode/netguard/ServiceSinkhole.java:525-528 | the reload fails with StartFailed iff no descriptor is open; otherwise the engine runs and the tables are reset |
| Sinkhole.Controller.Stop | app/src/main/java/eu/faircode/netguard/ServiceSinkhole.java:534-553 | no descriptor and no engine remain, the open descriptor (if any) is closed once, and only a non-temporary stop leaves the enforcing state |
| Sinkhole.Controller.Watchdog | app/src/main/java/eu/faircode/netguard/ServiceSinkhole.java:568-576 | the service is restarted exactly when it is enabled and holds no descriptor, with start's result for the platform's answer |
| Sinkhole.Controller.HandleIntent | app/src/main/java/eu/faircode/netguard/ServiceSinkhole.java:285-413 | an ignored command changes nothing; the latch follows the gate; a failure is classified; a command that passes the gate runs its operation: a stop leaves no descriptor and leaves the enforcing state unless temporary, a start and a watchdog have the results of start for the platform's answer, a reload is skipped exactly as reload's interactive check says and otherwise caches the network facts and ends as its path and the platform's answers determine; run, stats, set and householding touch no descriptor |
| Scenarios.SameTunnelTransitive | app/src/main/java/eu/faircode/netguard/ServiceSinkhole.java:1570-1612 | the builder comparison is transitive |
| Scenarios.TemporaryStopThenReload | app/src/main/java/eu/faircode/netguard/ServiceSinkhole.java:299-309 | after a temporary stop, a reload is dropped and the tunnel stays down with nothing newly opened |
| Scenarios.InteractiveReloadTwice | app/src/main/java/eu/faircode/netguard/ServiceSinkhole.java:444-458 | with no rule screen-dependent for the derived class, the first interactive reload is skipped iff none is for the cached class, and the second is always skipped and changes no descriptor |
| Scenarios.ReloadTwice | app/src/main/java/eu/faircode/netguard/ServiceSinkhole.java:492-495 | with filtering on, from MR1 on and on a known network, a completed reload followed by another makes the second a native restart that closes no descriptor |
| DcNet.PayloadLength | prifi-lib/dcnet/dcnet.go:100-104 | no contract of its own: the formula (message size less the equivocation contribution, less 32 bytes under equivocation protection) that the constructor and `NewDCNetEntity` are proved against |
| DcNet.Zeros | prifi-lib/dcnet/dcnet.go:159-161 | n zero bytes |
| DcNet.Block | prifi-lib/dcnet/dcnet.go:170-173 | the bytes of a stream from an offset on |
| DcNet.Xor | prifi-lib/dcnet/dcnet.go:177-181 | the byte-wise exclusive or |
| DcNet.XorAllAt | prifi-lib/dcnet/dcnet.go:175-181 | each byte of the encoding is the plaintext byte XOR that byte of every pad |
| DcNet.PadsCancel | prifi-lib/dcnet/dcnet.go:175-181 | XORing an encoding with the encoding of zeros under the same pads gives the message back |
| DcNet.XorPadsInto | prifi-lib/dcnet/dcnet.go:177-181 | the in-place loop leaves the buffer XOR every pad |
| DcNet.DCNetEntity.constructor | prifi-lib/dcnet/dcnet.go:55-112 | the entity records its options and payload length; a relay has no keys or PRNGs, anyone else one PRNG per shared key seeded from it; nothing consumed, round 0 |
| DcNet.DCNetEntity.PadsAt | prifi-lib/dcnet/dcnet.go:169-173 | one pad per PRNG, of the payload length, read at its offset |
| DcNet.DCNetEntity.Advanced | prifi-lib/dcnet/dcnet.go:130-133 | every offset moved on by that many payload lengths |
| DcNet.DCNetEntity.AdvancedTwice | prifi-lib/dcnet/dcnet.go:125-143 | skipping and then encoding moves every PRNG on by the sum of the rounds |
| DcNet.DCNetEntity.Padded | prifi-lib/dcnet/dcnet.go:159-166 | the padded plaintext has the payload length, starts with the payload, and is zero after it |
| DcNet.DCNetEntity.DrawPads | prifi-lib/dcnet/dcnet.go:169-173 | the pads are read at the current offsets, and every PRNG moves on by one payload length |
| DcNet.DCNetEntity.SkipTo | prifi-lib/dcnet/dcnet.go:125-136 | the round becomes the target, and every PRNG moves on by one payload length per skipped round |
| DcNet.DCNetEntity.ClientEncode | prifi-lib/dcnet/dcnet.go:155-196 | the cipher is the padded payload XOR the next pads, with its HMAC and equivocation encryption as enabled; a full-length payload buffer is overwritten with the XOR, a shorter one is untouched; stated against the specification function `ClientCipher` |
| DcNet.DCNetEntity.TrusteeEncode | prifi-lib/dcnet/dcnet.go:198-224 | the cipher is zeros XOR the next pads, with the equivocation contribution when enabled; stated against the specification function `TrusteeCipher` |
| DcNet.DCNetEntity.NoPadsZeros | prifi-lib/dcnet/dcnet.go:198-216 | a participant without PRNGs (a relay) sends all zeros |
| DcNet.DCNetEntity.EncodeForRound | prifi-lib/dcnet/dcnet.go:116-146 | the encoding succeeds iff the payload fits and the round is not in the past; a too-long payload, then a past round, is an error that changes nothing; otherwise the round becomes the target and the result is the client or trustee cipher of the pads after the skipped rounds |
| DcNet.NewDCNetEntity | prifi-lib/dcnet/dcnet.go:100-112 | no entity iff the options leave no payload; otherwise a fresh one holding the given ID, message size, options and crypto, the equivocation contribution (the suite's length only under equivocation) and the payload length these give, one PRNG seeded from each shared key (no keys or PRNGs for a relay), round 0 and nothing consumed |
| RoundManager.Inc32 | prifi-lib/client/dcnet_roundmanager.go:30-36 | the increment wraps as a 32-bit integer, and is +1 below the maximum |
| RoundManager.Discards | prifi-lib/client/dcnet_roundmanager.go:26-31 | n calls with no payload |
| RoundManager.CellCoder.ClientEncode | prifi-lib/client/dcnet_roundmanager.go:29 | the call is logged and answered from the calls so far |
| RoundManager.DCNetRoundManager.ClientSetup | prifi-lib/client/dcnet_roundmanager.go:19-21 | the shared secrets are replaced and the round is kept |
| RoundManager.DCNetRoundManager.ClientEncodeForRound | prifi-lib/client/dcnet_roundmanager.go:24-38 | one discard call per round before the target, then the real call, whose answer is returned; the counter ends one past the later of the old round and the target, wrapping |
| RoundManager.MaskBit | prifi-lib/client/dcnet_roundmanager.go:79-85 | the mask test reads the bit counted from the least significant end |
| RoundManager.MaskTest | prifi-lib/client/dcnet_roundmanager.go:79-85 | masking with 1 << n agrees with shifting right by n |
| RoundManager.Revealed | prifi-lib/client/dcnet_roundmanager.go:75-86 | one entry per peer, holding the bit of its next cell |
| RoundManager.DCNetRoundManager.RevealBits | prifi-lib/client/dcnet_roundmanager.go:40-93 | it succeeds iff the round is not in the future and either there are no peers or the bit lies in the cell; a future round is an error; without peers the map is empty; a bit outside the cell is an error; otherwise each peer's cipher is moved on by one cell per round up to the current one and the bit of its next cell is revealed; the counter is kept |
| RoundManager.Rewind | prifi-lib/client/dcnet_roundmanager.go:64-71 | every peer is moved on by one cell per round from the given one up to the current one |
| RoundManager.ReadBits | prifi-lib/client/dcnet_roundmanager.go:73-87 | it succeeds iff there are no peers or the bit lies in the cell, and then holds the bit at that position of every peer's cell |

`Sinkhole.Controller.Reload` states these cases:

- An interactive reload is skipped, and changes nothing, iff no rule is screen-dependent for the cached class.
- Otherwise the service is configured, and the legacy, native and VPN paths are taken under the same conditions as `Restart`.
- A native restart keeps the descriptor and the last builder.
- It completes iff a descriptor is open, except that a SecurityException during the handover keeps the previous descriptor.
- The result is `ReloadResult` of the path and the platform's answers: the legacy path ends as start does, the VPN path as `HandoverResult` says, and the native path completes.
- At most the previous descriptor is closed, and a replaced descriptor has been closed exactly once.
- The per-flow tables are reset on completion.

## Left out

- Notifications, foreground state, the enforcing notification counts, `stopSelf` and the "stop service if needed" check: user interface only.
- The watchdog alarm scheduling of `handleIntent`: alarms are platform I/O.
- `handleIntent`'s `screen_on` receiver registration: a platform receiver. The model never refreshes `lastInteractive` from the screen state.
- The command queue, locks, wake locks and the handler thread: concurrency. Each command runs to completion in the model.
- The `stats` and `set` commands: the command switch has no case for them and only logs them, so here they pass the gate and do nothing.
- `householding` (log and DNS database cleanup, the update check): database and network I/O.
- Engine internals: the native calls (`jni_start`, `jni_stop`, `jni_clear`, `jni_get_mtu`), the thread's own body and its fatal exit, pcap and the flow tables' contents. The engine is a running flag, and the tables are cleared where the code clears them.
- The sleeps of the legacy and handover restarts: timing only.
- `InetAddress` parsing, `hashCode` and `toString`: addresses arrive parsed, and an unparsable custom server is `None`.
- The BigInteger prefix masking in `getDns`: each interface address is given as the set of addresses in its subnet.
- The address-length check in `getDns`: covered by the same abstraction.
- `IPRule.equals` and `IPKey.equals`: the datatype's equality is `IPKey.equals`. (`IPRule.isBlocked` is the plain accessor `IpRules.IPRule.IsBlocked`.)
- The wall clock of `isExpired`: it is a parameter.
- `DCNetCipher.ToBytes` serialisation: `EncodeForRound` returns the cipher value.
- The HMAC, the equivocation encryption and contribution, and the seeding of a PRNG from a key: uninterpreted functions in `DcNet.Crypto`.
- The byte length of the equivocation suite's largest scalar: a parameter of `NewDCNetEntity`.
- The panics of `NewDCNetEntity` and `EncodeForRound`: modelled as a null result and `Err` results.
- RoundManager.DCNetRoundManager.RevealBits: does not model the marshalling and seeding of the per-peer ciphers from the shared secrets (`sharedSecrets` are the resulting streams). It models `log.Fatal` on a future round as an `Err` result, and uses the integer division the floating-point index intends. The code as written does not compile: `errors.New` is returned from a map-valued function, and `dst[m]` is indexed with a float64. It also writes into a nil map. The model returns a fresh map instead.
- RoundManager.CellCoder: the cell coder's encoding is not modelled; its answers are a fixed function of the calls so far, and the history cipher is an identifier.
- `Rule.getRules`, `AppListHelper`, `Util` and the connectivity probe: their results are passed in as snapshots.
- `sda/protocols/udp.go`, `prifi-lib/net/message_sender.go`, `client/types.go` and `ConfigurationGroupDao.java`: they are not part of this model.
