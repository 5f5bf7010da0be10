/** The command-driven control plane of ServiceSinkhole: the command gate,
    start / reload / stop / watchdog over the tunnel descriptor and the engine
    thread, and the error classifier of the command handler. */
module Sinkhole {
  import opened Wrappers
  import opened Settings
  import opened Admission
  import opened Tunnel
  import opened IpRules

  /** An open interface descriptor, identified by the order it was opened in. */
  type Handle = nat

  /** The service state; `Idle` is the source's `none`. */
  datatype ServiceState = Idle | Waiting | Enforcing | Stats

  datatype Command =
    | Run
    | Start
    | Reload(interactive: bool)
    | Stop(temporary: bool)
    | StatsCommand
    | Set
    | Householding
    | Watchdog

  /** What start and reload can throw: StartFailedException, the
      IllegalStateException of a failed handover, and a SecurityException
      passed on from establishing the interface. */
  datatype Failure = StartFailed | HandoverFailed | SecurityDenied

  datatype Outcome = Completed | Thrown(failure: Failure)

  /** How the platform answers one request to establish an interface: a
      descriptor; no descriptor (`establish` returned null or threw anything
      but a SecurityException); or a SecurityException. */
  datatype EstablishOutcome = Grant | Refuse | Deny

  datatype Established = Opened(h: Handle) | NoDescriptor | SecurityError

  /** The platform's VPN interface. `outcomes` fixes, in order, how the next
      establish requests are answered; when it runs out, they are refused.
      `closed` logs every descriptor close. */
  class Platform {
    var outcomes: seq<EstablishOutcome>
    var nextHandle: nat
    ghost var closed: seq<Handle>

    constructor (outcomes: seq<EstablishOutcome>)
      ensures this.outcomes == outcomes && nextHandle == 0 && closed == []
    {
      this.outcomes := outcomes;
      nextHandle := 0;
      closed := [];
    }

    /** Builder.establish (through startVPN, which turns every failure but a
        SecurityException into null). */
    method Establish(b: Builder, ghost open: set<Handle>) returns (r: Established)
      requires NoLeak(open)
      modifies this
      ensures NoLeak(if r.Opened? then open + {r.h} else open)
      ensures closed == old(closed)
      ensures outcomes == if old(outcomes) == [] then [] else old(outcomes)[1..]
      ensures r == (if old(outcomes) == [] || old(outcomes)[0] == Refuse then NoDescriptor
                    else if old(outcomes)[0] == Deny then SecurityError
                    else Opened(old(nextHandle)))
      ensures nextHandle == if r.Opened? then old(nextHandle) + 1 else old(nextHandle)
    {
      if outcomes == [] {
        return NoDescriptor;
      }
      var o := outcomes[0];
      outcomes := outcomes[1..];
      match o {
        case Grant =>
          r := Opened(nextHandle);
          assert nextHandle !in multiset(closed);
          nextHandle := nextHandle + 1;
        case Refuse =>
          r := NoDescriptor;
        case Deny =>
          r := SecurityError;
      }
    }

    /** stopVPN: close a descriptor. */
    method Close(h: Handle, ghost open: set<Handle>)
      requires NoLeak(open) && h in open
      modifies this
      ensures NoLeak(open - {h})
      ensures closed == old(closed) + [h]
      ensures outcomes == old(outcomes) && nextHandle == old(nextHandle)
    {
      closed := closed + [h];
      assert multiset(closed) == multiset(old(closed)) + multiset{h};
    }

    /** No descriptor leaks: every descriptor closed was opened, and every
        one opened has been closed exactly once unless it is in `open`, in
        which case it has not been closed. */
    ghost predicate NoLeak(open: set<Handle>)
      reads this
    {
      && (forall h :: h in open ==> h < nextHandle)
      && (forall i :: 0 <= i < |closed| ==> closed[i] < nextHandle)
      && (forall h: Handle :: h < nextHandle ==>
            multiset(closed)[h] == (if h in open then 0 else 1))
    }
  }

  /** The platform's answer to the `k`-th next establish request; once the
      fixed answers run out, requests are refused. */
  function AnswerAt(outs: seq<EstablishOutcome>, k: nat): (a: EstablishOutcome)
    ensures k >= |outs| ==> a == Refuse
  {
    if k < |outs| then outs[k] else Refuse
  }

  /** How start ends for the platform's answer: a descriptor completes it,
      null is the controller's StartFailedException, and a SecurityException
      is passed on. */
  function StartResult(a: EstablishOutcome): (r: Outcome)
    ensures r == Completed <==> a == Grant
    ensures r == Thrown(StartFailed) <==> a == Refuse
    ensures r == Thrown(SecurityDenied) <==> a == Deny
  {
    match a
    case Grant => Completed
    case Refuse => Thrown(StartFailed)
    case Deny => Thrown(SecurityDenied)
  }

  /** How the second establish of a failed handover ends: null is the
      IllegalStateException "Handover failed". */
  function RetryResult(a: EstablishOutcome): (r: Outcome)
    ensures r == Completed <==> a == Grant
    ensures r == Thrown(HandoverFailed) <==> a == Refuse
    ensures r == Thrown(SecurityDenied) <==> a == Deny
  {
    match a
    case Grant => Completed
    case Refuse => Thrown(HandoverFailed)
    case Deny => Thrown(SecurityDenied)
  }

  /** How a VPN restart of reload ends for the platform's next answers,
      `hadPrev` telling whether a descriptor was open: a refusal with a
      previous descriptor is retried once, any other first answer ends it as
      start would. */
  function HandoverResult(outs: seq<EstablishOutcome>, hadPrev: bool): (r: Outcome)
    ensures r == Thrown(HandoverFailed) <==> hadPrev && AnswerAt(outs, 0) == Refuse && AnswerAt(outs, 1) == Refuse
    ensures r == Thrown(StartFailed) <==> !hadPrev && AnswerAt(outs, 0) == Refuse
    ensures r == Completed <==> AnswerAt(outs, 0) == Grant || (hadPrev && AnswerAt(outs, 0) == Refuse && AnswerAt(outs, 1) == Grant)
  {
    var a0 := AnswerAt(outs, 0);
    if a0 == Refuse && hadPrev then RetryResult(AnswerAt(outs, 1)) else StartResult(a0)
  }

  /** How a reload that is not skipped ends, by the path it took. */
  function ReloadResult(path: ReloadPath, outs: seq<EstablishOutcome>, hadPrev: bool): (r: Outcome)
    ensures path == Skipped || path == NativeRestart ==> r == Completed
    ensures r == Thrown(HandoverFailed) ==> path == VpnRestart && hadPrev
    ensures r == Thrown(SecurityDenied) ==> AnswerAt(outs, 0) == Deny || AnswerAt(outs, 1) == Deny
  {
    match path
    case Skipped => Completed
    case NativeRestart => Completed
    case LegacyRestart => StartResult(AnswerAt(outs, 0))
    case VpnRestart => HandoverResult(outs, hadPrev)
  }

  /** The descriptors a nullable field holds open. */
  function Held(vpn: Option<Handle>): set<Handle> {
    if vpn.Some? then {vpn.value} else {}
  }

  datatype Notice = NoNotice | AutoStartNotice | ErrorNotice

  /** What the command handler does after a command: the notice it shows and
      whether it switches the "enabled" preference off. */
  datatype Reaction = Reaction(notice: Notice, disableFeature: bool)

  const NoReaction: Reaction := Reaction(NoNotice, false)

  /** The gate at the head of handleIntent: whether the command is ignored,
      and otherwise the new temporarily-stopped latch. */
  datatype GateResult = Ignored | Proceed(latch: bool)

  function Gate(cmd: Command, userForeground: bool, stopped: bool): (g: GateResult)
    ensures g == Ignored <==> (!cmd.Stop? && !userForeground) || (cmd.Reload? && stopped)
    ensures cmd.Stop? ==> g == Proceed(cmd.temporary)
    ensures g.Proceed? && cmd.Start? ==> !g.latch
    ensures g.Proceed? && !cmd.Stop? && !cmd.Start? ==> g.latch == stopped
  {
    if !cmd.Stop? && !userForeground then Ignored
    else if cmd.Stop? then Proceed(cmd.temporary)
    else if cmd.Start? then Proceed(false)
    else if cmd.Reload? && stopped then Ignored
    else Proceed(stopped)
  }

  /** The catch block of handleIntent. `consentGranted` is
      `VpnService.prepare(..) == null`, i.e. the user's VPN consent is in
      place. With consent, a failed start or reload is left to be retried on
      the next connectivity change; without it, an error is shown and the
      feature is switched off unless the failure is the controller's own
      StartFailedException. Failures of other commands only show an error. */
  function Classify(cmd: Command, f: Failure, consentGranted: bool, lastConnected: bool): (r: Reaction)
    ensures r.disableFeature <==> (cmd.Start? || cmd.Reload?) && !consentGranted && f != StartFailed
    ensures !(cmd.Start? || cmd.Reload?) ==> r == Reaction(ErrorNotice, false)
    ensures (cmd.Start? || cmd.Reload?) && consentGranted ==>
              r == Reaction(if lastConnected then AutoStartNotice else NoNotice, false)
    ensures (cmd.Start? || cmd.Reload?) && !consentGranted ==> r.notice == ErrorNotice
  {
    if cmd.Start? || cmd.Reload? then
      if consentGranted then Reaction(if lastConnected then AutoStartNotice else NoNotice, false)
      else Reaction(ErrorNotice, f != StartFailed)
    else Reaction(ErrorNotice, false)
  }

  /** The interactive check of reload: is some rule blocked but allowed with
      the screen on, for the cached metering class? */
  method AnyScreenDependent(rules: seq<Rule>, metered: bool) returns (process: bool)
    ensures process == ScreenDependent(rules, metered)
  {
    process := false;
    var i := 0;
    while i < |rules|
      invariant 0 <= i <= |rules|
      invariant forall k :: 0 <= k < i ==> !(Blocked(rules[k], metered) && Screen(rules[k], metered))
    {
      var rule := rules[i];
      var blocked := if metered then rule.otherBlocked else rule.wifiBlocked;
      var screen := if metered then rule.screenOther else rule.screenWifi;
      if blocked && screen {
        process := true;
        break;
      }
      i := i + 1;
    }
  }

  /** Which way a reload went. */
  datatype ReloadPath = Skipped | LegacyRestart | NativeRestart | VpnRestart

  /** The service's command handler and the state it owns. */
  class Controller {
    const platform: Platform
    var state: ServiceState
    var userForeground: bool
    var lastConnected: bool
    var lastMetered: bool
    var lastInteractive: bool
    var tunnelThread: bool                 // tunnelThread != null
    var lastBuilder: Option<Builder>
    var vpn: Option<Handle>
    var temporarilyStopped: bool
    var ipFilters: map<IPKey, map<InetAddr, IPRule>>

    /** The engine thread runs exactly when a descriptor is open, and no
        descriptor leaks: every descriptor ever opened, except the current
        one, has been closed exactly once, and the current one not at all. */
    ghost predicate Valid()
      reads this, platform
    {
      tunnelThread == vpn.Some? && platform.NoLeak(Held(vpn))
    }

    constructor (platform: Platform)
      requires platform.nextHandle == 0 && platform.closed == []
      ensures Valid()
      ensures this.platform == platform
      ensures state == Idle && userForeground && !lastConnected && lastMetered && !lastInteractive
      ensures vpn == None && lastBuilder == None && !temporarilyStopped && ipFilters == map[]
    {
      this.platform := platform;
      state := Idle;
      userForeground := true;
      lastConnected := false;
      lastMetered := true;
      lastInteractive := false;
      tunnelThread := false;
      lastBuilder := None;
      vpn := None;
      temporarilyStopped := false;
      ipFilters := map[];
    }

    /** startNative: the per-flow tables are reset and the engine thread is
        started unless it is already running. */
    method StartNative()
      modifies this
      ensures tunnelThread && ipFilters == map[]
      ensures state == old(state) && vpn == old(vpn) && lastBuilder == old(lastBuilder)
      ensures lastConnected == old(lastConnected) && lastMetered == old(lastMetered)
      ensures lastInteractive == old(lastInteractive) && userForeground == old(userForeground)
      ensures temporarilyStopped == old(temporarilyStopped)
    {
      ipFilters := map[];
      if !tunnelThread {
        tunnelThread := true;
      }
    }

    /** stopNative: the engine thread is stopped and joined if it runs. */
    method StopNative(clear: bool)
      modifies this
      ensures !tunnelThread
      ensures state == old(state) && vpn == old(vpn) && lastBuilder == old(lastBuilder) && ipFilters == old(ipFilters)
      ensures lastConnected == old(lastConnected) && lastMetered == old(lastMetered)
      ensures lastInteractive == old(lastInteractive) && userForeground == old(userForeground)
      ensures temporarilyStopped == old(temporarilyStopped)
    {
      if tunnelThread {
        tunnelThread := false;
      }
    }

    /** unprepare: all per-flow tables are cleared. */
    method Unprepare()
      modifies this
      ensures ipFilters == map[]
      ensures tunnelThread == old(tunnelThread)
      ensures state == old(state) && vpn == old(vpn) && lastBuilder == old(lastBuilder)
      ensures lastConnected == old(lastConnected) && lastMetered == old(lastMetered)
      ensures lastInteractive == old(lastInteractive) && userForeground == old(userForeground)
      ensures temporarilyStopped == old(temporarilyStopped)
    {
      ipFilters := map[];
    }

    /** Close the current descriptor (stopVPN) and forget it. */
    method CloseCurrent()
      requires vpn.Some? && !tunnelThread
      requires platform.NoLeak(Held(vpn))
      modifies this, platform
      ensures vpn == None && !tunnelThread && Valid()
      ensures platform.closed == old(platform.closed) + [old(vpn).value]
      ensures platform.outcomes == old(platform.outcomes) && platform.nextHandle == old(platform.nextHandle)
      ensures state == old(state) && lastBuilder == old(lastBuilder) && ipFilters == old(ipFilters)
      ensures lastConnected == old(lastConnected) && lastMetered == old(lastMetered)
      ensures lastInteractive == old(lastInteractive) && userForeground == old(userForeground)
      ensures temporarilyStopped == old(temporarilyStopped)
    {
      var h := vpn.value;
      platform.Close(h, {h});
      vpn := None;
    }

    /** The service is enforcing with the cached network facts of `net`
        and `b` is the configuration built for the rules allowed there. */
    ghost predicate Configured(b: Builder, rules: seq<Rule>, p: Prefs, dev: Device)
      reads this
    {
      && state == Enforcing
      && lastConnected == dev.network.connected
      && lastMetered == DeriveMetered(dev.network, p)
      && BuiltFor(b, AllowedRules(rules, dev.network, p, lastInteractive), rules, p, dev, lastConnected)
    }

    /** The shared first half of start and reload: enter the enforcing
        state, compute the allowed rules and build the configuration. */
    method Configure(rules: seq<Rule>, p: Prefs, dev: Device) returns (allowed: seq<Rule>, b: Builder)
      modifies this
      ensures Configured(b, rules, p, dev)
      ensures allowed == AllowedRules(rules, dev.network, p, lastInteractive)
      ensures vpn == old(vpn) && tunnelThread == old(tunnelThread)
      ensures lastBuilder == old(lastBuilder) && ipFilters == old(ipFilters)
      ensures lastInteractive == old(lastInteractive) && userForeground == old(userForeground)
      ensures temporarilyStopped == old(temporarilyStopped)
    {
      if state != Enforcing {
        state := Enforcing;
      }
      var connected, metered;
      allowed, connected, metered := GetAllowedRules(rules, dev.network, p, lastInteractive);
      lastConnected := connected;
      lastMetered := metered;
      b := GetBuilder(allowed, rules, p, dev, lastConnected);
    }

    /** start: does nothing while a descriptor is open; otherwise enforces,
        remembers the configuration and establishes it, failing with
        StartFailed when no descriptor comes back. */
    method Start(rules: seq<Rule>, p: Prefs, dev: Device) returns (res: Outcome)
      requires Valid()
      modifies this, platform
      ensures Valid()
      ensures lastInteractive == old(lastInteractive) && userForeground == old(userForeground)
      ensures temporarilyStopped == old(temporarilyStopped)
      ensures platform.closed == old(platform.closed)
      ensures old(vpn).Some? ==> res == Completed && unchanged(this) && unchanged(platform)
      ensures old(vpn).None? ==>
                && lastBuilder.Some? && Configured(lastBuilder.value, rules, p, dev)
                && (res == Completed <==> vpn.Some?)
                && (res.Thrown? ==> res.failure != HandoverFailed)
                && (vpn.Some? ==> vpn.value == old(platform.nextHandle) && ipFilters == map[])
                && res == StartResult(AnswerAt(old(platform.outcomes), 0))
    {
      if vpn.Some? {
        return Completed;
      }
      var allowed, b := Configure(rules, p, dev);
      lastBuilder := Some(b);
      var e := platform.Establish(b, {});
      if e.SecurityError? {
        return Thrown(SecurityDenied);
      }
      if e.NoDescriptor? {
        return Thrown(StartFailed);
      }
      vpn := Some(e.h);
      StartNative();
      res := Completed;
    }

    /** reload. An interactive reload with no screen-dependent rule for the
        cached metering class does nothing. Otherwise the configuration is
        rebuilt and, from Lollipop MR1 on, only the engine is restarted when
        filtering is on, a descriptor is open and the configuration compares
        equal to the last one; any other reload establishes the new
        configuration before closing the previous descriptor, and when that
        handover finds no descriptor, closes the previous one first and tries
        once more. The reload fails when no descriptor is open at its end. */
    method Reload(interactive: bool, rules: seq<Rule>, p: Prefs, dev: Device)
      returns (res: Outcome, ghost path: ReloadPath, built: Builder)
      requires Valid()
      modifies this, platform
      ensures Valid()
      ensures lastInteractive == old(lastInteractive) && userForeground == old(userForeground)
      ensures temporarilyStopped == old(temporarilyStopped)
      ensures path == Skipped <==> interactive && !ScreenDependent(rules, old(lastMetered))
      ensures path == Skipped ==> res == Completed && unchanged(this) && unchanged(platform)
      ensures path != Skipped ==> Configured(built, rules, p, dev)
      ensures path != Skipped ==> res == ReloadResult(path, old(platform.outcomes), old(vpn).Some?)
      // a completed reload holds a descriptor; without one it has failed
      ensures path != Skipped ==> (res == Completed <==> vpn.Some? && res != Thrown(SecurityDenied))
      ensures res == Thrown(StartFailed) ==> vpn.None?
      ensures path == LegacyRestart <==> path != Skipped && dev.sdk < LollipopMr1
      ensures path == NativeRestart <==>
                && path != Skipped && dev.sdk >= LollipopMr1
                && old(vpn).Some? && FilterOr(p, false) && SameTunnel(built, old(lastBuilder))
      ensures path == NativeRestart ==>
                && res == Completed && vpn == old(vpn) && lastBuilder == old(lastBuilder)
                && platform.closed == old(platform.closed) && platform.outcomes == old(platform.outcomes)
      ensures path == LegacyRestart || path == VpnRestart ==> lastBuilder == Some(built)
      // at most one descriptor is closed, and only the previous one
      ensures platform.closed == old(platform.closed)
           || (old(vpn).Some? && platform.closed == old(platform.closed) + [old(vpn).value])
      ensures res == Thrown(HandoverFailed) ==> path == VpnRestart && old(vpn).Some? && vpn.None?
      ensures vpn.Some? && vpn != old(vpn) ==> vpn.value >= old(platform.nextHandle)
      // a replaced descriptor has been closed exactly once
      ensures old(vpn).Some? && vpn != old(vpn) ==> multiset(platform.closed)[old(vpn).value] == 1
      ensures res == Completed && path != Skipped ==> ipFilters == map[]
    {
      if interactive {
        var process := AnyScreenDependent(rules, lastMetered);
        if !process {
          return Completed, Skipped, Builder(None, 0, [], [], [], []);
        }
      }
      res, path, built := Rebuild(rules, p, dev);
    }

    /** The part of reload after the interactive check. */
    method Rebuild(rules: seq<Rule>, p: Prefs, dev: Device)
      returns (res: Outcome, ghost path: ReloadPath, built: Builder)
      requires Valid()
      modifies this, platform
      ensures platform.nextHandle >= old(platform.nextHandle)
      ensures Valid()
      ensures path != Skipped
      ensures lastInteractive == old(lastInteractive) && userForeground == old(userForeground)
      ensures temporarilyStopped == old(temporarilyStopped)
      ensures Configured(built, rules, p, dev)
      ensures res == ReloadResult(path, old(platform.outcomes), old(vpn).Some?)
      ensures res == Completed <==> vpn.Some? && res != Thrown(SecurityDenied)
      ensures res == Thrown(StartFailed) ==> vpn.None?
      ensures path == LegacyRestart <==> dev.sdk < LollipopMr1
      ensures path == NativeRestart <==>
                && dev.sdk >= LollipopMr1
                && old(vpn).Some? && FilterOr(p, false) && SameTunnel(built, old(lastBuilder))
      ensures path == NativeRestart ==>
                && res == Completed && vpn == old(vpn) && lastBuilder == old(lastBuilder)
                && platform.closed == old(platform.closed) && platform.outcomes == old(platform.outcomes)
      ensures path == LegacyRestart || path == VpnRestart ==> lastBuilder == Some(built)
      ensures platform.closed == old(platform.closed)
           || (old(vpn).Some? && platform.closed == old(platform.closed) + [old(vpn).value])
      ensures res == Thrown(HandoverFailed) ==> path == VpnRestart && old(vpn).Some? && vpn.None?
      ensures vpn.Some? && vpn != old(vpn) ==> vpn.value >= old(platform.nextHandle)
      ensures res == Completed ==> ipFilters == map[]
    {
      var allowed;
      allowed, built := Configure(rules, p, dev);
      res, path := Restart(built, dev.sdk, FilterOr(p, false), p.clearOnReload);
    }

    /** The restart of reload for configuration `b`, on platform version
        `sdk`, with the "filter" preference `filter`. */
    method Restart(b: Builder, sdk: int, filter: bool, clear: bool) returns (res: Outcome, ghost path: ReloadPath)
      requires Valid()
      modifies this, platform
      ensures platform.nextHandle >= old(platform.nextHandle)
      ensures Valid()
      ensures path != Skipped
      ensures state == old(state) && lastConnected == old(lastConnected) && lastMetered == old(lastMetered)
      ensures lastInteractive == old(lastInteractive) && userForeground == old(userForeground)
      ensures temporarilyStopped == old(temporarilyStopped)
      ensures res == ReloadResult(path, old(platform.outcomes), old(vpn).Some?)
      ensures res == Completed <==> vpn.Some? && res != Thrown(SecurityDenied)
      ensures res == Thrown(StartFailed) ==> vpn.None?
      ensures path == LegacyRestart <==> sdk < LollipopMr1
      ensures path == NativeRestart <==>
                sdk >= LollipopMr1 && old(vpn).Some? && filter && SameTunnel(b, old(lastBuilder))
      ensures path == NativeRestart ==>
                && res == Completed && vpn == old(vpn) && lastBuilder == old(lastBuilder)
                && platform.closed == old(platform.closed) && platform.outcomes == old(platform.outcomes)
      ensures path == LegacyRestart || path == VpnRestart ==> lastBuilder == Some(b)
      ensures platform.closed == old(platform.closed)
           || (old(vpn).Some? && platform.closed == old(platform.closed) + [old(vpn).value])
      ensures res == Thrown(HandoverFailed) ==> path == VpnRestart && old(vpn).Some? && vpn.None?
      ensures vpn.Some? && vpn != old(vpn) ==> vpn.value >= old(platform.nextHandle)
      ensures res == Completed ==> ipFilters == map[]
    {
      if sdk < LollipopMr1 {
        path := LegacyRestart;
        res := LegacySwap(b, clear);
      } else {
        var same := Equals(b, lastBuilder);
        if vpn.Some? && filter && same {
          path := NativeRestart;
          StopNative(clear);
          res := Completed;
        } else {
          path := VpnRestart;
          res := Handover(b, clear);
        }
      }
      if res.Completed? {
        res := Finish();
      }
    }

    /** The session facts that only start and reload's preparation change. */
    twostate predicate SessionKept()
      reads this
    {
      && state == old(state) && lastConnected == old(lastConnected) && lastMetered == old(lastMetered)
      && lastInteractive == old(lastInteractive) && userForeground == old(userForeground)
      && temporarilyStopped == old(temporarilyStopped) && ipFilters == old(ipFilters)
    }

    /** The legacy restart of reload (before Lollipop MR1): close the open
        descriptor, then establish the new configuration. */
    method LegacySwap(b: Builder, clear: bool) returns (res: Outcome)
      requires Valid()
      modifies this, platform
      ensures platform.nextHandle >= old(platform.nextHandle)
      ensures SessionKept() && lastBuilder == Some(b) && !tunnelThread
      ensures res.Thrown? ==> res == Thrown(SecurityDenied) && Valid()
      ensures res.Thrown? ==> res == StartResult(AnswerAt(old(platform.outcomes), 0))
      ensures res.Completed? ==> platform.NoLeak(Held(vpn))
      ensures res.Completed? ==>
                (if vpn.Some? then Completed else Thrown(StartFailed)) == StartResult(AnswerAt(old(platform.outcomes), 0))
      ensures platform.closed == old(platform.closed)
           || (old(vpn).Some? && platform.closed == old(platform.closed) + [old(vpn).value])
      ensures vpn.Some? ==> vpn.value >= old(platform.nextHandle)
    {
      lastBuilder := Some(b);
      if vpn.Some? {
        StopNative(clear);
        CloseCurrent();
      }
      var e := platform.Establish(b, {});
      if e.SecurityError? {
        return Thrown(SecurityDenied);
      }
      vpn := if e.Opened? then Some(e.h) else None;
      res := Completed;
    }

    /** The VPN restart of reload: a seamless handover that establishes the
        new configuration before closing the previous descriptor; when no
        descriptor comes back, the previous one is closed and the
        configuration established once more, and a second refusal fails the
        reload with HandoverFailed. */
    method Handover(b: Builder, clear: bool) returns (res: Outcome)
      requires Valid()
      modifies this, platform
      ensures platform.nextHandle >= old(platform.nextHandle)
      ensures SessionKept() && lastBuilder == Some(b)
      ensures res.Thrown? ==> Valid()
      ensures res.Thrown? ==> res == Thrown(SecurityDenied) || (res == Thrown(HandoverFailed) && old(vpn).Some? && vpn.None?)
      ensures res.Completed? ==> !tunnelThread && platform.NoLeak(Held(vpn))
      ensures res.Thrown? ==> res == HandoverResult(old(platform.outcomes), old(vpn).Some?)
      ensures res.Completed? ==>
                (if vpn.Some? then Completed else Thrown(StartFailed)) == HandoverResult(old(platform.outcomes), old(vpn).Some?)
      ensures platform.closed == old(platform.closed)
           || (old(vpn).Some? && platform.closed == old(platform.closed) + [old(vpn).value])
      ensures vpn.Some? && vpn != old(vpn) ==> vpn.value >= old(platform.nextHandle)
    {
      lastBuilder := Some(b);
      var prev := vpn;
      var e := platform.Establish(b, Held(prev));
      if e.SecurityError? {
        return Thrown(SecurityDenied);
      }
      vpn := if e.Opened? then Some(e.h) else None;
      if prev.Some? && vpn.None? {
        assert AnswerAt(platform.outcomes, 0) == AnswerAt(old(platform.outcomes), 1);
        res := Fallback(b, prev.value, clear);
        return;
      }
      if prev.Some? {
        ReleasePrevious(prev.value, clear);
      }
      res := Completed;
    }

    /** The fallback of a failed handover: close the previous descriptor
        `prev`, then establish the configuration once more; no descriptor is
        a HandoverFailed. */
    method Fallback(b: Builder, prev: Handle, clear: bool) returns (res: Outcome)
      requires vpn.None? && platform.NoLeak({prev})
      modifies this, platform
      ensures SessionKept() && lastBuilder == old(lastBuilder)
      ensures platform.nextHandle >= old(platform.nextHandle)
      ensures platform.closed == old(platform.closed) + [prev]
      ensures res.Thrown? ==> Valid()
      ensures res.Thrown? ==> res == Thrown(SecurityDenied) || (res == Thrown(HandoverFailed) && vpn.None?)
      ensures res.Completed? ==> !tunnelThread && vpn.Some? && platform.NoLeak(Held(vpn))
      ensures res == RetryResult(AnswerAt(old(platform.outcomes), 0))
      ensures vpn.Some? ==> vpn.value >= old(platform.nextHandle)
    {
      ReleasePrevious(prev, clear);
      var e := platform.Establish(b, {});
      if e.SecurityError? {
        return Thrown(SecurityDenied);
      }
      vpn := if e.Opened? then Some(e.h) else None;
      if vpn.None? {
        return Thrown(HandoverFailed);
      }
      res := Completed;
    }

    /** Stop the engine and close the descriptor `prev` that the handover
        replaces (or gives up on). */
    method ReleasePrevious(prev: Handle, clear: bool)
      requires vpn != Some(prev) && platform.NoLeak({prev} + Held(vpn))
      modifies this, platform
      ensures SessionKept() && vpn == old(vpn) && lastBuilder == old(lastBuilder)
      ensures !tunnelThread && platform.NoLeak(Held(vpn))
      ensures platform.closed == old(platform.closed) + [prev]
      ensures platform.nextHandle == old(platform.nextHandle) && platform.outcomes == old(platform.outcomes)
    {
      StopNative(clear);
      platform.Close(prev, {prev} + Held(vpn));
      assert {prev} + Held(vpn) - {prev} == Held(vpn);
    }

    /** The common end of reload: fail with StartFailed when no descriptor
        is open, otherwise start the engine on it. */
    method Finish() returns (res: Outcome)
      requires platform.NoLeak(Held(vpn)) && !tunnelThread
      modifies this
      ensures Valid()
      ensures res == (if vpn.Some? then Completed else Thrown(StartFailed))
      ensures vpn == old(vpn) && lastBuilder == old(lastBuilder)
      ensures vpn.Some? ==> ipFilters == map[]
      ensures vpn.None? ==> ipFilters == old(ipFilters)
      ensures state == old(state) && lastConnected == old(lastConnected) && lastMetered == old(lastMetered)
      ensures lastInteractive == old(lastInteractive) && userForeground == old(userForeground)
      ensures temporarilyStopped == old(temporarilyStopped)
    {
      if vpn.None? {
        return Thrown(StartFailed);
      }
      StartNative();
      res := Completed;
    }

    /** stop: closes the open descriptor, if any, after stopping the engine,
        and clears the per-flow tables; a stop that is not temporary also
        leaves the enforcing state. */
    method Stop(temporary: bool)
      requires Valid()
      modifies this, platform
      ensures Valid()
      ensures vpn.None? && !tunnelThread
      ensures old(vpn).Some? ==> platform.closed == old(platform.closed) + [old(vpn).value] && ipFilters == map[]
      ensures old(vpn).None? ==> platform.closed == old(platform.closed) && ipFilters == old(ipFilters)
      ensures platform.outcomes == old(platform.outcomes) && platform.nextHandle == old(platform.nextHandle)
      ensures state == if old(state) == Enforcing && !temporary then Idle else old(state)
      ensures lastBuilder == old(lastBuilder)
      ensures lastConnected == old(lastConnected) && lastMetered == old(lastMetered)
      ensures lastInteractive == old(lastInteractive) && userForeground == old(userForeground)
      ensures temporarilyStopped == old(temporarilyStopped)
    {
      if vpn.Some? {
        StopNative(true);
        CloseCurrent();
        Unprepare();
      }
      if state == Enforcing && !temporary {
        state := Idle;
      }
    }

    /** watchdog: restarts the service when it is enabled but holds no
        descriptor (the process was killed). */
    method Watchdog(rules: seq<Rule>, p: Prefs, dev: Device) returns (res: Outcome)
      requires Valid()
      modifies this, platform
      ensures Valid()
      ensures lastInteractive == old(lastInteractive) && userForeground == old(userForeground)
      ensures temporarilyStopped == old(temporarilyStopped)
      ensures platform.closed == old(platform.closed)
      ensures old(vpn).Some? || !p.enabled ==> res == Completed && unchanged(this) && unchanged(platform)
      ensures old(vpn).None? && p.enabled ==>
                && lastBuilder.Some? && Configured(lastBuilder.value, rules, p, dev)
                && (res == Completed <==> vpn.Some?)
                && res == StartResult(AnswerAt(old(platform.outcomes), 0))
    {
      res := Completed;
      if vpn.None? && p.enabled {
        res := Start(rules, p, dev);
      }
    }

    /** handleIntent: the gate, the command itself, and the classification
        of a failure. `consentGranted` stands for the platform's answer to
        whether VPN consent is in place, asked only after a failure. */
    method HandleIntent(cmd: Command, rules: seq<Rule>, p: Prefs, dev: Device, consentGranted: bool)
      returns (reaction: Reaction, outcome: Outcome, ghost path: ReloadPath)
      requires Valid()
      modifies this, platform
      ensures Valid()
      ensures Gate(cmd, old(userForeground), old(temporarilyStopped)).Ignored? ==>
                reaction == NoReaction && outcome == Completed && unchanged(this) && unchanged(platform)
      ensures Gate(cmd, old(userForeground), old(temporarilyStopped)).Proceed? ==>
                Gate(cmd, old(userForeground), old(temporarilyStopped)) == Proceed(temporarilyStopped)
      ensures reaction == if outcome.Thrown? then Classify(cmd, outcome.failure, consentGranted, lastConnected) else NoReaction
      ensures cmd.Stop? ==> vpn.None? && outcome == Completed && platform.nextHandle == old(platform.nextHandle)
      ensures cmd.Run? || cmd.StatsCommand? || cmd.Set? || cmd.Householding? ==>
                outcome == Completed && vpn == old(vpn) && platform.closed == old(platform.closed)
      ensures cmd.Start? || cmd.Watchdog? ==> platform.closed == old(platform.closed)
      ensures cmd.Start? && outcome.Completed? && Gate(cmd, old(userForeground), old(temporarilyStopped)).Proceed? ==> vpn.Some?
      // a command that passes the gate runs its operation
      ensures cmd.Stop? ==> state == if old(state) == Enforcing && !cmd.temporary then Idle else old(state)
      ensures cmd.Start? && Gate(cmd, old(userForeground), old(temporarilyStopped)).Proceed? ==>
                outcome == if old(vpn).Some? then Completed else StartResult(AnswerAt(old(platform.outcomes), 0))
      ensures cmd.Start? && Gate(cmd, old(userForeground), old(temporarilyStopped)).Proceed? && old(vpn).None? ==>
                lastBuilder.Some? && Configured(lastBuilder.value, rules, p, dev)
      ensures cmd.Watchdog? && Gate(cmd, old(userForeground), old(temporarilyStopped)).Proceed? && (old(vpn).Some? || !p.enabled) ==>
                outcome == Completed && unchanged(platform) && vpn == old(vpn) && state == old(state)
      ensures cmd.Watchdog? && Gate(cmd, old(userForeground), old(temporarilyStopped)).Proceed? && old(vpn).None? && p.enabled ==>
                outcome == StartResult(AnswerAt(old(platform.outcomes), 0))
      ensures !(cmd.Reload? && Gate(cmd, old(userForeground), old(temporarilyStopped)).Proceed?) ==> path == Skipped
      ensures cmd.Reload? && Gate(cmd, old(userForeground), old(temporarilyStopped)).Proceed? ==>
                (path == Skipped <==> cmd.interactive && !ScreenDependent(rules, old(lastMetered)))
      ensures cmd.Reload? && path == Skipped ==> outcome == Completed && unchanged(platform) && vpn == old(vpn) && state == old(state)
      ensures cmd.Reload? && path != Skipped ==>
                && state == Enforcing && lastConnected == dev.network.connected && lastMetered == DeriveMetered(dev.network, p)
                && outcome == ReloadResult(path, old(platform.outcomes), old(vpn).Some?)
    {
      path := Skipped;
      var g := Gate(cmd, userForeground, temporarilyStopped);
      if g.Ignored? {
        reaction, outcome := NoReaction, Completed;
        return;
      }
      temporarilyStopped := g.latch;
      outcome := Completed;
      match cmd {
        case Start =>
          outcome := Start(rules, p, dev);
        case Reload(interactive) =>
          var built;
          outcome, path, built := Reload(interactive, rules, p, dev);
        case Stop(_) =>
          Stop(temporarilyStopped);
        case Watchdog =>
          outcome := Watchdog(rules, p, dev);
        case _ =>
      }
      reaction := if outcome.Thrown? then Classify(cmd, outcome.failure, consentGranted, lastConnected) else NoReaction;
    }
  }
}

/** Command sequences over one controller. */
module Scenarios {
  import opened Wrappers
  import opened Settings
  import opened Admission
  import opened Tunnel
  import opened Sinkhole

  /** Builder equality is transitive. */
  lemma SameTunnelTransitive(a: Builder, b: Builder, c: Builder)
    requires SameTunnel(a, Some(b)) && SameTunnel(b, Some(c))
    ensures SameTunnel(a, Some(c))
  {
  }

  /** A temporary stop followed by a connectivity-triggered reload: the
      reload is dropped, and the tunnel stays down. */
  method TemporaryStopThenReload(c: Controller, rules: seq<Rule>, p: Prefs, dev: Device, consent: bool)
    returns (stopped: Reaction, reloaded: Reaction)
    requires c.Valid()
    modifies c, c.platform
    ensures c.Valid()
    ensures c.vpn.None? && !c.tunnelThread && c.temporarilyStopped
    ensures stopped == NoReaction && reloaded == NoReaction
    ensures c.platform.nextHandle == old(c.platform.nextHandle)
  {
    var o;
    ghost var path;
    stopped, o, path := c.HandleIntent(Stop(true), rules, p, dev, consent);
    reloaded, o, path := c.HandleIntent(Reload(false), rules, p, dev, consent);
  }

  /** Two interactive reloads with no rule depending on the screen state for
      the derived metering class: the first is skipped iff no rule depends on
      it for the cached class, and either way the second does nothing at all,
      since a reload that runs caches the derived class. */
  method InteractiveReloadTwice(c: Controller, rules: seq<Rule>, p: Prefs, dev: Device)
    returns (ghost first: ReloadPath, ghost second: ReloadPath,
             ghost closedBetween: seq<Handle>, ghost vpnBetween: Option<Handle>)
    requires c.Valid()
    requires !ScreenDependent(rules, DeriveMetered(dev.network, p))
    modifies c, c.platform
    ensures c.Valid()
    ensures first == Skipped <==> !ScreenDependent(rules, old(c.lastMetered))
    ensures second == Skipped
    ensures c.platform.closed == closedBetween && c.vpn == vpnBetween
    ensures first == Skipped ==> closedBetween == old(c.platform.closed) && vpnBetween == old(c.vpn)
  {
    var res, built;
    res, first, built := c.Reload(true, rules, p, dev);
    closedBetween, vpnBetween := c.platform.closed, c.vpn;
    res, second, built := c.Reload(true, rules, p, dev);
  }

  /** Two non-interactive reloads in a row with filtering on, from Lollipop
      MR1 on and on a known network: when the first one completes, the
      second rebuilds an equal configuration and only restarts the engine,
      closing no descriptor. `res` is the first failure, if any. */
  method ReloadTwice(c: Controller, rules: seq<Rule>, p: Prefs, dev: Device)
    returns (res: Outcome, ghost second: ReloadPath, ghost closedBetween: seq<Handle>)
    requires c.Valid()
    requires dev.sdk >= LollipopMr1 && dev.networkType.Some? && FilterOr(p, false)
    modifies c, c.platform
    ensures c.Valid()
    ensures res == Completed ==>
              second == NativeRestart && c.platform.closed == closedBetween && c.vpn.Some?
  {
    ghost var first;
    var built1, built2;
    res, first, built1 := c.Reload(false, rules, p, dev);
    second := Skipped;
    closedBetween := c.platform.closed;
    if res == Completed {
      ghost var before := c.lastBuilder;
      assert first == NativeRestart ==> SameTunnel(built1, before);
      var res2;
      res2, second, built2 := c.Reload(false, rules, p, dev);
      var allowed := AllowedRules(rules, dev.network, p, c.lastInteractive);
      BuildersForSameInputsEqual(built2, built1, allowed, rules, p, dev, dev.network.connected);
      if first == NativeRestart {
        SameTunnelTransitive(built2, built1, before.value);
      }
      res := res2;
    }
  }
}
