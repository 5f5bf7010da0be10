/** The inputs the VPN service reads at the start of a command cycle: its
    shared preferences, what the connectivity probe reports, and what the
    platform reports about installed apps, DNS servers and the tunnel engine.
    All of them are immutable snapshots for the duration of one command. */
module Settings {
  import opened Wrappers

  /** An IP address, abstracted to the attributes the service inspects. */
  datatype InetAddr = InetAddr(text: string, isV4: bool, isLoopback: bool, isAnyLocal: bool)

  /** The service's preferences, with the defaults its getters use already
      applied, except `filter`: its getter uses default `true` when the tunnel
      configuration is built and default `false` everywhere else. */
  datatype Prefs = Prefs(
    enabled: bool,            // "enabled", default false
    filter: Option<bool>,     // "filter", no stored value = None
    ip6: bool,                // "ip6", default true
    vpn4: string,             // "vpn4", default "10.1.10.1"
    vpn6: string,             // "vpn6", default "fd00:1:fd00:1:fd00:1:fd00:1"
    dns1: Option<InetAddr>,   // "dns": None when unset or unparsable
    dns2: Option<InetAddr>,   // "dns2": None when unset or unparsable
    lan: bool,                // "lan", default false
    useHosts: bool,           // "use_hosts", default false
    useMetered: bool,         // "use_metered", default false
    wifiHomes: set<string>,   // "wifi_homes", default empty
    unmetered2g: bool,        // "unmetered_2g", default false
    unmetered3g: bool,        // "unmetered_3g", default false
    unmetered4g: bool,        // "unmetered_4g", default false
    lockdown: bool,           // "lockdown", default false
    lockdownWifi: bool,       // "lockdown_wifi", default true
    lockdownOther: bool,      // "lockdown_other", default true
    clearOnReload: bool)      // "clear_onreload", default false

  /** The "filter" preference read with the given default. */
  function FilterOr(p: Prefs, default: bool): bool {
    p.filter.GetOr(default)
  }

  /** What the connectivity probe reports. */
  datatype NetworkState = NetworkState(
    connected: bool,
    wifi: bool,
    metered: bool,
    ssid: string,
    roaming: bool)

  /** Android API levels that gate behaviour. */
  const Lollipop: int := 21
  const LollipopMr1: int := 22

  /** Everything else the platform reports during one cycle. */
  datatype Device = Device(
    network: NetworkState,
    networkType: Option<int>,        // type of the active network; None when there is none
    systemDns: seq<InetAddr>,        // system DNS servers, already parsed
    subnets: seq<set<InetAddr>>,     // per up, non-loopback interface address: the addresses of its subnet
    mtu: int,                        // what the tunnel engine reports as its MTU
    apps: seq<string>,               // package names of the installed apps
    prifiApps: set<string>,          // apps the user routes through the tunnel
    ownPackage: string,
    sdk: int)
}
