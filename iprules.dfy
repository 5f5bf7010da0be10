/** The ephemeral per-flow table of ServiceSinkhole: IPKey values and IPRule
    entries whose expiry only ever moves forward. */
module IpRules {

  const ProtocolTcp: int := 6
  const ProtocolUdp: int := 17

  /** A lookup key: IP version, transport protocol, destination port, UID. */
  datatype IPKey = IPKey(version: int, protocol: int, dport: int, uid: int)

  /** The IPKey constructor: only TCP and UDP keep their port; every other
      protocol is keyed with port 0. */
  function MakeIPKey(version: int, protocol: int, dport: int, uid: int): (k: IPKey)
    ensures k.version == version && k.protocol == protocol && k.uid == uid
    ensures k.dport == (if protocol == ProtocolTcp || protocol == ProtocolUdp then dport else 0)
  {
    IPKey(version, protocol, if protocol == 6 || protocol == 17 then dport else 0, uid)
  }

  /** Two flows of a port-less protocol that differ only in port share a key. */
  lemma PortlessFlowsShareKey(version: int, protocol: int, p1: int, p2: int, uid: int)
    requires protocol != ProtocolTcp && protocol != ProtocolUdp
    ensures MakeIPKey(version, protocol, p1, uid) == MakeIPKey(version, protocol, p2, uid)
  {
  }

  /** The expiry after an extension request: the later of the two. */
  function ExtendedExpiry(current: int, requested: int): (r: int)
    ensures r >= current && r >= requested
    ensures r == current || r == requested
  {
    if current >= requested then current else requested
  }

  /** An entry of the table, bound to its key. */
  class IPRule {
    const key: IPKey
    const name: string
    const block: bool
    var expires: int

    constructor (key: IPKey, name: string, block: bool, expires: int)
      ensures this.key == key && this.name == name && this.block == block && this.expires == expires
    {
      this.key := key;
      this.name := name;
      this.block := block;
      this.expires := expires;
    }

    function IsBlocked(): bool {
      block
    }

    /** isExpired, with the wall clock reading passed in. */
    predicate IsExpired(now: int)
      reads this
    {
      now > expires
    }

    /** Once expired, an entry stays expired at every later time. */
    lemma ExpiredStaysExpired(now: int, later: int)
      requires now <= later && IsExpired(now)
      ensures IsExpired(later)
    {
    }

    /** updateExpires: the expiry never decreases. */
    method UpdateExpires(e: int)
      modifies this
      ensures expires == ExtendedExpiry(old(expires), e)
      ensures expires >= old(expires) && expires >= e
      ensures forall now :: !old(IsExpired(now)) ==> !IsExpired(now)
    {
      expires := if expires >= e then expires else e;
    }
  }

  /** A stale, shorter extension arriving after a longer one leaves the later
      expiry in place: the order of two extensions does not matter. */
  lemma ExtensionsCommute(current: int, e1: int, e2: int)
    ensures ExtendedExpiry(ExtendedExpiry(current, e1), e2) == ExtendedExpiry(ExtendedExpiry(current, e2), e1)
  {
  }

  /** An entry that is live at some time stays live at that time after any
      extension. */
  lemma ExtensionKeepsAlive(current: int, e: int, now: int)
    requires !(now > current)
    ensures !(now > ExtendedExpiry(current, e))
  {
  }
}
