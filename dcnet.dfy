/** The DC-net encoder of one participant (prifi-lib dcnet): the payload
    length its options leave, the per-round skipping of pad material, and the
    in-place XOR of one pad per shared PRNG into the padded payload. */
module DcNet {
  import opened Wrappers

  /** Go's int32. */
  newtype int32 = x: int | -0x8000_0000 <= x < 0x8000_0000

  /** The key stream of one PRNG, byte by byte. */
  type Stream = nat -> bv8

  /** The bytes of a shared key. */
  type Key = seq<bv8>

  datatype EntityKind = Client | Trustee | Relay

  /** The number of rounds from `from` up to `to`. */
  function Gap(from: int32, to: int32): nat
    requires from <= to
  {
    to as int - from as int
  }

  /** Bytes reserved for the disruption-protection hash. */
  const DisruptionContribLength: int := 32

  /** The payload length left by the options. The 32 bytes of the
      disruption tag are reserved when *equivocation* protection is on, as
      the code does. */
  function PayloadLength(messageSize: int, equivContribLength: int, equivEnabled: bool): int {
    messageSize - equivContribLength - (if equivEnabled then DisruptionContribLength else 0)
  }

  /** The cryptographic helpers, uninterpreted: the HMAC of a client's
      message, the equivocation encryption of a client's payload with its
      tag, a trustee's equivocation contribution, and the PRNG seeded from a
      shared key. */
  datatype Crypto = Crypto(
    hmac: (int, seq<bv8>) -> seq<bv8>,
    clientEncrypt: (seq<bv8>, seq<seq<bv8>>) -> (seq<bv8>, seq<bv8>),
    trusteeContribution: seq<seq<bv8>> -> seq<bv8>,
    seed: Key -> Stream)

  /** A DCNetCipher before serialisation. */
  datatype Cipher = Cipher(payload: seq<bv8>, disruptionTag: Option<seq<bv8>>, equivocationTag: Option<seq<bv8>>)

  datatype EncodeError = PayloadTooLong | RoundInPast

  // ---------------------------------------------------------------------
  // Bytes and pads

  function Zeros(n: nat): (z: seq<bv8>)
    ensures |z| == n && forall k :: 0 <= k < n ==> z[k] == 0
  {
    seq(n, _ => 0)
  }

  /** `len` bytes of a stream from `offset` on. */
  function Block(s: Stream, offset: nat, len: nat): (b: seq<bv8>)
    ensures |b| == len && forall k :: 0 <= k < len ==> b[k] == s(offset + k)
  {
    seq(len, k requires 0 <= k < len => s(offset + k))
  }

  /** Byte-wise exclusive or. */
  function Xor(a: seq<bv8>, b: seq<bv8>): (r: seq<bv8>)
    requires |a| == |b|
    ensures |r| == |a| && forall k :: 0 <= k < |a| ==> r[k] == a[k] ^ b[k]
  {
    seq(|a|, k requires 0 <= k < |a| => a[k] ^ b[k])
  }

  predicate AllOfLength(pads: seq<seq<bv8>>, n: nat) {
    forall i :: 0 <= i < |pads| ==> |pads[i]| == n
  }

  /** `base` with the pads XORed into it one after the other. */
  function XorAll(base: seq<bv8>, pads: seq<seq<bv8>>): (r: seq<bv8>)
    requires AllOfLength(pads, |base|)
    ensures |r| == |base|
    decreases |pads|
  {
    if pads == [] then base
    else Xor(XorAll(base, pads[..|pads| - 1]), pads[|pads| - 1])
  }

  /** The exclusive or of byte `k` of every pad. */
  function Column(pads: seq<seq<bv8>>, k: nat): bv8
    requires forall i :: 0 <= i < |pads| ==> k < |pads[i]|
    decreases |pads|
  {
    if pads == [] then 0
    else Column(pads[..|pads| - 1], k) ^ pads[|pads| - 1][k]
  }

  /** Byte `k` of the encoding is byte `k` of the base XOR byte `k` of every
      pad. */
  lemma {:induction false} XorAllAt(base: seq<bv8>, pads: seq<seq<bv8>>, k: nat)
    requires AllOfLength(pads, |base|) && k < |base|
    ensures XorAll(base, pads)[k] == base[k] ^ Column(pads, k)
    decreases |pads|
  {
    if pads != [] {
      var n := |pads| - 1;
      assert AllOfLength(pads[..n], |base|);
      XorAllAt(base, pads[..n], k);
    }
  }

  /** The DC-net property: XORing a message encoded with some pads with the
      encoding of zeros under the same pads gives the message back. */
  lemma PadsCancel(m: seq<bv8>, pads: seq<seq<bv8>>)
    requires AllOfLength(pads, |m|)
    ensures Xor(XorAll(m, pads), XorAll(Zeros(|m|), pads)) == m
  {
    var z := Zeros(|m|);
    forall k | 0 <= k < |m| ensures Xor(XorAll(m, pads), XorAll(z, pads))[k] == m[k] {
      XorAllAt(m, pads, k);
      XorAllAt(z, pads, k);
    }
  }

  /** XOR the pads into the buffer in place, pad by pad. */
  method XorPadsInto(buf: array<bv8>, pads: seq<seq<bv8>>)
    requires AllOfLength(pads, buf.Length)
    modifies buf
    ensures buf[..] == XorAll(old(buf[..]), pads)
  {
    ghost var base := buf[..];
    for i := 0 to |pads|
      invariant buf[..] == XorAll(base, pads[..i])
    {
      ghost var before := buf[..];
      for k := 0 to buf.Length
        invariant forall j :: 0 <= j < k ==> buf[j] == before[j] ^ pads[i][j]
        invariant forall j :: k <= j < buf.Length ==> buf[j] == before[j]
      {
        buf[k] := buf[k] ^ pads[i][k];
      }
      assert pads[..i + 1][..i] == pads[..i];
      assert buf[..] == Xor(before, pads[i]);
    }
    assert pads[..|pads|] == pads;
  }

  // ---------------------------------------------------------------------
  // The participant

  class DCNetEntity {
    const entityID: int
    const entity: EntityKind
    const equivEnabled: bool
    const disruptionEnabled: bool
    const messageSize: int
    const equivContribLength: int
    const payloadLength: int
    const crypto: Crypto
    const sharedKeys: seq<Key>
    const prngs: seq<Stream>
    /** How many bytes each PRNG has produced. */
    var consumed: seq<nat>
    var currentRound: int32

    ghost predicate Valid()
      reads this
    {
      payloadLength > 0 && |consumed| == |prngs|
    }

    /** NewDCNetEntity for options that leave a positive payload length.
        `suiteContribLength` is the byte length of the equivocation suite's
        largest scalar. */
    constructor (entityID: int, entity: EntityKind, messageSize: int, equivEnabled: bool,
                 disruptionEnabled: bool, sharedKeys: seq<Key>, suiteContribLength: int, crypto: Crypto)
      requires PayloadLength(messageSize, if equivEnabled then suiteContribLength else 0, equivEnabled) > 0
      ensures Valid()
      ensures this.entityID == entityID && this.entity == entity && this.messageSize == messageSize
      ensures this.equivEnabled == equivEnabled && this.disruptionEnabled == disruptionEnabled
      ensures this.crypto == crypto && currentRound == 0
      ensures equivContribLength == if equivEnabled then suiteContribLength else 0
      ensures payloadLength == PayloadLength(messageSize, equivContribLength, equivEnabled)
      // a relay shares no keys; anyone else has one PRNG per shared key
      ensures entity == Relay ==> this.sharedKeys == [] && prngs == []
      ensures entity != Relay ==> this.sharedKeys == sharedKeys && |prngs| == |sharedKeys|
      ensures entity != Relay ==> forall i :: 0 <= i < |sharedKeys| ==> prngs[i] == crypto.seed(sharedKeys[i])
      ensures forall i :: 0 <= i < |consumed| ==> consumed[i] == 0
    {
      this.entityID := entityID;
      this.entity := entity;
      this.messageSize := messageSize;
      this.equivEnabled := equivEnabled;
      this.disruptionEnabled := disruptionEnabled;
      this.crypto := crypto;
      currentRound := 0;
      var ps: seq<Stream> := [];
      if entity != Relay {
        this.sharedKeys := sharedKeys;
        for i := 0 to |sharedKeys|
          invariant |ps| == i
          invariant forall j :: 0 <= j < i ==> ps[j] == crypto.seed(sharedKeys[j])
        {
          ps := ps + [crypto.seed(sharedKeys[i])];
        }
      } else {
        this.sharedKeys := [];
      }
      prngs := ps;
      var contrib := 0;
      if equivEnabled {
        contrib := suiteContribLength;
      }
      equivContribLength := contrib;
      var len := messageSize - contrib;
      if equivEnabled {
        len := len - DisruptionContribLength;
      }
      payloadLength := len;
      consumed := seq(|ps|, _ => 0);
    }

    /** The next pad of every PRNG when they have produced `offsets` bytes. */
    function PadsAt(offsets: seq<nat>): (pads: seq<seq<bv8>>)
      requires |offsets| == |prngs| && payloadLength >= 0
      ensures |pads| == |prngs| && AllOfLength(pads, payloadLength)
      ensures forall i :: 0 <= i < |prngs| ==> pads[i] == Block(prngs[i], offsets[i], payloadLength)
    {
      seq(|prngs|, i requires 0 <= i < |prngs| => Block(prngs[i], offsets[i], payloadLength))
    }

    /** Every offset moved on by `rounds` pads. */
    function Advanced(offsets: seq<nat>, rounds: nat): (r: seq<nat>)
      requires payloadLength >= 0
      ensures |r| == |offsets|
      ensures forall i :: 0 <= i < |offsets| ==> r[i] == offsets[i] + rounds * payloadLength
    {
      seq(|offsets|, i requires 0 <= i < |offsets| => offsets[i] + rounds * payloadLength)
    }

    lemma AdvancedTwice(offsets: seq<nat>, a: nat, b: nat)
      requires payloadLength >= 0
      ensures Advanced(Advanced(offsets, a), b) == Advanced(offsets, a + b)
    {
      assert forall i :: 0 <= i < |offsets| ==> offsets[i] + a * payloadLength + b * payloadLength == offsets[i] + (a + b) * payloadLength;
    }

    /** A client's plaintext, padded the way clientEncode pads it: a missing
        payload is all zeros, a shorter one is extended with zeros. */
    function Padded(input: Option<seq<bv8>>): (b: seq<bv8>)
      requires payloadLength >= 0
      requires input.Some? ==> |input.value| <= payloadLength
      ensures |b| == payloadLength
      ensures input.Some? ==> b[..|input.value|] == input.value
      ensures forall k :: (if input.Some? then |input.value| else 0) <= k < payloadLength ==> b[k] == 0
    {
      if input.None? then Zeros(payloadLength)
      else input.value + Zeros(payloadLength - |input.value|)
    }

    /** What a client sends for a padded plaintext and its pads: the XOR of
        the pads into the plaintext, tagged with its HMAC when disruption
        protection is on, and replaced by its equivocation encryption when
        that is on. */
    function ClientCipher(plain: seq<bv8>, pads: seq<seq<bv8>>): Cipher
      requires AllOfLength(pads, |plain|)
    {
      var x := XorAll(plain, pads);
      var (enc, sigma) := crypto.clientEncrypt(x, pads);
      Cipher(if equivEnabled then enc else x,
             if disruptionEnabled then Some(crypto.hmac(entityID, x)) else None,
             if equivEnabled then Some(sigma) else None)
    }

    /** What a trustee (or relay) sends: its pads XORed into zeros, with its
        equivocation contribution when that protection is on. */
    function TrusteeCipher(pads: seq<seq<bv8>>): Cipher
      requires payloadLength >= 0 && AllOfLength(pads, payloadLength)
    {
      Cipher(XorAll(Zeros(payloadLength), pads), None,
             if equivEnabled then Some(crypto.trusteeContribution(pads)) else None)
    }

    /** A participant without PRNGs (a relay) sends all zeros. */
    lemma NoPadsZeros(offsets: seq<nat>)
      requires prngs == [] && offsets == [] && payloadLength >= 0
      ensures TrusteeCipher(PadsAt(offsets)).payload == Zeros(payloadLength)
    {
      assert PadsAt(offsets) == [];
    }

    /** Draw one pad from every PRNG. */
    method DrawPads() returns (pads: seq<seq<bv8>>)
      requires Valid()
      modifies this
      ensures Valid() && currentRound == old(currentRound)
      ensures pads == PadsAt(old(consumed))
      ensures consumed == Advanced(old(consumed), 1)
    {
      pads := [];
      for i := 0 to |prngs|
        invariant |consumed| == |prngs| && |pads| == i && currentRound == old(currentRound)
        invariant forall j :: 0 <= j < i ==> pads[j] == Block(prngs[j], old(consumed)[j], payloadLength)
        invariant forall j :: 0 <= j < i ==> consumed[j] == old(consumed)[j] + payloadLength
        invariant forall j :: i <= j < |prngs| ==> consumed[j] == old(consumed)[j]
      {
        pads := pads + [Block(prngs[i], consumed[i], payloadLength)];
        consumed := consumed[i := consumed[i] + payloadLength];
      }
      assert pads == PadsAt(old(consumed));
      assert consumed == Advanced(old(consumed), 1);
    }

    /** The discard loop of EncodeForRound: one pad per PRNG per skipped
        round. */
    method SkipTo(roundID: int32)
      requires Valid() && currentRound <= roundID
      modifies this
      ensures Valid() && currentRound == roundID
      ensures consumed == Advanced(old(consumed), Gap(old(currentRound), roundID))
    {
      while currentRound < roundID
        invariant Valid() && old(currentRound) <= currentRound <= roundID
        invariant consumed == Advanced(old(consumed), Gap(old(currentRound), currentRound))
        decreases roundID as int - currentRound as int
      {
        ghost var before := consumed;
        ghost var round := currentRound;
        for i := 0 to |prngs|
          invariant |consumed| == |prngs| && currentRound == round
          invariant forall j :: 0 <= j < i ==> consumed[j] == before[j] + payloadLength
          invariant forall j :: i <= j < |prngs| ==> consumed[j] == before[j]
        {
          consumed := consumed[i := consumed[i] + payloadLength];
        }
        ghost var done := Gap(old(currentRound), currentRound);
        assert forall j :: 0 <= j < |prngs| ==> consumed[j] == old(consumed)[j] + (done + 1) * payloadLength;
        currentRound := currentRound + 1;
        assert consumed == Advanced(old(consumed), done + 1);
      }
    }

    /** clientEncode. A payload of exactly the payload length is encoded in
        the caller's own buffer; a missing or shorter one in a fresh, padded
        buffer. */
    method ClientEncode(payload: array?<bv8>) returns (c: Cipher)
      requires Valid()
      requires payload != null ==> payload.Length <= payloadLength
      modifies this, payload
      ensures Valid() && currentRound == old(currentRound)
      ensures consumed == Advanced(old(consumed), 1)
      ensures c == ClientCipher(Padded(if payload == null then None else Some(old(payload[..]))), PadsAt(old(consumed)))
      ensures payload != null && payload.Length == payloadLength ==> payload[..] == XorAll(old(payload[..]), PadsAt(old(consumed)))
      ensures payload != null && payload.Length < payloadLength ==> payload[..] == old(payload[..])
    {
      ghost var input := if payload == null then None else Some(payload[..]);
      var buf: array<bv8>;
      if payload == null {
        buf := new bv8[payloadLength](_ => 0);
      } else if payload.Length < payloadLength {
        buf := new bv8[payloadLength](_ => 0);
        for k := 0 to payload.Length
          modifies buf
          invariant forall j :: 0 <= j < k ==> buf[j] == payload[j]
          invariant forall j :: k <= j < payloadLength ==> buf[j] == 0
        {
          buf[k] := payload[k];
        }
      } else {
        buf := payload;
      }
      assert buf[..] == Padded(input) by {
        if input.Some? {
          assert buf[..][..|input.value|] == input.value;
        }
      }
      var pads := DrawPads();
      XorPadsInto(buf, pads);
      var x := buf[..];
      var tag: Option<seq<bv8>> := None;
      if disruptionEnabled {
        tag := Some(crypto.hmac(entityID, x));
      }
      c := Cipher(x, tag, None);
      if equivEnabled {
        var (enc, sigma) := crypto.clientEncrypt(x, pads);
        c := c.(payload := enc, equivocationTag := Some(sigma));
      }
    }

    /** trusteeEncode (also what a relay runs). */
    method TrusteeEncode() returns (c: Cipher)
      requires Valid()
      modifies this
      ensures Valid() && currentRound == old(currentRound)
      ensures consumed == Advanced(old(consumed), 1)
      ensures c == TrusteeCipher(PadsAt(old(consumed)))
    {
      var buf := new bv8[payloadLength](_ => 0);
      assert buf[..] == Zeros(payloadLength);
      var pads := DrawPads();
      XorPadsInto(buf, pads);
      c := Cipher(buf[..], None, None);
      if equivEnabled {
        c := c.(equivocationTag := Some(crypto.trusteeContribution(pads)));
      }
    }

    /** EncodeForRound: fails on a payload longer than the payload length,
        then on a round in the past; otherwise discards one pad per PRNG for
        every round up to `roundID`, which becomes the current round, and
        encodes the payload (a client) or zeros (anyone else) with the next
        pads. */
    method EncodeForRound(roundID: int32, payload: array?<bv8>) returns (r: Result<Cipher, EncodeError>)
      requires Valid()
      modifies this, payload
      ensures Valid()
      ensures payload != null && payload.Length > payloadLength ==>
                r == Err(PayloadTooLong) && unchanged(this) && unchanged(payload)
      ensures !(payload != null && payload.Length > payloadLength) && roundID < old(currentRound) ==>
                r == Err(RoundInPast) && unchanged(this) && (payload != null ==> unchanged(payload))
      ensures r.Ok? <==> !(payload != null && payload.Length > payloadLength) && roundID >= old(currentRound)
      ensures r.Ok? ==> currentRound == roundID
      ensures r.Ok? ==> consumed == Advanced(old(consumed), Gap(old(currentRound), roundID) + 1)
      ensures r.Ok? && entity == Client ==>
                r.value == ClientCipher(Padded(if payload == null then None else Some(old(payload[..]))),
                                        PadsAt(Advanced(old(consumed), Gap(old(currentRound), roundID))))
      ensures r.Ok? && entity != Client ==>
                r.value == TrusteeCipher(PadsAt(Advanced(old(consumed), Gap(old(currentRound), roundID))))
      ensures entity == Client && payload != null && payload.Length == payloadLength && r.Ok? ==>
                payload[..] == XorAll(old(payload[..]), PadsAt(Advanced(old(consumed), Gap(old(currentRound), roundID))))
      ensures !(entity == Client && payload != null && payload.Length == payloadLength) && payload != null ==>
                payload[..] == old(payload[..])
      ensures r.Err? ==> r.error == PayloadTooLong || r.error == RoundInPast
    {
      if payload != null && payload.Length > payloadLength {
        return Err(PayloadTooLong);
      }
      if roundID < currentRound {
        return Err(RoundInPast);
      }
      ghost var rounds := Gap(currentRound, roundID);
      SkipTo(roundID);
      var c;
      if entity == Client {
        c := ClientEncode(payload);
      } else {
        c := TrusteeEncode();
      }
      AdvancedTwice(old(consumed), rounds, 1);
      r := Ok(c);
    }
  }

  /** NewDCNetEntity: no entity when the options leave no payload (the
      source panics). */
  method NewDCNetEntity(entityID: int, entity: EntityKind, messageSize: int, equivEnabled: bool,
                        disruptionEnabled: bool, sharedKeys: seq<Key>, suiteContribLength: int, crypto: Crypto)
    returns (e: DCNetEntity?)
    ensures e == null <==> PayloadLength(messageSize, if equivEnabled then suiteContribLength else 0, equivEnabled) <= 0
    ensures e != null ==> fresh(e) && e.Valid() && e.currentRound == 0 && e.entity == entity
    ensures e != null ==> e.entityID == entityID && e.messageSize == messageSize && e.crypto == crypto
    ensures e != null ==> e.equivEnabled == equivEnabled && e.disruptionEnabled == disruptionEnabled
    ensures e != null ==> e.equivContribLength == if equivEnabled then suiteContribLength else 0
    ensures e != null ==> e.payloadLength == PayloadLength(messageSize, if equivEnabled then suiteContribLength else 0, equivEnabled)
    ensures e != null ==> |e.prngs| == if entity == Relay then 0 else |sharedKeys|
    ensures e != null && entity == Relay ==> e.sharedKeys == []
    ensures e != null && entity != Relay ==> e.sharedKeys == sharedKeys
    ensures e != null && entity != Relay ==> forall i :: 0 <= i < |sharedKeys| ==> e.prngs[i] == crypto.seed(sharedKeys[i])
    ensures e != null ==> forall i :: 0 <= i < |e.consumed| ==> e.consumed[i] == 0
  {
    if PayloadLength(messageSize, if equivEnabled then suiteContribLength else 0, equivEnabled) <= 0 {
      return null;
    }
    e := new DCNetEntity(entityID, entity, messageSize, equivEnabled, disruptionEnabled, sharedKeys, suiteContribLength, crypto);
  }
}
