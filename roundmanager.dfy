/** The client's DC-net round manager (prifi-lib client): it keeps the round
    counter in step with the cell coder, and reveals the bit a client sent at
    a position of an earlier round. */
module RoundManager {
  import opened Wrappers
  import opened DcNet

  const MaxInt32: int := 0x7fff_ffff

  /** Go's `x++` on an int32, which wraps from the largest value to the
      smallest. */
  function Inc32(x: int32): (y: int32)
    ensures y as int == (x as int + 1 + 0x8000_0000) % 0x1_0000_0000 - 0x8000_0000
    ensures x as int < MaxInt32 ==> y as int == x as int + 1
  {
    if x as int == MaxInt32 then -0x8000_0000 else x + 1
  }

  function Max32(a: int32, b: int32): int32 {
    if a < b then b else a
  }

  /** One call of CellCoder.ClientEncode; a missing payload is Go's nil.
      `history` identifies the history cipher that is passed on. */
  datatype EncodeCall = EncodeCall(payload: Option<seq<bv8>>, payloadSize: int, history: nat)

  /** `n` discard calls. */
  function Discards(n: nat, payloadSize: int, history: nat): (d: seq<EncodeCall>)
    ensures |d| == n && forall k :: 0 <= k < n ==> d[k] == EncodeCall(None, payloadSize, history)
  {
    seq(n, _ => EncodeCall(None, payloadSize, history))
  }

  /** The cell coder, abstract: it logs its calls and answers each with a
      fixed function of the calls so far. */
  class CellCoder {
    var calls: seq<EncodeCall>
    const respond: seq<EncodeCall> -> seq<bv8>
    const cellSize: nat

    constructor (respond: seq<EncodeCall> -> seq<bv8>, cellSize: nat)
      ensures calls == [] && this.respond == respond && this.cellSize == cellSize
    {
      calls := [];
      this.respond := respond;
      this.cellSize := cellSize;
    }

    method ClientEncode(payload: Option<seq<bv8>>, payloadSize: int, history: nat) returns (data: seq<bv8>)
      modifies this
      ensures calls == old(calls) + [EncodeCall(payload, payloadSize, history)]
      ensures data == respond(calls)
    {
      calls := calls + [EncodeCall(payload, payloadSize, history)];
      data := respond(calls);
    }
  }

  datatype RevealError = FutureRound | IndexOutOfRange

  /** Bit `n` of a byte, counted from the least significant, by shifting. */
  function BitOf(b: bv8, n: nat): int
    requires n < 8
  {
    if (b >> n as bv8) & 1 == 1 then 1 else 0
  }

  /** The test RevealBits writes: the byte masked with `1 << n`. */
  function MaskBit(b: bv8, n: nat): (bit: int)
    requires n < 8
    ensures bit == BitOf(b, n)
  {
    MaskTest(b, n);
    if b & (1 << n as bv8) == 0 then 0 else 1
  }

  /** The mask test agrees with the bit taken by shifting. */
  lemma MaskTest(b: bv8, n: nat)
    requires n < 8
    ensures (b & (1 << n as bv8) != 0) <==> ((b >> n as bv8) & 1 == 1)
  {
    if n == 0 { } else if n == 1 { } else if n == 2 { } else if n == 3 { }
    else if n == 4 { } else if n == 5 { } else if n == 6 { } else { assert n == 7; }
  }

  /** The bit `bitPos` of a block: bit `bitPos % 8` of byte `bitPos / 8`. */
  function BitAt(block: seq<bv8>, bitPos: nat): int
    requires bitPos / 8 < |block|
  {
    BitOf(block[bitPos / 8], bitPos % 8)
  }

  /** What RevealBits reveals: for every peer, the bit at `bitPos` of the
      block of its fresh cipher at `offset`. */
  function Revealed(streams: seq<Stream>, offset: nat, len: nat, bitPos: nat): (bits: map<int, int>)
    requires bitPos / 8 < len
    ensures forall i :: i in bits <==> 0 <= i < |streams|
    ensures forall i :: 0 <= i < |streams| ==> bits[i] == BitAt(Block(streams[i], offset, len), bitPos)
  {
    map i | 0 <= i < |streams| :: BitAt(Block(streams[i], offset, len), bitPos)
  }

  /** DCNet_RoundManager. `sharedSecrets` stands for the DC-net cipher each
      shared secret yields; the key derivation is not modelled. */
  class DCNetRoundManager {
    const coder: CellCoder
    var currentRound: int32
    var sharedSecrets: seq<Stream>

    constructor (coder: CellCoder)
      ensures this.coder == coder && currentRound == 0 && sharedSecrets == []
    {
      this.coder := coder;
      currentRound := 0;
      sharedSecrets := [];
    }

    method ClientSetup(sharedSecrets: seq<Stream>)
      modifies this
      ensures this.sharedSecrets == sharedSecrets && currentRound == old(currentRound)
    {
      this.sharedSecrets := sharedSecrets;
    }

    /** ClientEncodeForRound: a discard call with no payload for every round
        before `roundID`, then the real call, whose answer is returned; the
        counter ends one past the encoded round. */
    method ClientEncodeForRound(roundID: int32, payload: Option<seq<bv8>>, payloadSize: int, history: nat)
      returns (data: seq<bv8>)
      modifies this, coder
      ensures currentRound == Inc32(Max32(old(currentRound), roundID))
      ensures coder.calls == old(coder.calls)
                             + Discards(if old(currentRound) < roundID then Gap(old(currentRound), roundID) else 0, payloadSize, history)
                             + [EncodeCall(payload, payloadSize, history)]
      ensures data == coder.respond(coder.calls)
      ensures sharedSecrets == old(sharedSecrets)
    {
      ghost var start := currentRound;
      while currentRound < roundID
        invariant start <= currentRound && (start < roundID ==> currentRound <= roundID)
        invariant start >= roundID ==> currentRound == start
        invariant coder.calls == old(coder.calls) + Discards(Gap(start, currentRound), payloadSize, history)
        invariant sharedSecrets == old(sharedSecrets)
        decreases roundID as int - currentRound as int
      {
        var _ := coder.ClientEncode(None, payloadSize, history);
        currentRound := currentRound + 1;
      }
      assert currentRound == Max32(start, roundID);
      data := coder.ClientEncode(payload, payloadSize, history);
      currentRound := Inc32(currentRound);
    }

    /** RevealBits with the arithmetic its code intends: a future round is
        an error; otherwise every peer's fresh cipher is moved on by one cell
        for every round from `roundID` up to the current one, and the bit at
        `bitPos` of its next cell is revealed. A position outside the cell is
        an error once there is a peer to read for. The counter is not
        changed. */
    method RevealBits(roundID: int32, bitPos: int) returns (r: Result<map<int, int>, RevealError>)
      ensures roundID > currentRound ==> r == Err(FutureRound)
      ensures roundID <= currentRound && sharedSecrets != [] && !(0 <= bitPos && bitPos / 8 < coder.cellSize) ==>
                r == Err(IndexOutOfRange)
      ensures roundID <= currentRound && sharedSecrets == [] ==> r == Ok(map[])
      ensures r.Ok? <==> roundID <= currentRound && (sharedSecrets == [] || (0 <= bitPos && bitPos / 8 < coder.cellSize))
      ensures r.Ok? ==> roundID <= currentRound
      ensures r.Ok? && sharedSecrets != [] ==>
                0 <= bitPos && bitPos / 8 < coder.cellSize &&
                r.value == Revealed(sharedSecrets, Gap(roundID, currentRound) * coder.cellSize, coder.cellSize, bitPos)
    {
      if roundID > currentRound {
        return Err(FutureRound);
      }
      var len := coder.cellSize;
      var positions := Rewind(roundID, currentRound, |sharedSecrets|, len);
      r := ReadBits(sharedSecrets, positions, len, bitPos);
      if sharedSecrets != [] && r.Ok? {
        assert r.value == Revealed(sharedSecrets, Gap(roundID, currentRound) * len, len, bitPos);
      }
    }
  }

  /** The discard loop of RevealBits: every one of `npeers` fresh ciphers is
      moved on by one cell of `len` bytes for each round from `roundID` up to
      `current`. */
  method Rewind(roundID: int32, current: int32, npeers: nat, len: nat) returns (positions: seq<nat>)
    requires roundID <= current
    ensures |positions| == npeers
    ensures forall i :: 0 <= i < npeers ==> positions[i] == Gap(roundID, current) * len
  {
    positions := seq(npeers, _ => 0);
    var roundId := roundID;
    while current > roundId
      invariant roundID <= roundId <= current
      invariant |positions| == npeers
      invariant forall i :: 0 <= i < npeers ==> positions[i] == Gap(roundID, roundId) * len
      decreases current as int - roundId as int
    {
      ghost var done := Gap(roundID, roundId);
      for i := 0 to npeers
        invariant |positions| == npeers
        invariant forall j :: 0 <= j < i ==> positions[j] == (done + 1) * len
        invariant forall j :: i <= j < npeers ==> positions[j] == done * len
      {
        positions := positions[i := positions[i] + len];
      }
      roundId := roundId + 1;
      assert Gap(roundID, roundId) == done + 1;
    }
  }

  /** The reading loop of RevealBits: for every peer, the bit at `bitPos` of
      the cell at its position, or an error for a position outside the cell
      as soon as there is a peer. */
  method ReadBits(streams: seq<Stream>, positions: seq<nat>, len: nat, bitPos: int)
    returns (r: Result<map<int, int>, RevealError>)
    requires |positions| == |streams|
    ensures streams != [] && !(0 <= bitPos && bitPos / 8 < len) ==> r == Err(IndexOutOfRange)
    ensures streams == [] ==> r == Ok(map[])
    ensures r.Ok? <==> streams == [] || (0 <= bitPos && bitPos / 8 < len)
    ensures r.Ok? && streams != [] ==> 0 <= bitPos && bitPos / 8 < len
    ensures r.Ok? ==> forall i :: i in r.value <==> 0 <= i < |streams|
    ensures r.Ok? ==> forall i :: 0 <= i < |streams| && 0 <= bitPos && bitPos / 8 < len ==>
              r.value[i] == BitAt(Block(streams[i], positions[i], len), bitPos)
  {
    var bits: map<int, int> := map[];
    for i := 0 to |streams|
      invariant forall j :: j in bits <==> 0 <= j < i
      invariant i > 0 ==> 0 <= bitPos && bitPos / 8 < len
      invariant forall j :: 0 <= j < i ==> bits[j] == BitAt(Block(streams[j], positions[j], len), bitPos)
    {
      var dst := Block(streams[i], positions[i], len);
      if bitPos < 0 || bitPos / 8 >= len {
        return Err(IndexOutOfRange);
      }
      var m := bitPos / 8;
      var n := bitPos % 8;
      bits := bits[i := MaskBit(dst[m], n)];
    }
    if |streams| == 0 {
      assert bits.Keys == {} by {
        forall j | j in bits.Keys ensures false { }
      }
    }
    r := Ok(bits);
  }
}
