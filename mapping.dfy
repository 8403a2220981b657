/**
 * PDO basics of CiA 301 as the drivers use them: the 32-bit mapping word
 * `index << 16 | subIndex << 8 | bitLength` written into a PDO mapping
 * parameter, the 64-bit payload of one PDO, the object indices of the PDO
 * communication and mapping parameters, and the meaning of a transmission type.
 */
module PdoMapping {

  newtype uint8 = x: int | 0 <= x < 0x100
  newtype uint16 = x: int | 0 <= x < 0x1_0000
  newtype uint32 = x: int | 0 <= x < 0x1_0000_0000

  /** Data bits one PDO carries: a CAN frame has eight data bytes. */
  const PdoCapacityBits: nat := 64

  /** Highest mapping sub-index, and so the largest mapped-object count, of a PDO. */
  const MaxMappedObjects: nat := 0x40

  /** Receive PDOs are commands to the node, transmit PDOs are its telemetry. */
  datatype PdoDir = Rx | Tx

  /** CiA 301 numbers the PDOs of each direction from 1 to 512. */
  type PdoNumber = x: int | 1 <= x <= 512 witness 1

  /** One decoded mapping word: which object is mapped and with how many bits. */
  datatype MappingEntry = MappingEntry(index: uint16, subIndex: uint8, bitLength: uint8)

  function Encode(e: MappingEntry): uint32
  {
    (e.index as int * 0x1_0000 + e.subIndex as int * 0x100 + e.bitLength as int) as uint32
  }

  function Decode(w: uint32): MappingEntry
  {
    MappingEntry((w as int / 0x1_0000) as uint16,
                 (w as int / 0x100 % 0x100) as uint8,
                 (w as int % 0x100) as uint8)
  }

  lemma DivModBy256(hi: int, lo: int)
    requires 0 <= lo < 0x100
    ensures (hi * 0x100 + lo) / 0x100 == hi && (hi * 0x100 + lo) % 0x100 == lo
  {
  }

  lemma DivModBy65536(hi: int, lo: int)
    requires 0 <= lo < 0x1_0000
    ensures (hi * 0x1_0000 + lo) / 0x1_0000 == hi
  {
  }

  lemma DecodeEncode(e: MappingEntry)
    ensures Decode(Encode(e)) == e
  {
    var i, s, b := e.index as int, e.subIndex as int, e.bitLength as int;
    var w := i * 0x1_0000 + s * 0x100 + b;
    assert Encode(e) as int == w;
    DivModBy65536(i, s * 0x100 + b);
    assert w == (i * 0x100 + s) * 0x100 + b;
    DivModBy256(i * 0x100 + s, b);
    DivModBy256(i, s);
  }

  lemma EncodeDecode(w: uint32)
    ensures Encode(Decode(w)) == w
  {
  }

  function Bits(w: uint32): nat
  {
    Decode(w).bitLength as nat
  }

  /** Bits of a PDO payload taken by a list of mapping words. */
  function TotalBits(words: seq<uint32>): nat
  {
    if words == [] then 0 else TotalBits(words[..|words| - 1]) + Bits(words[|words| - 1])
  }

  /** The mapping words fit in one PDO, both in count and in payload bits. */
  predicate FitsPdo(words: seq<uint32>)
  {
    |words| <= MaxMappedObjects && TotalBits(words) <= PdoCapacityBits
  }

  /** Object index of the communication parameter (COB-ID, transmission type) of a PDO. */
  function CommunicationParameterIndex(dir: PdoDir, pdo: PdoNumber): (r: uint16)
    ensures dir == Rx ==> 0x1400 <= r <= 0x15FF
    ensures dir == Tx ==> 0x1800 <= r <= 0x19FF
    ensures r as int % 0x200 == pdo - 1
  {
    (if dir == Rx then 0x1400 + pdo - 1 else 0x1800 + pdo - 1) as uint16
  }

  /** Object index of the mapping parameter of a PDO: 1600h-17FFh receive, 1A00h-1BFFh transmit. */
  function MappingParameterIndex(dir: PdoDir, pdo: PdoNumber): (r: uint16)
    ensures dir == Rx ==> 0x1600 <= r <= 0x17FF
    ensures dir == Tx ==> 0x1A00 <= r <= 0x1BFF
    ensures r as int == CommunicationParameterIndex(dir, pdo) as int + 0x200
  {
    (if dir == Rx then 0x1600 + pdo - 1 else 0x1A00 + pdo - 1) as uint16
  }

  /** What a PDO transmission type (sub-index 2 of the communication parameter) means
      under CiA 301; receive and transmit PDOs read the same number differently. */
  datatype TransmissionKind =
    | SyncAcyclic
    | SyncCyclic(everyNthSync: nat)
    | OnNextSync
    | Reserved
    | RtrSync
    | RtrAsync
    | EventDriven

  /** A transmit PDO of type 0 goes out on the SYNC after an event, of type n in 1..240
      on every n-th SYNC, 252 and 253 on a remote request; a receive PDO of any type in
      0..240 is applied at the next SYNC; 254 and 255 are event driven in both directions
      and the rest is reserved. */
  function Classify(dir: PdoDir, t: uint8): (k: TransmissionKind)
    ensures dir == Tx ==> (k == SyncAcyclic <==> t == 0)
    ensures dir == Tx ==> (k.SyncCyclic? <==> 1 <= t <= 240)
    ensures k.SyncCyclic? ==> k.everyNthSync == t as nat
    ensures dir == Tx ==> (k == Reserved <==> 241 <= t <= 251)
    ensures dir == Tx ==> (k == RtrSync <==> t == 252)
    ensures dir == Tx ==> (k == RtrAsync <==> t == 253)
    ensures dir == Rx ==> (k == OnNextSync <==> t <= 240)
    ensures dir == Rx ==> (k == Reserved <==> 241 <= t <= 253)
    ensures k == EventDriven <==> t >= 254
  {
    if t >= 254 then EventDriven
    else if dir == Rx then (if t <= 240 then OnNextSync else Reserved)
    else if t == 0 then SyncAcyclic
    else if t <= 240 then SyncCyclic(t as nat)
    else if t <= 251 then Reserved
    else if t == 252 then RtrSync
    else RtrAsync
  }

  /** A PDO of this transmission type goes out on, or is applied at, a SYNC. */
  predicate IsSynchronous(dir: PdoDir, t: uint8)
  {
    var k := Classify(dir, t);
    k == SyncAcyclic || k.SyncCyclic? || k == OnNextSync || k == RtrSync
  }
}
