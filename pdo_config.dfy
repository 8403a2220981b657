/**
 * The PDO configuration batches both drivers append, described once: deactivating
 * the four PDOs of a direction, and setting up one PDO (COB-ID, transmission type,
 * count 0, mapping words at sub-indices 1..n, count n). Beside them, the CiA 301
 * mapping procedure as a reference: a node refuses a mapping write while the PDO is
 * mapped, and refuses a count whose entries are missing or overflow the payload.
 */
module PdoConfig {
  import opened PdoMapping
  import opened Sdo

  datatype Option<T> = None | Some(value: T)

  /** Mapped-object count 0 for PDOs 1 to 4 of one direction, in that order. */
  function DeactivateAll(c: SdoChannel, dir: PdoDir): seq<Sdo>
  {
    [Sdo(c, Pdo(dir, 1, MappedCount(0))), Sdo(c, Pdo(dir, 2, MappedCount(0))),
     Sdo(c, Pdo(dir, 3, MappedCount(0))), Sdo(c, Pdo(dir, 4, MappedCount(0)))]
  }

  /** The mapping words written at consecutive sub-indices from `first` on. */
  function MappingWrites(c: SdoChannel, dir: PdoDir, pdo: PdoNumber, words: seq<uint32>, first: nat): (r: seq<Sdo>)
    requires first + |words| <= 0x100
    ensures |r| == |words|
    ensures forall k :: 0 <= k < |words| ==> r[k] == Sdo(c, Pdo(dir, pdo, Mapping((first + k) as uint8, words[k])))
    decreases words
  {
    if words == [] then []
    else [Sdo(c, Pdo(dir, pdo, Mapping(first as uint8, words[0])))] + MappingWrites(c, dir, pdo, words[1..], first + 1)
  }

  /** Setting up one PDO: COB-ID, transmission type, count 0, the mappings, the final count. */
  function PdoSetup(c: SdoChannel, dir: PdoDir, pdo: PdoNumber, transmissionType: uint8, words: seq<uint32>): seq<Sdo>
    requires |words| <= MaxMappedObjects
  {
    [Sdo(c, Pdo(dir, pdo, CobId)),
     Sdo(c, Pdo(dir, pdo, TransmissionType(transmissionType))),
     Sdo(c, Pdo(dir, pdo, MappedCount(0)))]
    + MappingWrites(c, dir, pdo, words, 1)
    + [Sdo(c, Pdo(dir, pdo, MappedCount(|words| as uint8)))]
  }

  predicate IsMappingOf(op: Op, dir: PdoDir, pdo: PdoNumber)
  {
    op.Pdo? && op.dir == dir && op.pdo == pdo && op.param.Mapping?
  }

  /** How many mapping words a batch writes into one PDO. */
  function MappingRequests(q: seq<Sdo>, dir: PdoDir, pdo: PdoNumber): nat
  {
    if q == [] then 0
    else (if IsMappingOf(q[0].op, dir, pdo) then 1 else 0) + MappingRequests(q[1..], dir, pdo)
  }

  lemma {:induction false} MappingRequestsAppend(a: seq<Sdo>, b: seq<Sdo>, dir: PdoDir, pdo: PdoNumber)
    ensures MappingRequests(a + b, dir, pdo) == MappingRequests(a, dir, pdo) + MappingRequests(b, dir, pdo)
    decreases a
  {
    if a == [] {
      assert a + b == b;
    } else {
      assert (a + b)[0] == a[0] && (a + b)[1..] == a[1..] + b;
      MappingRequestsAppend(a[1..], b, dir, pdo);
    }
  }

  lemma {:induction false} MappingRequestsOfWrites(c: SdoChannel, dir: PdoDir, pdo: PdoNumber, words: seq<uint32>, first: nat)
    requires first + |words| <= 0x100
    ensures MappingRequests(MappingWrites(c, dir, pdo, words, first), dir, pdo) == |words|
    decreases words
  {
    if words != [] {
      var q := MappingWrites(c, dir, pdo, words, first);
      assert q[1..] == MappingWrites(c, dir, pdo, words[1..], first + 1);
      assert IsMappingOf(q[0].op, dir, pdo);
      MappingRequestsOfWrites(c, dir, pdo, words[1..], first + 1);
    }
  }

  /** The layout of a PDO set-up: COB-ID, transmission type, count 0, then the mapping
      words at sub-indices 1, 2, ... in order, and finally the count of words. */
  lemma PdoSetupLayout(c: SdoChannel, dir: PdoDir, pdo: PdoNumber, transmissionType: uint8, words: seq<uint32>)
    requires |words| <= MaxMappedObjects
    ensures var r := PdoSetup(c, dir, pdo, transmissionType, words);
      && |r| == |words| + 4
      && r[0] == Sdo(c, Pdo(dir, pdo, CobId))
      && r[1] == Sdo(c, Pdo(dir, pdo, TransmissionType(transmissionType)))
      && r[2] == Sdo(c, Pdo(dir, pdo, MappedCount(0)))
      && (forall k :: 0 <= k < |words| ==> r[3 + k] == Sdo(c, Pdo(dir, pdo, Mapping((k + 1) as uint8, words[k]))))
      && r[|r| - 1] == Sdo(c, Pdo(dir, pdo, MappedCount(|words| as uint8)))
  {
    var writes := MappingWrites(c, dir, pdo, words, 1);
    var r := PdoSetup(c, dir, pdo, transmissionType, words);
    forall k | 0 <= k < |words|
      ensures r[3 + k] == Sdo(c, Pdo(dir, pdo, Mapping((k + 1) as uint8, words[k])))
    {
      assert r[3 + k] == writes[k];
    }
  }

  /** The count a PDO set-up writes last equals the number of mapping words it writes. */
  lemma PdoSetupMappingCount(c: SdoChannel, dir: PdoDir, pdo: PdoNumber, transmissionType: uint8, words: seq<uint32>)
    requires |words| <= MaxMappedObjects
    ensures var r := PdoSetup(c, dir, pdo, transmissionType, words);
      r[|r| - 1].op.Pdo? && r[|r| - 1].op.param.MappedCount?
      && r[|r| - 1].op.param.count as nat == MappingRequests(r, dir, pdo) == |words|
  {
    var head := [Sdo(c, Pdo(dir, pdo, CobId)),
                 Sdo(c, Pdo(dir, pdo, TransmissionType(transmissionType))),
                 Sdo(c, Pdo(dir, pdo, MappedCount(0)))];
    var writes := MappingWrites(c, dir, pdo, words, 1);
    var tail := [Sdo(c, Pdo(dir, pdo, MappedCount(|words| as uint8)))];
    MappingRequestsAppend(head + writes, tail, dir, pdo);
    MappingRequestsAppend(head, writes, dir, pdo);
    MappingRequestsOfWrites(c, dir, pdo, words, 1);
    assert MappingRequests(tail, dir, pdo) == 0 by {
      assert tail[1..] == [];
    }
    assert MappingRequests(head, dir, pdo) == 0 by {
      var h1, h2, h3 := head[1..], head[2..], head[3..];
      assert h3 == [] && h2[1..] == h3 && h1[1..] == h2 && head[1..] == h1;
      assert MappingRequests(h2, dir, pdo) == MappingRequests(h3, dir, pdo);
      assert MappingRequests(h1, dir, pdo) == MappingRequests(h2, dir, pdo);
    }
  }

  /** The object dictionary address a PDO configuration request writes. */
  datatype ObjectAddress = ObjectAddress(index: uint16, subIndex: uint8)

  function PdoAddress(op: Op): (a: Option<ObjectAddress>)
    ensures a.Some? <==> op.Pdo?
    ensures op.Pdo? && (op.param.MappedCount? || op.param.Mapping?) ==>
      a.value.index == MappingParameterIndex(op.dir, op.pdo)
    ensures op.Pdo? && (op.param.CobId? || op.param.TransmissionType?) ==>
      a.value.index == CommunicationParameterIndex(op.dir, op.pdo)
  {
    match op
    case Pdo(d, p, CobId) => Some(ObjectAddress(CommunicationParameterIndex(d, p), 1))
    case Pdo(d, p, TransmissionType(_)) => Some(ObjectAddress(CommunicationParameterIndex(d, p), 2))
    case Pdo(d, p, MappedCount(_)) => Some(ObjectAddress(MappingParameterIndex(d, p), 0))
    case Pdo(d, p, Mapping(s, _)) => Some(ObjectAddress(MappingParameterIndex(d, p), s))
    case _ => None
  }

  /** Every request of a PDO set-up writes that PDO's own communication or mapping
      parameter; the count goes to sub-index 0 of the mapping parameter and the k-th
      mapping word to sub-index k. */
  lemma PdoSetupAddresses(c: SdoChannel, dir: PdoDir, pdo: PdoNumber, transmissionType: uint8, words: seq<uint32>)
    requires |words| <= MaxMappedObjects
    ensures var r := PdoSetup(c, dir, pdo, transmissionType, words);
      forall i :: 0 <= i < |r| ==>
        && PdoAddress(r[i].op).Some?
        && PdoAddress(r[i].op).value.index in {CommunicationParameterIndex(dir, pdo), MappingParameterIndex(dir, pdo)}
    ensures var r := PdoSetup(c, dir, pdo, transmissionType, words);
      forall i :: 3 <= i < |r| - 1 ==>
        PdoAddress(r[i].op) == Some(ObjectAddress(MappingParameterIndex(dir, pdo), (i - 2) as uint8))
    ensures var r := PdoSetup(c, dir, pdo, transmissionType, words);
      PdoAddress(r[2].op) == PdoAddress(r[|r| - 1].op) == Some(ObjectAddress(MappingParameterIndex(dir, pdo), 0))
  {
    PdoSetupLayout(c, dir, pdo, transmissionType, words);
  }

  /** Requests that write no PDO parameter at all. */
  predicate TouchesNoPdo(q: seq<Sdo>)
  {
    forall i :: 0 <= i < |q| ==> !q[i].op.Pdo?
  }

  /** Every request of a PDO set-up is addressed to the device and writes that one PDO. */
  lemma PdoSetupTargets(c: SdoChannel, dir: PdoDir, pdo: PdoNumber, transmissionType: uint8, words: seq<uint32>)
    requires |words| <= MaxMappedObjects
    ensures var r := PdoSetup(c, dir, pdo, transmissionType, words);
      forall i :: 0 <= i < |r| ==> r[i].channel == c && r[i].op.Pdo? && r[i].op.dir == dir && r[i].op.pdo == pdo
  {
    var head := [Sdo(c, Pdo(dir, pdo, CobId)),
                 Sdo(c, Pdo(dir, pdo, TransmissionType(transmissionType))),
                 Sdo(c, Pdo(dir, pdo, MappedCount(0)))];
    var writes := MappingWrites(c, dir, pdo, words, 1);
    var tail := [Sdo(c, Pdo(dir, pdo, MappedCount(|words| as uint8)))];
    var r := PdoSetup(c, dir, pdo, transmissionType, words);
    assert r == head + writes + tail;
    forall i | 0 <= i < |r|
      ensures r[i].channel == c && r[i].op.Pdo? && r[i].op.dir == dir && r[i].op.pdo == pdo
    {
      if i < 3 {
        assert r[i] == head[i];
      } else if i < 3 + |writes| {
        assert r[i] == writes[i - 3];
      } else {
        assert r[i] == tail[0];
      }
    }
  }

  // ---------------------------------------------------------------------------
  // Reference: the mapping parameter of one PDO as the node keeps it (CiA 301).

  /** Sub-index 0 (the number of mapped objects) and the entries at sub-indices 1..64. */
  datatype MappingObject = MappingObject(count: nat, entries: map<nat, uint32>)

  ghost predicate Complete(entries: map<nat, uint32>, n: nat)
  {
    forall i :: 1 <= i <= n ==> i in entries
  }

  /** Payload bits taken by the entries at sub-indices 1..n. */
  function MappedBits(entries: map<nat, uint32>, n: nat): nat
    requires forall i :: 1 <= i <= n ==> i in entries
  {
    if n == 0 then 0 else MappedBits(entries, n - 1) + Bits(entries[n])
  }

  /** The mapping parameter of PDO `pdo` after one request, or None when the node refuses it:
      a mapping word while PDO is mapped (count not 0), a sub-index outside 1..64, or a
      non-zero count while mapped, beyond 64, over a missing entry or beyond the payload. */
  function Apply(m: MappingObject, dir: PdoDir, pdo: PdoNumber, op: Op): Option<MappingObject>
  {
    match op
    case Pdo(d, p, MappedCount(n)) =>
      if d != dir || p != pdo then Some(m)
      else if n == 0 then Some(m.(count := 0))
      else if m.count != 0 || n as nat > MaxMappedObjects
              || !(forall i :: 1 <= i <= n as nat ==> i in m.entries)
              || MappedBits(m.entries, n as nat) > PdoCapacityBits then None
      else Some(m.(count := n as nat))
    case Pdo(d, p, Mapping(s, w)) =>
      if d != dir || p != pdo then Some(m)
      else if m.count != 0 || s == 0 || s as nat > MaxMappedObjects then None
      else Some(m.(entries := m.entries[s as nat := w]))
    case _ => Some(m)
  }

  /** The mapping parameter of PDO `pdo` after a whole batch, None once a request is refused. */
  function Replay(m: MappingObject, dir: PdoDir, pdo: PdoNumber, q: seq<Sdo>): Option<MappingObject>
    decreases |q|
  {
    if q == [] then Some(m)
    else match Apply(m, dir, pdo, q[0].op)
      case None => None
      case Some(m') => Replay(m', dir, pdo, q[1..])
  }

  function Then(r: Option<MappingObject>, dir: PdoDir, pdo: PdoNumber, q: seq<Sdo>): Option<MappingObject>
  {
    match r
    case None => None
    case Some(m) => Replay(m, dir, pdo, q)
  }

  lemma {:induction false} ReplayAppend(m: MappingObject, dir: PdoDir, pdo: PdoNumber, a: seq<Sdo>, b: seq<Sdo>)
    ensures Replay(m, dir, pdo, a + b) == Then(Replay(m, dir, pdo, a), dir, pdo, b)
    decreases |a|
  {
    if a == [] {
      assert a + b == b;
    } else {
      assert (a + b)[0] == a[0] && (a + b)[1..] == a[1..] + b;
      match Apply(m, dir, pdo, a[0].op)
      case None =>
      case Some(m') => ReplayAppend(m', dir, pdo, a[1..], b);
    }
  }

  lemma ReplaySingle(m: MappingObject, dir: PdoDir, pdo: PdoNumber, x: Sdo)
    ensures Replay(m, dir, pdo, [x]) == Apply(m, dir, pdo, x.op)
  {
    assert [x][1..] == [];
  }

  predicate Affects(op: Op, dir: PdoDir, pdo: PdoNumber)
  {
    op.Pdo? && op.dir == dir && op.pdo == pdo && (op.param.MappedCount? || op.param.Mapping?)
  }

  lemma {:induction false} ReplayUnaffected(m: MappingObject, dir: PdoDir, pdo: PdoNumber, q: seq<Sdo>)
    requires forall i :: 0 <= i < |q| ==> !Affects(q[i].op, dir, pdo)
    ensures Replay(m, dir, pdo, q) == Some(m)
    decreases |q|
  {
    if q != [] {
      assert !Affects(q[0].op, dir, pdo);
      ReplayUnaffected(m, dir, pdo, q[1..]);
    }
  }

  /** The entries after writing `words` at sub-indices `first`, `first + 1`, ... */
  function Overlay(e: map<nat, uint32>, words: seq<uint32>, first: nat): map<nat, uint32>
    decreases words
  {
    if words == [] then e else Overlay(e[first := words[0]], words[1..], first + 1)
  }

  /** Overlaying puts word k at sub-index first + k and keeps every other sub-index. */
  lemma {:induction false} OverlayAt(e: map<nat, uint32>, words: seq<uint32>, first: nat)
    ensures var r := Overlay(e, words, first);
      forall j :: first <= j < first + |words| ==> j in r && r[j] == words[j - first]
    ensures var r := Overlay(e, words, first);
      forall j :: j < first || j >= first + |words| ==> (j in r <==> j in e) && (j in e ==> r[j] == e[j])
    decreases words
  {
    if words != [] {
      var e' := e[first := words[0]];
      OverlayAt(e', words[1..], first + 1);
      var r := Overlay(e, words, first);
      assert r == Overlay(e', words[1..], first + 1);
      forall j | first <= j < first + |words| ensures j in r && r[j] == words[j - first] {
        if j > first {
          assert words[1..][j - (first + 1)] == words[j - first];
        } else {
          assert j in e' && e'[j] == words[0];
        }
      }
    }
  }

  lemma {:induction false} ReplayMappingWrites(m: MappingObject, c: SdoChannel, dir: PdoDir, pdo: PdoNumber, words: seq<uint32>, first: nat)
    requires m.count == 0 && 1 <= first && first + |words| <= MaxMappedObjects + 1
    ensures Replay(m, dir, pdo, MappingWrites(c, dir, pdo, words, first)) == Some(m.(entries := Overlay(m.entries, words, first)))
    decreases words
  {
    if words != [] {
      var q := MappingWrites(c, dir, pdo, words, first);
      assert q[1..] == MappingWrites(c, dir, pdo, words[1..], first + 1);
      var m' := m.(entries := m.entries[first := words[0]]);
      assert Apply(m, dir, pdo, q[0].op) == Some(m');
      ReplayMappingWrites(m', c, dir, pdo, words[1..], first + 1);
    }
  }

  lemma {:induction false} MappedBitsOfWords(e: map<nat, uint32>, words: seq<uint32>)
    requires forall i :: 1 <= i <= |words| ==> i in e && e[i] == words[i - 1]
    ensures Complete(e, |words|) && MappedBits(e, |words|) == TotalBits(words)
  {
    if words != [] {
      var n := |words|;
      var w' := words[..n - 1];
      forall i | 1 <= i <= |w'| ensures i in e && e[i] == w'[i - 1] {
        assert w'[i - 1] == words[i - 1];
      }
      MappedBitsOfWords(e, w');
    }
  }

  /** From ANY state of the node's mapping parameter, including an active mapping, a PDO
      set-up with fitting words is accepted request by request and leaves exactly the
      written words active: the count equals the number of mapping words. */
  lemma ReplayPdoSetup(m: MappingObject, c: SdoChannel, dir: PdoDir, pdo: PdoNumber, transmissionType: uint8, words: seq<uint32>)
    requires FitsPdo(words)
    ensures Replay(m, dir, pdo, PdoSetup(c, dir, pdo, transmissionType, words))
         == Some(MappingObject(|words|, Overlay(m.entries, words, 1)))
  {
    var pre := [Sdo(c, Pdo(dir, pdo, CobId)), Sdo(c, Pdo(dir, pdo, TransmissionType(transmissionType)))];
    var reset := Sdo(c, Pdo(dir, pdo, MappedCount(0)));
    var writes := MappingWrites(c, dir, pdo, words, 1);
    var last := Sdo(c, Pdo(dir, pdo, MappedCount(|words| as uint8)));
    assert PdoSetup(c, dir, pdo, transmissionType, words) == pre + [reset] + writes + [last];
    var m0 := m.(count := 0);
    ReplayAppend(m, dir, pdo, pre + [reset] + writes, [last]);
    ReplayAppend(m, dir, pdo, pre + [reset], writes);
    ReplayAppend(m, dir, pdo, pre, [reset]);
    ReplayUnaffected(m, dir, pdo, pre);
    ReplaySingle(m, dir, pdo, reset);
    ReplayMappingWrites(m0, c, dir, pdo, words, 1);
    var e := Overlay(m.entries, words, 1);
    OverlayAt(m.entries, words, 1);
    MappedBitsOfWords(e, words);
    ReplaySingle(m0.(entries := e), dir, pdo, last);
  }

  /** The converse: a set-up whose words overrun the 64-bit payload is refused, whatever
      state the node's mapping parameter was in, so `FitsPdo` is exactly the condition
      under which a set-up of at most 64 words is accepted. */
  lemma ReplayPdoSetupRefused(m: MappingObject, c: SdoChannel, dir: PdoDir, pdo: PdoNumber, transmissionType: uint8, words: seq<uint32>)
    requires |words| <= MaxMappedObjects && !FitsPdo(words)
    ensures Replay(m, dir, pdo, PdoSetup(c, dir, pdo, transmissionType, words)) == None
  {
    var pre := [Sdo(c, Pdo(dir, pdo, CobId)), Sdo(c, Pdo(dir, pdo, TransmissionType(transmissionType)))];
    var reset := Sdo(c, Pdo(dir, pdo, MappedCount(0)));
    var writes := MappingWrites(c, dir, pdo, words, 1);
    var last := Sdo(c, Pdo(dir, pdo, MappedCount(|words| as uint8)));
    assert PdoSetup(c, dir, pdo, transmissionType, words) == pre + [reset] + writes + [last];
    var m0 := m.(count := 0);
    ReplayAppend(m, dir, pdo, pre + [reset] + writes, [last]);
    ReplayAppend(m, dir, pdo, pre + [reset], writes);
    ReplayAppend(m, dir, pdo, pre, [reset]);
    ReplayUnaffected(m, dir, pdo, pre);
    ReplaySingle(m, dir, pdo, reset);
    ReplayMappingWrites(m0, c, dir, pdo, words, 1);
    var e := Overlay(m.entries, words, 1);
    OverlayAt(m.entries, words, 1);
    MappedBitsOfWords(e, words);
    assert words != [];
    assert MappedBits(e, |words|) > PdoCapacityBits;
    ReplaySingle(m0.(entries := e), dir, pdo, last);
  }

  /** Without the count-0 request, the same batch is refused by a node whose PDO is mapped. */
  lemma MappingWithoutResetRefused(m: MappingObject, c: SdoChannel, dir: PdoDir, pdo: PdoNumber, transmissionType: uint8, words: seq<uint32>)
    requires m.count != 0 && 1 <= |words| <= MaxMappedObjects
    ensures Replay(m, dir, pdo,
      [Sdo(c, Pdo(dir, pdo, CobId)), Sdo(c, Pdo(dir, pdo, TransmissionType(transmissionType)))]
      + MappingWrites(c, dir, pdo, words, 1)
      + [Sdo(c, Pdo(dir, pdo, MappedCount(|words| as uint8)))]) == None
  {
    var pre := [Sdo(c, Pdo(dir, pdo, CobId)), Sdo(c, Pdo(dir, pdo, TransmissionType(transmissionType)))];
    var writes := MappingWrites(c, dir, pdo, words, 1);
    var last := [Sdo(c, Pdo(dir, pdo, MappedCount(|words| as uint8)))];
    ReplayAppend(m, dir, pdo, pre + writes, last);
    ReplayAppend(m, dir, pdo, pre, writes);
    ReplayUnaffected(m, dir, pdo, pre);
    assert Apply(m, dir, pdo, writes[0].op) == None;
  }

  /** Deactivating PDOs 1-4 of a direction sets each of their counts to 0 and leaves the
      entries and every other PDO alone. */
  lemma ReplayDeactivateAll(m: MappingObject, c: SdoChannel, dir: PdoDir, d: PdoDir, pdo: PdoNumber)
    ensures Replay(m, d, pdo, DeactivateAll(c, dir)) ==
      if d == dir && pdo <= 4 then Some(m.(count := 0)) else Some(m)
  {
    var q := DeactivateAll(c, dir);
    if d == dir && pdo <= 4 {
      var i := pdo - 1;
      assert q == q[..i] + [q[i]] + q[i + 1..];
      ReplayAppend(m, d, pdo, q[..i] + [q[i]], q[i + 1..]);
      ReplayAppend(m, d, pdo, q[..i], [q[i]]);
      ReplayUnaffected(m, d, pdo, q[..i]);
      ReplaySingle(m, d, pdo, q[i]);
      ReplayUnaffected(m.(count := 0), d, pdo, q[i + 1..]);
    } else {
      ReplayUnaffected(m, d, pdo, q);
    }
  }

  /** A PDO set-up leaves every other PDO's mapping parameter as it was. */
  lemma ReplayPdoSetupOther(m: MappingObject, c: SdoChannel, dir: PdoDir, pdo: PdoNumber, transmissionType: uint8,
                            words: seq<uint32>, d: PdoDir, other: PdoNumber)
    requires |words| <= MaxMappedObjects && (d != dir || other != pdo)
    ensures Replay(m, d, other, PdoSetup(c, dir, pdo, transmissionType, words)) == Some(m)
  {
    PdoSetupTargets(c, dir, pdo, transmissionType, words);
    ReplayUnaffected(m, d, other, PdoSetup(c, dir, pdo, transmissionType, words));
  }

  /** A batch that writes no PDO parameter leaves every mapping parameter as it was. */
  lemma ReplayTouchesNoPdo(m: MappingObject, dir: PdoDir, pdo: PdoNumber, q: seq<Sdo>)
    requires TouchesNoPdo(q)
    ensures Replay(m, dir, pdo, q) == Some(m)
  {
    ReplayUnaffected(m, dir, pdo, q);
  }

  /** Deactivating the four PDOs of a direction and then setting up PDO `k` of it: PDO `k`
      ends with exactly the new words mapped, the other three of the four ends with count 0,
      and every other PDO is untouched. */
  lemma ReplayDeactivateThenSetup(m: MappingObject, c: SdoChannel, dir: PdoDir, k: PdoNumber, transmissionType: uint8,
                                  words: seq<uint32>, d: PdoDir, pdo: PdoNumber)
    requires k <= 4 && FitsPdo(words)
    ensures Replay(m, d, pdo, DeactivateAll(c, dir) + PdoSetup(c, dir, k, transmissionType, words)) ==
      if d == dir && pdo == k then Some(MappingObject(|words|, Overlay(m.entries, words, 1)))
      else if d == dir && pdo <= 4 then Some(m.(count := 0))
      else Some(m)
  {
    ReplayAppend(m, d, pdo, DeactivateAll(c, dir), PdoSetup(c, dir, k, transmissionType, words));
    ReplayDeactivateAll(m, c, dir, d, pdo);
    var m' := if d == dir && pdo <= 4 then m.(count := 0) else m;
    if d == dir && pdo == k {
      ReplayPdoSetup(m', c, dir, pdo, transmissionType, words);
    } else {
      ReplayPdoSetupOther(m', c, dir, k, transmissionType, words, d, pdo);
    }
  }

  // ---------------------------------------------------------------------------
  // Ordering: every PDO of a direction is deactivated before any PDO of that
  // direction is configured.

  /** A COB-ID, transmission type, mapping word or non-zero count for a PDO of `dir`. */
  predicate Configures(op: Op, dir: PdoDir)
  {
    match op
    case Pdo(d, _, param) => d == dir && param != MappedCount(0)
    case _ => false
  }

  predicate NoConfigurationBefore(q: seq<Sdo>, dir: PdoDir, i: nat)
    requires i <= |q|
  {
    forall j :: 0 <= j < i ==> !Configures(q[j].op, dir)
  }

  /** The count of `pdo` is set to 0 at a point before which no PDO of `dir` is configured. */
  ghost predicate DeactivatedFirst(q: seq<Sdo>, dir: PdoDir, pdo: PdoNumber)
  {
    exists i :: 0 <= i < |q| && q[i].op == Pdo(dir, pdo, MappedCount(0)) && NoConfigurationBefore(q, dir, i)
  }

  lemma DeactivatedFirstExtend(a: seq<Sdo>, b: seq<Sdo>, dir: PdoDir, pdo: PdoNumber)
    requires DeactivatedFirst(a, dir, pdo)
    ensures DeactivatedFirst(a + b, dir, pdo)
  {
    var i :| 0 <= i < |a| && a[i].op == Pdo(dir, pdo, MappedCount(0)) && NoConfigurationBefore(a, dir, i);
    assert (a + b)[i] == a[i];
    assert NoConfigurationBefore(a + b, dir, i) by {
      forall j | 0 <= j < i ensures !Configures((a + b)[j].op, dir) {
        assert (a + b)[j] == a[j];
      }
    }
  }

  lemma DeactivatedFirstAfter(a: seq<Sdo>, b: seq<Sdo>, dir: PdoDir, pdo: PdoNumber)
    requires NoConfigurationBefore(a, dir, |a|)
    requires DeactivatedFirst(b, dir, pdo)
    ensures DeactivatedFirst(a + b, dir, pdo)
  {
    var i :| 0 <= i < |b| && b[i].op == Pdo(dir, pdo, MappedCount(0)) && NoConfigurationBefore(b, dir, i);
    assert (a + b)[|a| + i] == b[i];
    assert NoConfigurationBefore(a + b, dir, |a| + i) by {
      forall j | 0 <= j < |a| + i ensures !Configures((a + b)[j].op, dir) {
        if j < |a| {
          assert (a + b)[j] == a[j];
        } else {
          assert (a + b)[j] == b[j - |a|];
        }
      }
    }
  }

  lemma DeactivateAllFirst(c: SdoChannel, dir: PdoDir, pdo: PdoNumber)
    requires pdo <= 4
    ensures DeactivatedFirst(DeactivateAll(c, dir), dir, pdo)
  {
    var q := DeactivateAll(c, dir);
    assert q[pdo - 1].op == Pdo(dir, pdo, MappedCount(0));
    assert NoConfigurationBefore(q, dir, pdo - 1);
  }

  lemma NoConfigurationAppend(a: seq<Sdo>, b: seq<Sdo>, dir: PdoDir)
    requires NoConfigurationBefore(a, dir, |a|) && NoConfigurationBefore(b, dir, |b|)
    ensures NoConfigurationBefore(a + b, dir, |a + b|)
  {
    forall j | 0 <= j < |a + b| ensures !Configures((a + b)[j].op, dir) {
      if j < |a| {
        assert (a + b)[j] == a[j];
      } else {
        assert (a + b)[j] == b[j - |a|];
      }
    }
  }

  /** Deactivating and setting up PDOs of one direction configures nothing of the other. */
  lemma DeactivateThenSetupOtherDirection(c: SdoChannel, dir: PdoDir, k: PdoNumber, transmissionType: uint8,
                                          words: seq<uint32>, d: PdoDir)
    requires |words| <= MaxMappedObjects && d != dir
    ensures var q := DeactivateAll(c, dir) + PdoSetup(c, dir, k, transmissionType, words);
      NoConfigurationBefore(q, d, |q|)
  {
    PdoSetupTargets(c, dir, k, transmissionType, words);
    NoConfigurationAppend(DeactivateAll(c, dir), PdoSetup(c, dir, k, transmissionType, words), d);
  }

  /** In a deactivation followed by a set-up, each of the four PDOs is deactivated before
      any PDO of the direction is configured. */
  lemma DeactivateThenSetupFirst(c: SdoChannel, dir: PdoDir, k: PdoNumber, transmissionType: uint8,
                                 words: seq<uint32>, pdo: PdoNumber)
    requires |words| <= MaxMappedObjects && pdo <= 4
    ensures DeactivatedFirst(DeactivateAll(c, dir) + PdoSetup(c, dir, k, transmissionType, words), dir, pdo)
  {
    DeactivateAllFirst(c, dir, pdo);
    DeactivatedFirstExtend(DeactivateAll(c, dir), PdoSetup(c, dir, k, transmissionType, words), dir, pdo);
  }
}
