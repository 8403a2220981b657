/**
 * The EPOS2 motor driver: the bring-up batch `initDevice` appends to the bus's SDO
 * manager and each of its parts, the enable and disable commands, the ordering of the
 * position limits, and the non-blocking polling of the status word.
 */
module Epos2 {
  import opened PdoMapping
  import opened Sdo
  import opened PdoConfig
  import opened Cia402

  /** The device parameters the requests carry. Values the driver computes from
      floating-point parameters (currents in mA, following error in ticks) are the
      integers it casts them to; the position limits are kept in their own order. */
  datatype Epos2Parameters = Epos2Parameters(
    inSdoSmId: int,
    outSdoSmId: int,
    encoderPulseNumber: int,
    encoderType: int,
    encoderPolarity: int,
    hallPolarity: int,
    motorType: int,
    polePairNumber: int,
    thermalTimeConstantWinding: int,
    continuousCurrentLimitMilliAmps: int,
    velocityPGain: int,
    velocityIGain: int,
    velocityVffGain: int,
    velocityAffGain: int,
    currentPGain: int,
    currentIGain: int,
    maxFollowingErrorTicks: int,
    positionLimits: (int, int),
    operationMode: int)

  /** COB-ID the node is told to use for SYNC. */
  const SyncCobId: int := 0x80

  /** Transmission type of both PDOs: on every SYNC. */
  const SyncEveryCycle: uint8 := 0x01

  /** TxPDO 1: position actual value (6064h, 32 bits), velocity actual value (606Ch, 32 bits). */
  const TxPdo1Mapping: seq<uint32> := [0x6064_0020, 0x606C_0020]

  /** RxPDO 1: velocity setting value (206Bh, 32 bits), modes of operation (6060h, 8 bits). */
  const RxPdo1Mapping: seq<uint32> := [0x206B_0020, 0x6060_0008]

  /** Abort connection option code 1: on a lost connection, signal a fault instead of a quick stop. */
  const AbortConnectionFaultSignal: int := 0x01

  // ---------------------------------------------------------------------------
  // The batches, as functions of the channel and the parameters.

  function ConfigTxPdoPositionVelocityBatch(c: SdoChannel): seq<Sdo>
  {
    PdoSetup(c, Tx, 1, SyncEveryCycle, TxPdo1Mapping)
  }

  function ConfigTxPdosBatch(c: SdoChannel): seq<Sdo>
  {
    DeactivateAll(c, Tx) + ConfigTxPdoPositionVelocityBatch(c)
  }

  function ConfigRxPdoVelocityBatch(c: SdoChannel): seq<Sdo>
  {
    PdoSetup(c, Rx, 1, SyncEveryCycle, RxPdo1Mapping)
  }

  function ConfigRxPdosBatch(c: SdoChannel): seq<Sdo>
  {
    DeactivateAll(c, Rx) + ConfigRxPdoVelocityBatch(c)
  }

  /** The two limits as (min, max), whatever order they are given in. */
  function SortLimits(a: int, b: int): (r: (int, int))
    ensures r.0 <= r.1
    ensures multiset{r.0, r.1} == multiset{a, b}
  {
    if a < b then (a, b) else (b, a)
  }

  function PositionLimitsBatch(c: SdoChannel, limits: (int, int)): seq<Sdo>
  {
    var r := SortLimits(limits.0, limits.1);
    [Sdo(c, Parameter(SetMinPositionLimit(r.0))), Sdo(c, Parameter(SetMaxPositionLimit(r.1)))]
  }

  /** Encoder, position sensor, motor type, pole pairs, winding time constant. */
  function MotorDataBatch(c: SdoChannel, p: Epos2Parameters): seq<Sdo>
  {
    [Sdo(c, Parameter(SetEncoderPulseNumber(p.encoderPulseNumber))),
     Sdo(c, Parameter(SetPositionSensorType(p.encoderType))),
     Sdo(c, Parameter(SetPositionSensorPolarity(p.encoderPolarity, p.hallPolarity))),
     Sdo(c, Parameter(SetMotorType(p.motorType))),
     Sdo(c, Parameter(SetPolePairNumber(p.polePairNumber))),
     Sdo(c, Parameter(SetThermalTimeConstantWinding(p.thermalTimeConstantWinding)))]
  }

  /** Both current limits take the continuous current limit. */
  function CurrentLimitsBatch(c: SdoChannel, p: Epos2Parameters): seq<Sdo>
  {
    [Sdo(c, Parameter(SetContinuousCurrentLimit(p.continuousCurrentLimitMilliAmps))),
     Sdo(c, Parameter(SetOutputCurrentLimit(p.continuousCurrentLimitMilliAmps)))]
  }

  function GainsBatch(c: SdoChannel, p: Epos2Parameters): seq<Sdo>
  {
    [Sdo(c, Parameter(SetVelocityPGain(p.velocityPGain))),
     Sdo(c, Parameter(SetVelocityIGain(p.velocityIGain))),
     Sdo(c, Parameter(SetVelocityVelFFGain(p.velocityVffGain))),
     Sdo(c, Parameter(SetVelocityAccFFGain(p.velocityAffGain))),
     Sdo(c, Parameter(SetCurrentPGain(p.currentPGain))),
     Sdo(c, Parameter(SetCurrentIGain(p.currentIGain)))]
  }

  /** Following-error window; node guarding off (guard time 0, life time factor 1). */
  function SupervisionBatch(c: SdoChannel, p: Epos2Parameters): seq<Sdo>
  {
    [Sdo(c, Parameter(SetMaxFollowingError(p.maxFollowingErrorTicks))),
     Sdo(c, Parameter(SetGuardTime(0))),
     Sdo(c, Parameter(SetLifeTimeFactor(1)))]
  }

  function ModeBatch(c: SdoChannel, p: Epos2Parameters): seq<Sdo>
  {
    [Sdo(c, Parameter(SetOperationMode(p.operationMode))),
     Sdo(c, Parameter(SetAbortConnectionOptionCode(AbortConnectionFaultSignal)))]
  }

  function MotorParametersBatch(c: SdoChannel, p: Epos2Parameters): seq<Sdo>
  {
    MotorDataBatch(c, p) + CurrentLimitsBatch(c, p) + GainsBatch(c, p) + SupervisionBatch(c, p)
    + PositionLimitsBatch(c, p.positionLimits) + ModeBatch(c, p)
  }

  function InitDeviceBatch(c: SdoChannel, p: Epos2Parameters): seq<Sdo>
  {
    [Sdo(c, NmtEnterPreOperational), Sdo(c, SetCobIdSync(SyncCobId))]
    + ConfigTxPdosBatch(c)
    + ConfigRxPdosBatch(c)
    + MotorParametersBatch(c, p)
    + PowerUp(c)
    + [Sdo(c, NmtStartRemoteNode)]
  }

  // ---------------------------------------------------------------------------
  // What the batches do.

  /** The mapping word constants decode to the objects the driver names, fill the whole
      64-bit TxPDO 1 and 40 bits of RxPDO 1; TxPDO 1 goes out on every SYNC and RxPDO 1
      is applied at the SYNC after it arrives. */
  lemma Pdo1Mappings()
    ensures Decode(TxPdo1Mapping[0]) == MappingEntry(0x6064, 0, 32)
    ensures Decode(TxPdo1Mapping[1]) == MappingEntry(0x606C, 0, 32)
    ensures Decode(RxPdo1Mapping[0]) == MappingEntry(0x206B, 0, 32)
    ensures Decode(RxPdo1Mapping[1]) == MappingEntry(0x6060, 0, 8)
    ensures TotalBits(TxPdo1Mapping) == 64 && FitsPdo(TxPdo1Mapping)
    ensures TotalBits(RxPdo1Mapping) == 40 && FitsPdo(RxPdo1Mapping)
    ensures Classify(Tx, SyncEveryCycle) == SyncCyclic(1) && Classify(Rx, SyncEveryCycle) == OnNextSync
  {
    assert TxPdo1Mapping[..1] == [TxPdo1Mapping[0]] && [TxPdo1Mapping[0]][..0] == [];
    assert RxPdo1Mapping[..1] == [RxPdo1Mapping[0]] && [RxPdo1Mapping[0]][..0] == [];
  }

  /** The PDO 1 set-ups write the CiA 301 objects of PDO 1 only: TxPDO 1 its
      communication parameter 1800h and mapping parameter 1A00h, RxPDO 1 1400h and
      1600h; the mapping words go to sub-indices 1 and 2 and both counts to sub-index 0. */
  lemma Pdo1Addresses(c: SdoChannel)
    ensures var r := ConfigTxPdoPositionVelocityBatch(c);
      && (forall i :: 0 <= i < |r| ==> PdoAddress(r[i].op).Some? && PdoAddress(r[i].op).value.index in {0x1800, 0x1A00})
      && PdoAddress(r[3].op) == Some(ObjectAddress(0x1A00, 1))
      && PdoAddress(r[4].op) == Some(ObjectAddress(0x1A00, 2))
      && PdoAddress(r[2].op) == PdoAddress(r[5].op) == Some(ObjectAddress(0x1A00, 0))
    ensures var r := ConfigRxPdoVelocityBatch(c);
      && (forall i :: 0 <= i < |r| ==> PdoAddress(r[i].op).Some? && PdoAddress(r[i].op).value.index in {0x1400, 0x1600})
      && PdoAddress(r[3].op) == Some(ObjectAddress(0x1600, 1))
      && PdoAddress(r[4].op) == Some(ObjectAddress(0x1600, 2))
      && PdoAddress(r[2].op) == PdoAddress(r[5].op) == Some(ObjectAddress(0x1600, 0))
  {
    PdoSetupAddresses(c, Tx, 1, SyncEveryCycle, TxPdo1Mapping);
    PdoSetupAddresses(c, Rx, 1, SyncEveryCycle, RxPdo1Mapping);
  }

  /** The minimum limit goes first and is at most the maximum, the two requests carry
      exactly the two given limits, and the order they are given in does not matter. */
  lemma PositionLimitsOrdered(c: SdoChannel, a: int, b: int)
    ensures var q := PositionLimitsBatch(c, (a, b));
      && q[0].op.Parameter? && q[0].op.parameter.SetMinPositionLimit?
      && q[1].op.Parameter? && q[1].op.parameter.SetMaxPositionLimit?
      && q[0].op.parameter.ticks <= q[1].op.parameter.ticks
      && multiset{q[0].op.parameter.ticks, q[1].op.parameter.ticks} == multiset{a, b}
    ensures PositionLimitsBatch(c, (a, b)) == PositionLimitsBatch(c, (b, a))
  {
  }

  /** Requests that set motor or controller parameters of the device on channel `c`. */
  predicate ParametersOf(q: seq<Sdo>, c: SdoChannel)
  {
    forall i :: 0 <= i < |q| ==> q[i].channel == c && q[i].op.Parameter?
  }

  lemma ParametersOfAppend(a: seq<Sdo>, b: seq<Sdo>, c: SdoChannel)
    requires ParametersOf(a, c) && ParametersOf(b, c)
    ensures ParametersOf(a + b, c)
  {
    forall i | 0 <= i < |a + b| ensures (a + b)[i].channel == c && (a + b)[i].op.Parameter? {
      if i < |a| {
        assert (a + b)[i] == a[i];
      } else {
        assert (a + b)[i] == b[i - |a|];
      }
    }
  }

  /** The motor parameter batch only sets parameters: 21 requests, no PDO or controlword. */
  lemma MotorParametersOnly(c: SdoChannel, p: Epos2Parameters)
    ensures |MotorParametersBatch(c, p)| == 21
    ensures ParametersOf(MotorParametersBatch(c, p), c)
  {
    var a, b, d, e := MotorDataBatch(c, p), CurrentLimitsBatch(c, p), GainsBatch(c, p), SupervisionBatch(c, p);
    var f, g := PositionLimitsBatch(c, p.positionLimits), ModeBatch(c, p);
    ParametersOfAppend(a, b, c);
    ParametersOfAppend(a + b, d, c);
    ParametersOfAppend(a + b + d, e, c);
    ParametersOfAppend(a + b + d + e, f, c);
    ParametersOfAppend(a + b + d + e + f, g, c);
  }

  /** Requests addressed to the device on channel `c`, none of which starts the node. */
  predicate AddressedBeforeStart(q: seq<Sdo>, c: SdoChannel)
  {
    forall i :: 0 <= i < |q| ==> q[i].channel == c && q[i].op != NmtStartRemoteNode
  }

  lemma AddressedBeforeStartAppend(a: seq<Sdo>, b: seq<Sdo>, c: SdoChannel)
    requires AddressedBeforeStart(a, c) && AddressedBeforeStart(b, c)
    ensures AddressedBeforeStart(a + b, c)
  {
    forall i | 0 <= i < |a + b| ensures (a + b)[i].channel == c && (a + b)[i].op != NmtStartRemoteNode {
      if i < |a| {
        assert (a + b)[i] == a[i];
      } else {
        assert (a + b)[i] == b[i - |a|];
      }
    }
  }

  lemma PdoBatchesAddressed(c: SdoChannel, dir: PdoDir, words: seq<uint32>)
    requires |words| <= MaxMappedObjects
    ensures AddressedBeforeStart(DeactivateAll(c, dir) + PdoSetup(c, dir, 1, SyncEveryCycle, words), c)
  {
    PdoSetupTargets(c, dir, 1, SyncEveryCycle, words);
    AddressedBeforeStartAppend(DeactivateAll(c, dir), PdoSetup(c, dir, 1, SyncEveryCycle, words), c);
  }

  /** The bring-up batch: 48 requests to this device, opening with pre-operational and
      the SYNC COB-ID, and starting the node with its last request and only there. */
  lemma InitDeviceFraming(c: SdoChannel, p: Epos2Parameters)
    ensures var q := InitDeviceBatch(c, p);
      && |q| == 48
      && q[0] == Sdo(c, NmtEnterPreOperational)
      && q[1] == Sdo(c, SetCobIdSync(SyncCobId))
      && q[|q| - 1] == Sdo(c, NmtStartRemoteNode)
      && (forall i :: 0 <= i < |q| ==> q[i].channel == c)
      && (forall i :: 0 <= i < |q| - 1 ==> q[i].op != NmtStartRemoteNode)
  {
    var a := [Sdo(c, NmtEnterPreOperational), Sdo(c, SetCobIdSync(SyncCobId))];
    var t, r, m, u := ConfigTxPdosBatch(c), ConfigRxPdosBatch(c), MotorParametersBatch(c, p), PowerUp(c);
    PdoBatchesAddressed(c, Tx, TxPdo1Mapping);
    PdoBatchesAddressed(c, Rx, RxPdo1Mapping);
    MotorParametersOnly(c, p);
    AddressedBeforeStartAppend(a, t, c);
    AddressedBeforeStartAppend(a + t, r, c);
    AddressedBeforeStartAppend(a + t + r, m, c);
    AddressedBeforeStartAppend(a + t + r + m, u, c);
    var q := InitDeviceBatch(c, p);
    assert q == (a + t + r + m + u) + [Sdo(c, NmtStartRemoteNode)];
  }

  /** Whatever state the drive is in, the bring-up batch leaves it in Operation enabled. */
  lemma InitDeviceEnables(s: DriveState, c: SdoChannel, p: Epos2Parameters)
    ensures Run(s, InitDeviceBatch(c, p)) == OperationEnabled
  {
    var before := [Sdo(c, NmtEnterPreOperational), Sdo(c, SetCobIdSync(SyncCobId))]
      + ConfigTxPdosBatch(c) + ConfigRxPdosBatch(c) + MotorParametersBatch(c, p);
    var start := [Sdo(c, NmtStartRemoteNode)];
    RunAppend(s, before + PowerUp(c), start);
    RunAppend(s, before, PowerUp(c));
    PowerUpEnables(Run(s, before), c);
    RunNoControl(OperationEnabled, start);
  }

  function Pdo1Mapping(dir: PdoDir): seq<uint32>
  {
    if dir == Tx then TxPdo1Mapping else RxPdo1Mapping
  }

  /** The mapping parameters the node holds after the bring-up batch, from any state:
      PDO 1 of each direction maps exactly its two words, PDOs 2-4 are deactivated with
      their entries left as they were, and the other PDOs are untouched. */
  lemma InitDeviceMappings(m: MappingObject, c: SdoChannel, p: Epos2Parameters, dir: PdoDir, pdo: PdoNumber)
    ensures Replay(m, dir, pdo, InitDeviceBatch(c, p)) ==
      if pdo == 1 then Some(MappingObject(2, Overlay(m.entries, Pdo1Mapping(dir), 1)))
      else if pdo <= 4 then Some(m.(count := 0))
      else Some(m)
  {
    var a := [Sdo(c, NmtEnterPreOperational), Sdo(c, SetCobIdSync(SyncCobId))];
    var t, r, mp := ConfigTxPdosBatch(c), ConfigRxPdosBatch(c), MotorParametersBatch(c, p);
    var rest := mp + PowerUp(c) + [Sdo(c, NmtStartRemoteNode)];
    assert InitDeviceBatch(c, p) == a + t + r + rest;
    MotorParametersOnly(c, p);
    assert TouchesNoPdo(rest) by {
      forall i | 0 <= i < |rest| ensures !rest[i].op.Pdo? {
        if i < |mp| {
          assert rest[i] == mp[i];
        }
      }
    }
    Pdo1Mappings();
    ReplayAppend(m, dir, pdo, a + t + r, rest);
    ReplayAppend(m, dir, pdo, a + t, r);
    ReplayAppend(m, dir, pdo, a, t);
    ReplayTouchesNoPdo(m, dir, pdo, a);
    ReplayDeactivateThenSetup(m, c, Tx, 1, SyncEveryCycle, TxPdo1Mapping, dir, pdo);
    var m1 := Replay(m, dir, pdo, t).value;
    ReplayDeactivateThenSetup(m1, c, Rx, 1, SyncEveryCycle, RxPdo1Mapping, dir, pdo);
    var m2 := Replay(m1, dir, pdo, r).value;
    ReplayTouchesNoPdo(m2, dir, pdo, rest);
  }

  /** In the bring-up batch each of PDOs 1-4 of each direction is deactivated before
      any PDO of that direction is configured. */
  lemma InitDeviceDeactivatesFirst(c: SdoChannel, p: Epos2Parameters, dir: PdoDir, pdo: PdoNumber)
    requires pdo <= 4
    ensures DeactivatedFirst(InitDeviceBatch(c, p), dir, pdo)
  {
    var a := [Sdo(c, NmtEnterPreOperational), Sdo(c, SetCobIdSync(SyncCobId))];
    var t, r, mp, u := ConfigTxPdosBatch(c), ConfigRxPdosBatch(c), MotorParametersBatch(c, p), PowerUp(c);
    assert NoConfigurationBefore(a, dir, |a|);
    if dir == Tx {
      DeactivateThenSetupFirst(c, Tx, 1, SyncEveryCycle, TxPdo1Mapping, pdo);
      DeactivatedFirstAfter(a, t, dir, pdo);
      DeactivatedFirstExtend(a + t, r, dir, pdo);
    } else {
      DeactivateThenSetupOtherDirection(c, Tx, 1, SyncEveryCycle, TxPdo1Mapping, Rx);
      NoConfigurationAppend(a, t, Rx);
      DeactivateThenSetupFirst(c, Rx, 1, SyncEveryCycle, RxPdo1Mapping, pdo);
      DeactivatedFirstAfter(a + t, r, dir, pdo);
    }
    DeactivatedFirstExtend(a + t + r, mp, dir, pdo);
    DeactivatedFirstExtend(a + t + r + mp, u, dir, pdo);
    DeactivatedFirstExtend(a + t + r + mp + u, [Sdo(c, NmtStartRemoteNode)], dir, pdo);
  }

  // ---------------------------------------------------------------------------
  // Status-word polling.

  datatype PollDecision = Report | Enqueue | Wait

  /** What one call of the status polling does with the request it holds: report the
      reply of a received request, hand an untouched one to the manager, or wait. */
  function Decide(s: RequestStatus): (d: PollDecision)
    ensures d == Report <==> s.received && !s.timedOut
    ensures d == Enqueue <==> !s.timedOut && !s.received && !s.waiting && !s.queuing
  {
    if !s.timedOut then
      if !s.received then
        if !s.waiting && !s.queuing then Enqueue else Wait
      else Report
    else Wait
  }

  /** Between two calls the manager may move the request on. A poll that reports
      re-arms a fresh request, and one that enqueues leaves the request queuing. */
  datatype PollEvent = Poll | Manager(next: RequestStatus)

  function AfterEvent(s: RequestStatus, e: PollEvent): RequestStatus
  {
    match e
    case Poll => if Decide(s) == Report then Fresh else if Decide(s) == Enqueue then Queuing else s
    case Manager(next) => next
  }

  /** The manager's moves in the trace are ones it can make. */
  ghost predicate Admissible(s: RequestStatus, events: seq<PollEvent>)
    decreases |events|
  {
    events == [] ||
    ((events[0].Manager? ==> ManagerStep(s, events[0].next)) && Admissible(AfterEvent(s, events[0]), events[1..]))
  }

  /** What each poll of the trace decided, in order. */
  function Decisions(s: RequestStatus, events: seq<PollEvent>): seq<PollDecision>
    decreases |events|
  {
    if events == [] then []
    else (if events[0] == Poll then [Decide(s)] else []) + Decisions(AfterEvent(s, events[0]), events[1..])
  }

  /** Once the request has timed out, every later poll returns false and enqueues
      nothing: the request is never re-armed and never handed to the manager again. */
  lemma {:induction false} TimedOutStaysSilent(s: RequestStatus, events: seq<PollEvent>)
    requires s.timedOut && Admissible(s, events)
    ensures forall i :: 0 <= i < |Decisions(s, events)| ==> Decisions(s, events)[i] == Wait
    decreases |events|
  {
    if events != [] {
      TimeOutIsFinal(s, if events[0].Manager? then events[0].next else s);
      assert events[0] == Poll;
      assert AfterEvent(s, events[0]) == s;
      TimedOutStaysSilent(s, events[1..]);
    }
  }

  /** The status after a whole trace. */
  function AfterEvents(s: RequestStatus, events: seq<PollEvent>): RequestStatus
    decreases |events|
  {
    if events == [] then s else AfterEvents(AfterEvent(s, events[0]), events[1..])
  }

  /** A trace split in two: it is admissible exactly when its first part is and its
      second part is from where the first leaves the request, and its decisions are
      those of the first part followed by those of the second. */
  lemma {:induction false} TraceSplit(s: RequestStatus, a: seq<PollEvent>, b: seq<PollEvent>)
    ensures Admissible(s, a + b) <==> Admissible(s, a) && Admissible(AfterEvents(s, a), b)
    ensures Decisions(s, a + b) == Decisions(s, a) + Decisions(AfterEvents(s, a), b)
    decreases |a|
  {
    if a == [] {
      assert a + b == b;
    } else {
      assert (a + b)[0] == a[0] && (a + b)[1..] == a[1..] + b;
      TraceSplit(AfterEvent(s, a[0]), a[1..], b);
    }
  }

  /** A timeout part-way through a run silences the rest of it: once the request the
      driver holds has timed out, every later poll waits. */
  lemma TimeOutSilencesRest(s: RequestStatus, a: seq<PollEvent>, b: seq<PollEvent>)
    requires Admissible(s, a + b) && AfterEvents(s, a).timedOut
    ensures forall i :: |Decisions(s, a)| <= i < |Decisions(s, a + b)| ==> Decisions(s, a + b)[i] == Wait
  {
    TraceSplit(s, a, b);
    TimedOutStaysSilent(AfterEvents(s, a), b);
  }

  /** The decisions of a trace, waits left aside, alternate between `next` and the
      other of Enqueue and Report; with `next` Wait, the decisions are all waits. */
  ghost predicate Alternates(ds: seq<PollDecision>, next: PollDecision)
    decreases |ds|
  {
    ds == [] ||
    (if ds[0] == Wait then Alternates(ds[1..], next)
     else ds[0] == next && Alternates(ds[1..], if next == Enqueue then Report else Enqueue))
  }

  /** Decisions that are all waits alternate from any start. */
  lemma {:induction false} WaitsAlternate(ds: seq<PollDecision>, next: PollDecision)
    requires Alternates(ds, Wait)
    ensures Alternates(ds, next)
    decreases |ds|
  {
    if ds != [] {
      WaitsAlternate(ds[1..], next);
    }
  }

  /** The decision the next non-waiting poll takes on a request in state `s`; Wait when
      no poll will ever report or enqueue again. */
  function Expected(s: RequestStatus): PollDecision
  {
    if s == Fresh then Enqueue
    else if s == Queuing || s == Waiting || s == Received then Report
    else Wait
  }

  /** One read per reading: along every admissible trace, a request whose status is one
      the manager can produce is enqueued once, then reported once, then (re-armed)
      enqueued once, and so on; no reading is reported without a read handed to the
      manager before it, and no read is handed over twice before its reading. */
  lemma {:induction false} PollsAlternate(s: RequestStatus, events: seq<PollEvent>)
    requires s == Fresh || s == Queuing || s == Waiting || s == Received || s == TimedOut
    requires Admissible(s, events)
    ensures Alternates(Decisions(s, events), Expected(s))
    decreases |events|
  {
    if events != [] {
      var s' := AfterEvent(s, events[0]);
      PollsAlternate(s', events[1..]);
      var rest := Decisions(s', events[1..]);
      if events[0] == Poll {
        var d := Decide(s);
        assert Decisions(s, events) == [d] + rest;
        assert ([d] + rest)[1..] == rest;
        if d == Wait {
          assert s' == s;
        } else if d == Enqueue {
          assert s == Fresh && s' == Queuing;
        } else {
          assert s == Received && s' == Fresh;
        }
      } else {
        assert Decisions(s, events) == rest;
        assert ManagerStep(s, events[0].next);
        if s' == TimedOut {
          WaitsAlternate(rest, Expected(s));
        }
      }
    }
  }

  /** The trace a driver starts from: a freshly constructed request. */
  lemma PollsAlternateFromFresh(events: seq<PollEvent>)
    requires Admissible(Fresh, events)
    ensures Alternates(Decisions(Fresh, events), Enqueue)
  {
    PollsAlternate(Fresh, events);
  }

  // ---------------------------------------------------------------------------
  // The driver.

  lemma AppendSix<T>(q: seq<T>, a: seq<T>, b: seq<T>, c: seq<T>, d: seq<T>, e: seq<T>, f: seq<T>)
    ensures q + a + b + c + d + e + f == q + (a + b + c + d + e + f)
  {
  }

  class Epos2Motor {
    const nodeId: int
    const params: Epos2Parameters
    /** The bus's SDO manager, shared with the other devices on the bus. */
    const manager: SdoManager
    var statusWord: StatusWordRequest
    var statusWordDisabled: StatusWordRequest

    function Channel(): SdoChannel
    {
      SdoChannel(params.inSdoSmId, params.outSdoSmId, nodeId)
    }

    /** The two status-word requests are distinct objects addressed to this node. */
    ghost predicate Valid()
      reads this
    {
      statusWord != statusWordDisabled &&
      statusWord.channel == Channel() && statusWordDisabled.channel == Channel()
    }

    constructor (nodeId: int, params: Epos2Parameters, manager: SdoManager)
      ensures this.nodeId == nodeId && this.params == params && this.manager == manager
      ensures Valid() && fresh(statusWord) && fresh(statusWordDisabled)
      ensures statusWord.Status() == Fresh && statusWordDisabled.Status() == Fresh
    {
      this.nodeId := nodeId;
      this.params := params;
      this.manager := manager;
      var c := SdoChannel(params.inSdoSmId, params.outSdoSmId, nodeId);
      statusWord := new StatusWordRequest(c);
      statusWordDisabled := new StatusWordRequest(c);
    }

    method SetPositionLimits(positionLimits: (int, int))
      modifies manager
      ensures manager.queue == old(manager.queue) + PositionLimitsBatch(Channel(), positionLimits)
    {
      var minPositionLimit, maxPositionLimit;
      if positionLimits.0 < positionLimits.1 {
        minPositionLimit := positionLimits.0;
        maxPositionLimit := positionLimits.1;
      } else {
        minPositionLimit := positionLimits.1;
        maxPositionLimit := positionLimits.0;
      }
      manager.AddSdo(Sdo(Channel(), Parameter(SetMinPositionLimit(minPositionLimit))));
      manager.AddSdo(Sdo(Channel(), Parameter(SetMaxPositionLimit(maxPositionLimit))));
    }

    /** The parts of `setMotorParameters`, one method per group of requests it appends. */
    method SetMotorData()
      modifies manager
      ensures manager.queue == old(manager.queue) + MotorDataBatch(Channel(), params)
    {
      var c := Channel();
      manager.AddSdo(Sdo(c, Parameter(SetEncoderPulseNumber(params.encoderPulseNumber))));
      manager.AddSdo(Sdo(c, Parameter(SetPositionSensorType(params.encoderType))));
      manager.AddSdo(Sdo(c, Parameter(SetPositionSensorPolarity(params.encoderPolarity, params.hallPolarity))));
      manager.AddSdo(Sdo(c, Parameter(SetMotorType(params.motorType))));
      manager.AddSdo(Sdo(c, Parameter(SetPolePairNumber(params.polePairNumber))));
      manager.AddSdo(Sdo(c, Parameter(SetThermalTimeConstantWinding(params.thermalTimeConstantWinding))));
    }

    method SetCurrentLimits()
      modifies manager
      ensures manager.queue == old(manager.queue) + CurrentLimitsBatch(Channel(), params)
    {
      var c := Channel();
      manager.AddSdo(Sdo(c, Parameter(SetContinuousCurrentLimit(params.continuousCurrentLimitMilliAmps))));
      manager.AddSdo(Sdo(c, Parameter(SetOutputCurrentLimit(params.continuousCurrentLimitMilliAmps))));
    }

    method SetGains()
      modifies manager
      ensures manager.queue == old(manager.queue) + GainsBatch(Channel(), params)
    {
      var c := Channel();
      manager.AddSdo(Sdo(c, Parameter(SetVelocityPGain(params.velocityPGain))));
      manager.AddSdo(Sdo(c, Parameter(SetVelocityIGain(params.velocityIGain))));
      manager.AddSdo(Sdo(c, Parameter(SetVelocityVelFFGain(params.velocityVffGain))));
      manager.AddSdo(Sdo(c, Parameter(SetVelocityAccFFGain(params.velocityAffGain))));
      manager.AddSdo(Sdo(c, Parameter(SetCurrentPGain(params.currentPGain))));
      manager.AddSdo(Sdo(c, Parameter(SetCurrentIGain(params.currentIGain))));
    }

    method SetSupervision()
      modifies manager
      ensures manager.queue == old(manager.queue) + SupervisionBatch(Channel(), params)
    {
      var c := Channel();
      manager.AddSdo(Sdo(c, Parameter(SetMaxFollowingError(params.maxFollowingErrorTicks))));
      manager.AddSdo(Sdo(c, Parameter(SetGuardTime(0))));
      manager.AddSdo(Sdo(c, Parameter(SetLifeTimeFactor(1))));
    }

    method SetMotorParameters()
      modifies manager
      ensures manager.queue == old(manager.queue) + MotorParametersBatch(Channel(), params)
    {
      var c := Channel();
      ghost var q0 := manager.queue;
      SetMotorData();
      SetCurrentLimits();
      SetGains();
      SetSupervision();
      SetPositionLimits(params.positionLimits);
      manager.AddSdo(Sdo(c, Parameter(SetOperationMode(params.operationMode))));
      manager.AddSdo(Sdo(c, Parameter(SetAbortConnectionOptionCode(AbortConnectionFaultSignal))));
      AppendSix(q0, MotorDataBatch(c, params), CurrentLimitsBatch(c, params), GainsBatch(c, params),
                SupervisionBatch(c, params), PositionLimitsBatch(c, params.positionLimits), ModeBatch(c, params));
    }

    method ConfigTxPdoPositionVelocity()
      modifies manager
      ensures manager.queue == old(manager.queue) + ConfigTxPdoPositionVelocityBatch(Channel())
    {
      var c := Channel();
      manager.AddSdo(Sdo(c, Pdo(Tx, 1, CobId)));
      manager.AddSdo(Sdo(c, Pdo(Tx, 1, TransmissionType(SyncEveryCycle))));
      manager.AddSdo(Sdo(c, Pdo(Tx, 1, MappedCount(0))));
      manager.AddSdo(Sdo(c, Pdo(Tx, 1, Mapping(1, 0x6064_0020))));
      manager.AddSdo(Sdo(c, Pdo(Tx, 1, Mapping(2, 0x606C_0020))));
      manager.AddSdo(Sdo(c, Pdo(Tx, 1, MappedCount(2))));
      assert MappingWrites(c, Tx, 1, TxPdo1Mapping, 1)
          == [Sdo(c, Pdo(Tx, 1, Mapping(1, 0x6064_0020))), Sdo(c, Pdo(Tx, 1, Mapping(2, 0x606C_0020)))];
    }

    method ConfigRxPdoVelocity()
      modifies manager
      ensures manager.queue == old(manager.queue) + ConfigRxPdoVelocityBatch(Channel())
    {
      var c := Channel();
      manager.AddSdo(Sdo(c, Pdo(Rx, 1, CobId)));
      manager.AddSdo(Sdo(c, Pdo(Rx, 1, TransmissionType(SyncEveryCycle))));
      manager.AddSdo(Sdo(c, Pdo(Rx, 1, MappedCount(0))));
      manager.AddSdo(Sdo(c, Pdo(Rx, 1, Mapping(1, 0x206B_0020))));
      manager.AddSdo(Sdo(c, Pdo(Rx, 1, Mapping(2, 0x6060_0008))));
      manager.AddSdo(Sdo(c, Pdo(Rx, 1, MappedCount(2))));
      assert MappingWrites(c, Rx, 1, RxPdo1Mapping, 1)
          == [Sdo(c, Pdo(Rx, 1, Mapping(1, 0x206B_0020))), Sdo(c, Pdo(Rx, 1, Mapping(2, 0x6060_0008)))];
    }

    method ConfigTxPdos()
      modifies manager
      ensures manager.queue == old(manager.queue) + ConfigTxPdosBatch(Channel())
    {
      var c := Channel();
      manager.AddSdo(Sdo(c, Pdo(Tx, 1, MappedCount(0))));
      manager.AddSdo(Sdo(c, Pdo(Tx, 2, MappedCount(0))));
      manager.AddSdo(Sdo(c, Pdo(Tx, 3, MappedCount(0))));
      manager.AddSdo(Sdo(c, Pdo(Tx, 4, MappedCount(0))));
      ConfigTxPdoPositionVelocity();
    }

    method ConfigRxPdos()
      modifies manager
      ensures manager.queue == old(manager.queue) + ConfigRxPdosBatch(Channel())
    {
      var c := Channel();
      manager.AddSdo(Sdo(c, Pdo(Rx, 1, MappedCount(0))));
      manager.AddSdo(Sdo(c, Pdo(Rx, 2, MappedCount(0))));
      manager.AddSdo(Sdo(c, Pdo(Rx, 3, MappedCount(0))));
      manager.AddSdo(Sdo(c, Pdo(Rx, 4, MappedCount(0))));
      ConfigRxPdoVelocity();
    }

    method InitMotor()
      modifies manager
      ensures manager.queue == old(manager.queue) + PowerUp(Channel())
    {
      var c := Channel();
      manager.AddSdo(Sdo(c, Control(FaultReset)));
      manager.AddSdo(Sdo(c, Control(Shutdown)));
      manager.AddSdo(Sdo(c, Control(SwitchOn)));
      manager.AddSdo(Sdo(c, Control(EnableOperation)));
    }

    method SetEnableMotor()
      modifies manager
      ensures manager.queue == old(manager.queue) + PowerUp(Channel())
    {
      var c := Channel();
      manager.AddSdo(Sdo(c, Control(FaultReset)));
      manager.AddSdo(Sdo(c, Control(Shutdown)));
      manager.AddSdo(Sdo(c, Control(SwitchOn)));
      manager.AddSdo(Sdo(c, Control(EnableOperation)));
    }

    method SetDisableMotor()
      modifies manager
      ensures manager.queue == old(manager.queue) + [Sdo(Channel(), Control(DisableOperation))]
    {
      manager.AddSdo(Sdo(Channel(), Control(DisableOperation)));
    }

    method InitDevice() returns (ok: bool)
      modifies manager
      ensures ok
      ensures manager.queue == old(manager.queue) + InitDeviceBatch(Channel(), params)
    {
      var c := Channel();
      ghost var q0 := manager.queue;
      manager.AddSdo(Sdo(c, NmtEnterPreOperational));
      manager.AddSdo(Sdo(c, SetCobIdSync(SyncCobId)));
      assert manager.queue == q0 + [Sdo(c, NmtEnterPreOperational), Sdo(c, SetCobIdSync(SyncCobId))];
      ConfigTxPdos();
      ConfigRxPdos();
      SetMotorParameters();
      InitMotor();
      manager.AddSdo(Sdo(c, NmtStartRemoteNode));
      AppendSix(q0, [Sdo(c, NmtEnterPreOperational), Sdo(c, SetCobIdSync(SyncCobId))], ConfigTxPdosBatch(c),
                ConfigRxPdosBatch(c), MotorParametersBatch(c, params), PowerUp(c), [Sdo(c, NmtStartRemoteNode)]);
      ok := true;
    }

    /** Polls whether the motor is enabled without blocking. Returns true, with the
        reading in `flagOut`, once the request holds a reply, and then re-arms a fresh
        request; otherwise returns false, leaves the flag alone and hands the request
        to the manager if nothing has happened to it yet. */
    method GetIsMotorEnabled(flag: bool) returns (ok: bool, flagOut: bool)
      requires Valid()
      modifies this, manager, statusWord
      ensures Valid()
      ensures statusWordDisabled == old(statusWordDisabled) && unchanged(statusWordDisabled)
      ensures ok <==> Decide(old(statusWord.Status())) == Report
      ensures ok ==> (flagOut == old(statusWord.replyEnabled) && fresh(statusWord)
                      && statusWord.Status() == Fresh && manager.queue == old(manager.queue))
      ensures !ok ==> flagOut == flag && statusWord == old(statusWord)
      ensures statusWord.Status() == AfterEvent(old(statusWord.Status()), Poll)
      ensures ok ==> unchanged(old(statusWord))
      ensures !ok ==> statusWord.replyEnabled == old(statusWord.replyEnabled) && statusWord.replyDisabled == old(statusWord.replyDisabled)
      ensures !ok ==> (manager.queue == old(manager.queue) +
                       if Decide(old(statusWord.Status())) == Enqueue then [Sdo(Channel(), ReadStatusWord(statusWord))] else [])
    {
      ok, flagOut := false, flag;
      if !statusWord.timedOut {
        if !statusWord.received {
          if !statusWord.waiting {
            if !statusWord.queuing {
              manager.AddSdo(Sdo(Channel(), ReadStatusWord(statusWord)));
            }
          }
        } else {
          flagOut := statusWord.replyEnabled;
          statusWord := new StatusWordRequest(Channel());
          ok := true;
        }
      }
    }

    /** The same polling for the disabled reading, on its own request object. */
    method GetIsMotorDisabled(flag: bool) returns (ok: bool, flagOut: bool)
      requires Valid()
      modifies this, manager, statusWordDisabled
      ensures Valid()
      ensures statusWord == old(statusWord) && unchanged(statusWord)
      ensures ok <==> Decide(old(statusWordDisabled.Status())) == Report
      ensures ok ==> (flagOut == old(statusWordDisabled.replyDisabled) && fresh(statusWordDisabled)
                      && statusWordDisabled.Status() == Fresh && manager.queue == old(manager.queue))
      ensures !ok ==> flagOut == flag && statusWordDisabled == old(statusWordDisabled)
      ensures statusWordDisabled.Status() == AfterEvent(old(statusWordDisabled.Status()), Poll)
      ensures ok ==> unchanged(old(statusWordDisabled))
      ensures !ok ==> statusWordDisabled.replyEnabled == old(statusWordDisabled.replyEnabled) && statusWordDisabled.replyDisabled == old(statusWordDisabled.replyDisabled)
      ensures !ok ==> (manager.queue == old(manager.queue) +
                       if Decide(old(statusWordDisabled.Status())) == Enqueue then [Sdo(Channel(), ReadStatusWord(statusWordDisabled))] else [])
    {
      ok, flagOut := false, flag;
      if !statusWordDisabled.timedOut {
        if !statusWordDisabled.received {
          if !statusWordDisabled.waiting {
            if !statusWordDisabled.queuing {
              manager.AddSdo(Sdo(Channel(), ReadStatusWord(statusWordDisabled)));
            }
          }
        } else {
          flagOut := statusWordDisabled.replyDisabled;
          statusWordDisabled := new StatusWordRequest(Channel());
          ok := true;
        }
      }
    }
  }
}
