/**
 * The ELMO steering motor driver: its own bring-up batch, the receive PDO 3 set-up for
 * profile position mode, its motor parameters, and enabling by the position PDO. The
 * steps it inherits from its base driver (transmit PDO configuration, position limits,
 * motor initialisation) are defined in DeviceELMOBaseMotor and not modelled here: each
 * is taken as a fixed batch of requests the base driver appends.
 */
module ElmoSteering {
  import opened PdoMapping
  import opened Sdo
  import opened PdoConfig

  datatype ElmoParameters = ElmoParameters(
    inSdoSmId: int,
    outSdoSmId: int,
    operationMode: int,
    profileVelocityInPPMode: int)

  /** What each inherited step appends for this device. */
  datatype InheritedSteps = InheritedSteps(
    configTxPdos: seq<Sdo>,
    setPositionLimits: seq<Sdo>,
    initMotor: seq<Sdo>)

  const SyncCobId: int := 0x80

  /** Transmission type written for RxPDO 3: 0, applied at the next SYNC. */
  const ProfilePositionTransmissionType: uint8 := 0x00

  /** RxPDO 3: modes of operation (6060h, 8 bits), target position (607Ah, 32 bits),
      controlword (6040h, 16 bits). */
  const RxPdo3Mapping: seq<uint32> := [0x6060_0008, 0x607A_0020, 0x6040_0010]

  /** Value written into the DS402 configuration object. */
  const DS402Configuration: int := 0x02

  // ---------------------------------------------------------------------------
  // The batches.

  function ConfigRxPdoProfilePositionBatch(c: SdoChannel): seq<Sdo>
  {
    PdoSetup(c, Rx, 3, ProfilePositionTransmissionType, RxPdo3Mapping)
  }

  function ConfigRxPdosBatch(c: SdoChannel): seq<Sdo>
  {
    DeactivateAll(c, Rx) + ConfigRxPdoProfilePositionBatch(c)
  }

  function MotorParametersBatch(c: SdoChannel, p: ElmoParameters, inherited: InheritedSteps): seq<Sdo>
  {
    inherited.setPositionLimits
    + [Sdo(c, Parameter(SetOperationMode(p.operationMode))),
       Sdo(c, Parameter(SetDS402ConfigurationObject(DS402Configuration))),
       Sdo(c, Parameter(SetPPModeProfileVelocity(p.profileVelocityInPPMode)))]
  }

  function InitDeviceBatch(c: SdoChannel, p: ElmoParameters, inherited: InheritedSteps): seq<Sdo>
  {
    [Sdo(c, NmtEnterPreOperational), Sdo(c, SetCobIdSync(SyncCobId))]
    + inherited.configTxPdos
    + ConfigRxPdosBatch(c)
    + MotorParametersBatch(c, p, inherited)
    + inherited.initMotor
    + [Sdo(c, NmtStartRemoteNode)]
  }

  // ---------------------------------------------------------------------------
  // What the batches do.

  /** The RxPDO 3 mapping words decode to the objects the driver names and take 56 of
      the 64 payload bits; the transmission type written makes the receive PDO applied
      at the SYNC after its reception. */
  lemma RxPdo3MappingFacts()
    ensures Decode(RxPdo3Mapping[0]) == MappingEntry(0x6060, 0, 8)
    ensures Decode(RxPdo3Mapping[1]) == MappingEntry(0x607A, 0, 32)
    ensures Decode(RxPdo3Mapping[2]) == MappingEntry(0x6040, 0, 16)
    ensures TotalBits(RxPdo3Mapping) == 56 && FitsPdo(RxPdo3Mapping)
    ensures Classify(Rx, ProfilePositionTransmissionType) == OnNextSync
    ensures IsSynchronous(Rx, ProfilePositionTransmissionType)
  {
    var w := RxPdo3Mapping;
    assert w[..2] == [w[0], w[1]] && [w[0], w[1]][..1] == [w[0]] && [w[0]][..0] == [];
    assert TotalBits([w[0]]) == 8;
    assert TotalBits([w[0], w[1]]) == 40;
  }

  /** The RxPDO 3 set-up: COB-ID, transmission type 0, count 0, the three mapping words at
      sub-indices 1, 2, 3, and a final count of 3, the number of mapping words written. */
  lemma ProfilePositionLayout(c: SdoChannel)
    ensures var r := ConfigRxPdoProfilePositionBatch(c);
      && r == [Sdo(c, Pdo(Rx, 3, CobId)),
               Sdo(c, Pdo(Rx, 3, TransmissionType(0x00))),
               Sdo(c, Pdo(Rx, 3, MappedCount(0))),
               Sdo(c, Pdo(Rx, 3, Mapping(1, 0x6060_0008))),
               Sdo(c, Pdo(Rx, 3, Mapping(2, 0x607A_0020))),
               Sdo(c, Pdo(Rx, 3, Mapping(3, 0x6040_0010))),
               Sdo(c, Pdo(Rx, 3, MappedCount(3)))]
      && MappingRequests(r, Rx, 3) == 3
  {
    PdoSetupLayout(c, Rx, 3, ProfilePositionTransmissionType, RxPdo3Mapping);
    PdoSetupMappingCount(c, Rx, 3, ProfilePositionTransmissionType, RxPdo3Mapping);
  }

  /** Requests that write no receive PDO parameter. */
  predicate LeavesRxPdos(q: seq<Sdo>)
  {
    forall i :: 0 <= i < |q| ==> !(q[i].op.Pdo? && q[i].op.dir == Rx)
  }

  lemma LeavesRxPdosAppend(a: seq<Sdo>, b: seq<Sdo>)
    requires LeavesRxPdos(a) && LeavesRxPdos(b)
    ensures LeavesRxPdos(a + b)
  {
    forall i | 0 <= i < |a + b| ensures !((a + b)[i].op.Pdo? && (a + b)[i].op.dir == Rx) {
      if i < |a| {
        assert (a + b)[i] == a[i];
      } else {
        assert (a + b)[i] == b[i - |a|];
      }
    }
  }

  /** The bring-up batch opens with pre-operational and the SYNC COB-ID and starts the
      node with its last request. */
  lemma InitDeviceFraming(c: SdoChannel, p: ElmoParameters, inherited: InheritedSteps)
    ensures var q := InitDeviceBatch(c, p, inherited);
      && q[0] == Sdo(c, NmtEnterPreOperational)
      && q[1] == Sdo(c, SetCobIdSync(SyncCobId))
      && q[|q| - 1] == Sdo(c, NmtStartRemoteNode)
  {
    var q := InitDeviceBatch(c, p, inherited);
    var before := [Sdo(c, NmtEnterPreOperational), Sdo(c, SetCobIdSync(SyncCobId))]
      + inherited.configTxPdos + ConfigRxPdosBatch(c) + MotorParametersBatch(c, p, inherited) + inherited.initMotor;
    assert q == before + [Sdo(c, NmtStartRemoteNode)];
  }

  predicate NoStart(q: seq<Sdo>)
  {
    forall i :: 0 <= i < |q| ==> q[i].op != NmtStartRemoteNode
  }

  /** When the inherited steps do not start the node, no request before the last does. */
  lemma InitDeviceStartsOnlyLast(c: SdoChannel, p: ElmoParameters, inherited: InheritedSteps)
    requires NoStart(inherited.configTxPdos) && NoStart(inherited.setPositionLimits) && NoStart(inherited.initMotor)
    ensures var q := InitDeviceBatch(c, p, inherited);
      forall i :: 0 <= i < |q| - 1 ==> q[i].op != NmtStartRemoteNode
  {
    var a := [Sdo(c, NmtEnterPreOperational), Sdo(c, SetCobIdSync(SyncCobId))];
    var t, r, m, u := inherited.configTxPdos, ConfigRxPdosBatch(c), MotorParametersBatch(c, p, inherited), inherited.initMotor;
    var q := InitDeviceBatch(c, p, inherited);
    var before := a + t + r + m + u;
    assert q == before + [Sdo(c, NmtStartRemoteNode)];
    PdoSetupTargets(c, Rx, 3, ProfilePositionTransmissionType, RxPdo3Mapping);
    var l := inherited.setPositionLimits;
    forall i | 0 <= i < |q| - 1 ensures q[i].op != NmtStartRemoteNode {
      assert q[i] == before[i];
      if i < |a| {
      } else if i < |a + t| {
        assert before[i] == t[i - |a|];
      } else if i < |a + t| + |DeactivateAll(c, Rx)| {
        assert before[i] == DeactivateAll(c, Rx)[i - |a + t|];
      } else if i < |a + t + r| {
        assert before[i] == ConfigRxPdoProfilePositionBatch(c)[i - |a + t| - 4];
      } else if i < |a + t + r| + |l| {
        assert before[i] == l[i - |a + t + r|];
      } else if i < |a + t + r + m| {
        assert before[i] == m[i - |a + t + r|];
      } else {
        assert before[i] == u[i - |a + t + r + m|];
      }
    }
  }

  /** The receive PDO mapping parameters after the bring-up batch, from any state, when
      the inherited steps write no receive PDO: RxPDO 3 maps exactly its three words,
      RxPDOs 1, 2 and 4 are deactivated, and every other receive PDO is untouched. */
  lemma InitDeviceRxMappings(m: MappingObject, c: SdoChannel, p: ElmoParameters, inherited: InheritedSteps, pdo: PdoNumber)
    requires LeavesRxPdos(inherited.configTxPdos) && LeavesRxPdos(inherited.setPositionLimits)
    requires LeavesRxPdos(inherited.initMotor)
    ensures Replay(m, Rx, pdo, InitDeviceBatch(c, p, inherited)) ==
      if pdo == 3 then Some(MappingObject(3, Overlay(m.entries, RxPdo3Mapping, 1)))
      else if pdo <= 4 then Some(m.(count := 0))
      else Some(m)
  {
    var a := [Sdo(c, NmtEnterPreOperational), Sdo(c, SetCobIdSync(SyncCobId))];
    var t, r := inherited.configTxPdos, ConfigRxPdosBatch(c);
    var rest := MotorParametersBatch(c, p, inherited) + inherited.initMotor + [Sdo(c, NmtStartRemoteNode)];
    assert InitDeviceBatch(c, p, inherited) == (a + t) + r + rest;
    LeavesRxPdosAppend(a, t);
    LeavesRxPdosAppend(inherited.setPositionLimits, MotorParametersBatch(c, p, inherited)[|inherited.setPositionLimits|..]);
    assert MotorParametersBatch(c, p, inherited)
        == inherited.setPositionLimits + MotorParametersBatch(c, p, inherited)[|inherited.setPositionLimits|..];
    LeavesRxPdosAppend(MotorParametersBatch(c, p, inherited), inherited.initMotor);
    LeavesRxPdosAppend(MotorParametersBatch(c, p, inherited) + inherited.initMotor, [Sdo(c, NmtStartRemoteNode)]);
    RxPdo3MappingFacts();
    ReplayAppend(m, Rx, pdo, (a + t) + r, rest);
    ReplayAppend(m, Rx, pdo, a + t, r);
    ReplayUnaffected(m, Rx, pdo, a + t);
    ReplayDeactivateThenSetup(m, c, Rx, 3, ProfilePositionTransmissionType, RxPdo3Mapping, Rx, pdo);
    var m1 := Replay(m, Rx, pdo, r).value;
    ReplayUnaffected(m1, Rx, pdo, rest);
  }

  /** In the bring-up batch each of RxPDOs 1-4 is deactivated before any receive PDO is
      configured, when the inherited transmit PDO step configures no receive PDO. */
  lemma InitDeviceRxDeactivatedFirst(c: SdoChannel, p: ElmoParameters, inherited: InheritedSteps, pdo: PdoNumber)
    requires pdo <= 4 && LeavesRxPdos(inherited.configTxPdos)
    ensures DeactivatedFirst(InitDeviceBatch(c, p, inherited), Rx, pdo)
  {
    var a := [Sdo(c, NmtEnterPreOperational), Sdo(c, SetCobIdSync(SyncCobId))];
    var t, r, mp, u := inherited.configTxPdos, ConfigRxPdosBatch(c), MotorParametersBatch(c, p, inherited), inherited.initMotor;
    LeavesRxPdosAppend(a, t);
    assert NoConfigurationBefore(a + t, Rx, |a + t|);
    DeactivateThenSetupFirst(c, Rx, 3, ProfilePositionTransmissionType, RxPdo3Mapping, pdo);
    DeactivatedFirstAfter(a + t, r, Rx, pdo);
    DeactivatedFirstExtend(a + t + r, mp, Rx, pdo);
    DeactivatedFirstExtend(a + t + r + mp, u, Rx, pdo);
    DeactivatedFirstExtend(a + t + r + mp + u, [Sdo(c, NmtStartRemoteNode)], Rx, pdo);
  }

  // ---------------------------------------------------------------------------
  // The driver.

  /** The receive PDO carrying target positions; enabling it is what enables the motor.
      How it is created and registered with the PDO manager is not part of this model. */
  class RxPdoPosition {
    var enabled: bool

    constructor ()
    {
      enabled := false;
    }

    method Enable()
      modifies this
      ensures enabled
    {
      enabled := true;
    }

    method Disable()
      modifies this
      ensures !enabled
    {
      enabled := false;
    }
  }

  class ElmoSteeringMotor {
    const nodeId: int
    const params: ElmoParameters
    const inherited: InheritedSteps
    const manager: SdoManager
    const rxPdoPosition: RxPdoPosition

    constructor (nodeId: int, params: ElmoParameters, inherited: InheritedSteps, manager: SdoManager, rxPdoPosition: RxPdoPosition)
      ensures this.nodeId == nodeId && this.params == params && this.inherited == inherited
      ensures this.manager == manager && this.rxPdoPosition == rxPdoPosition
    {
      this.nodeId := nodeId;
      this.params := params;
      this.inherited := inherited;
      this.manager := manager;
      this.rxPdoPosition := rxPdoPosition;
    }

    function Channel(): SdoChannel
    {
      SdoChannel(params.inSdoSmId, params.outSdoSmId, nodeId)
    }

    /** One inherited step: the base driver appends its batch to the queue. */
    method AppendInherited(batch: seq<Sdo>)
      modifies manager
      ensures manager.queue == old(manager.queue) + batch
    {
      manager.queue := manager.queue + batch;
    }

    method ConfigRxPdoProfilePosition()
      modifies manager
      ensures manager.queue == old(manager.queue) + ConfigRxPdoProfilePositionBatch(Channel())
    {
      var c := Channel();
      manager.AddSdo(Sdo(c, Pdo(Rx, 3, CobId)));
      manager.AddSdo(Sdo(c, Pdo(Rx, 3, TransmissionType(ProfilePositionTransmissionType))));
      manager.AddSdo(Sdo(c, Pdo(Rx, 3, MappedCount(0))));
      manager.AddSdo(Sdo(c, Pdo(Rx, 3, Mapping(1, 0x6060_0008))));
      manager.AddSdo(Sdo(c, Pdo(Rx, 3, Mapping(2, 0x607A_0020))));
      manager.AddSdo(Sdo(c, Pdo(Rx, 3, Mapping(3, 0x6040_0010))));
      manager.AddSdo(Sdo(c, Pdo(Rx, 3, MappedCount(3))));
      assert MappingWrites(c, Rx, 3, RxPdo3Mapping, 1)
          == [Sdo(c, Pdo(Rx, 3, Mapping(1, 0x6060_0008))), Sdo(c, Pdo(Rx, 3, Mapping(2, 0x607A_0020))),
              Sdo(c, Pdo(Rx, 3, Mapping(3, 0x6040_0010)))];
    }

    method ConfigRxPdos()
      modifies manager
      ensures manager.queue == old(manager.queue) + ConfigRxPdosBatch(Channel())
    {
      var c := Channel();
      manager.AddSdo(Sdo(c, Pdo(Rx, 1, MappedCount(0))));
      manager.AddSdo(Sdo(c, Pdo(Rx, 2, MappedCount(0))));
      manager.AddSdo(Sdo(c, Pdo(Rx, 3, MappedCount(0))));
      manager.AddSdo(Sdo(c, Pdo(Rx, 4, MappedCount(0))));
      ConfigRxPdoProfilePosition();
    }

    method SetMotorParameters()
      modifies manager
      ensures manager.queue == old(manager.queue) + MotorParametersBatch(Channel(), params, inherited)
    {
      var c := Channel();
      AppendInherited(inherited.setPositionLimits);
      manager.AddSdo(Sdo(c, Parameter(SetOperationMode(params.operationMode))));
      manager.AddSdo(Sdo(c, Parameter(SetDS402ConfigurationObject(DS402Configuration))));
      manager.AddSdo(Sdo(c, Parameter(SetPPModeProfileVelocity(params.profileVelocityInPPMode))));
    }

    method InitDevice() returns (ok: bool)
      modifies manager
      ensures ok
      ensures manager.queue == old(manager.queue) + InitDeviceBatch(Channel(), params, inherited)
    {
      var c := Channel();
      ghost var q0 := manager.queue;
      manager.AddSdo(Sdo(c, NmtEnterPreOperational));
      manager.AddSdo(Sdo(c, SetCobIdSync(SyncCobId)));
      assert manager.queue == q0 + [Sdo(c, NmtEnterPreOperational), Sdo(c, SetCobIdSync(SyncCobId))];
      AppendInherited(inherited.configTxPdos);
      ConfigRxPdos();
      SetMotorParameters();
      AppendInherited(inherited.initMotor);
      manager.AddSdo(Sdo(c, NmtStartRemoteNode));
      ok := true;
    }

    /** Enabling the motor enables the position PDO and appends no confirmed request. */
    method SetEnableMotor()
      modifies rxPdoPosition
      ensures rxPdoPosition.enabled
      ensures manager.queue == old(manager.queue)
    {
      rxPdoPosition.Enable();
    }

    method SetDisableMotor()
      modifies rxPdoPosition
      ensures !rxPdoPosition.enabled
      ensures manager.queue == old(manager.queue)
    {
      rxPdoPosition.Disable();
    }
  }
}
