/**
 * Confirmed (SDO) requests as the two drivers issue them, the bus's
 * SDO manager reduced to the queue that `addSDO` appends to, and the
 * status-word read request whose flags the manager updates between calls.
 */
module Sdo {
  import opened PdoMapping

  /** The slot managers and the node that every confirmed request of one device addresses. */
  datatype SdoChannel = SdoChannel(inSmId: int, outSmId: int, nodeId: int)

  /** What a confirmed request asks the node to do. */
  datatype Op =
    | NmtEnterPreOperational
    | NmtStartRemoteNode
    | SetCobIdSync(cobId: int)
    /** A write into the communication or mapping parameter of one PDO. */
    | Pdo(dir: PdoDir, pdo: PdoNumber, param: PdoParameter)
    | Parameter(parameter: DriveParameter)
    | Control(command: Controlword)
    /** The status-word read, queued as the very object the driver keeps polling. */
    | ReadStatusWord(request: StatusWordRequest)

  /** The four PDO parameters the drivers write: COB-ID (communication parameter sub 1),
      transmission type (sub 2), number of mapped objects (mapping parameter sub 0)
      and one mapping word (mapping parameter sub 1..64). */
  datatype PdoParameter =
    | CobId
    | TransmissionType(transmissionType: uint8)
    | MappedCount(count: uint8)
    | Mapping(subIndex: uint8, word: uint32)

  /** Motor and controller parameters; payloads that the drivers compute from
      floating-point parameters appear here as the integers they were cast to. */
  datatype DriveParameter =
    | SetEncoderPulseNumber(pulses: int)
    | SetPositionSensorType(sensorType: int)
    | SetPositionSensorPolarity(encoderPolarity: int, hallPolarity: int)
    | SetMotorType(motorType: int)
    | SetPolePairNumber(polePairs: int)
    | SetThermalTimeConstantWinding(timeConstant: int)
    | SetContinuousCurrentLimit(milliAmps: int)
    | SetOutputCurrentLimit(milliAmps: int)
    | SetVelocityPGain(gain: int)
    | SetVelocityIGain(gain: int)
    | SetVelocityVelFFGain(gain: int)
    | SetVelocityAccFFGain(gain: int)
    | SetCurrentPGain(gain: int)
    | SetCurrentIGain(gain: int)
    | SetMaxFollowingError(ticks: int)
    | SetGuardTime(milliseconds: int)
    | SetLifeTimeFactor(factor: int)
    | SetMinPositionLimit(ticks: int)
    | SetMaxPositionLimit(ticks: int)
    | SetOperationMode(mode: int)
    | SetAbortConnectionOptionCode(code: int)
    | SetDS402ConfigurationObject(value: int)
    | SetPPModeProfileVelocity(velocity: int)

  /** CiA 402 controlword commands. */
  datatype Controlword =
    | FaultReset
    | Shutdown
    | SwitchOn
    | EnableOperation
    | DisableOperation

  datatype Sdo = Sdo(channel: SdoChannel, op: Op)

  /** The bus's queue of confirmed requests; dispatch, timeouts and replies are not part of this model. */
  class SdoManager {
    var queue: seq<Sdo>

    constructor ()
      ensures queue == []
    {
      queue := [];
    }

    /** Appends a request. A status-word read that enters the queue is marked as
        queuing, which is what the driver's queuing test before `addSDO` relies on;
        the other requests are values the drivers never look at again. */
    method AddSdo(r: Sdo)
      modifies this, if r.op.ReadStatusWord? then {r.op.request} else {}
      ensures queue == old(queue) + [r]
      ensures r.op.ReadStatusWord? ==> (r.op.request.Status() == old(r.op.request.Status()).(queuing := true)
                                        && r.op.request.replyEnabled == old(r.op.request.replyEnabled)
                                        && r.op.request.replyDisabled == old(r.op.request.replyDisabled))
    {
      queue := queue + [r];
      if r.op.ReadStatusWord? {
        r.op.request.queuing := true;
      }
    }
  }

  /** The four flags a driver reads off a confirmed request. */
  datatype RequestStatus = RequestStatus(timedOut: bool, received: bool, waiting: bool, queuing: bool)

  /** A request object as it is constructed: not yet handed to the manager. */
  const Fresh := RequestStatus(false, false, false, false)
  /** In the manager's queue. */
  const Queuing := RequestStatus(false, false, false, true)
  /** Sent, its reply awaited. */
  const Waiting := RequestStatus(false, false, true, false)
  const Received := RequestStatus(false, true, false, false)
  const TimedOut := RequestStatus(true, false, false, false)

  /** The moves the manager makes on a request between two driver calls: it sends a
      queued request, and then sees either its reply or its timeout. Entering the queue
      is not one of them: that happens in `AddSdo`. A request that is received or has
      timed out is finished with. */
  ghost predicate ManagerStep(s: RequestStatus, next: RequestStatus)
  {
    || (s == Queuing && next == Waiting)
    || (s == Waiting && next == Received)
    || (s == Waiting && next == TimedOut)
  }

  lemma TimeOutIsFinal(s: RequestStatus, next: RequestStatus)
    requires s.timedOut
    ensures !ManagerStep(s, next)
  {
  }

  /** The status-word read request, shared between the driver that polls it and the
      manager that updates its flags; the reply is kept as the two readings the driver
      asks of it (the bit decoding of the status word is not part of this model). */
  class StatusWordRequest {
    const channel: SdoChannel
    var timedOut: bool
    var received: bool
    var waiting: bool
    var queuing: bool
    var replyEnabled: bool
    var replyDisabled: bool

    constructor (channel: SdoChannel)
      ensures this.channel == channel
      ensures Status() == Fresh
    {
      this.channel := channel;
      timedOut, received, waiting, queuing := false, false, false, false;
      replyEnabled, replyDisabled := false, false;
    }

    function Status(): RequestStatus
      reads this
    {
      RequestStatus(timedOut, received, waiting, queuing)
    }

    /** One move of the manager; a reply brings the two readings with it. */
    method Advance(next: RequestStatus, enabled: bool, disabled: bool)
      requires ManagerStep(Status(), next)
      modifies this
      ensures Status() == next
      ensures next.received ==> replyEnabled == enabled && replyDisabled == disabled
      ensures !next.received ==> replyEnabled == old(replyEnabled) && replyDisabled == old(replyDisabled)
    {
      timedOut, received, waiting, queuing := next.timedOut, next.received, next.waiting, next.queuing;
      if next.received {
        replyEnabled, replyDisabled := enabled, disabled;
      }
    }
  }
}
