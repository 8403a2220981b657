# EPOS2 and ELMO drivers of libcanplusplus, modelled in Dafny

libcanplusplus drives CANopen motor controllers. Each driver brings its node up by
appending confirmed requests (SDOs) to the bus's SDO manager. This model covers:

- the bring-up batch: NMT enter pre-operational, the SYNC COB-ID `0x80`, deactivation
  of PDOs 1-4, re-mapping of one PDO, the motor parameters, the CiA 402 power-up
  controlwords, and NMT start remote node;
- enabling and disabling the motor;
- the ordering of the two position limits;
- the non-blocking polling of the status word.

The project has six modules:

- `PdoMapping` (`mapping.dfy`) covers the CiA 301 mapping word
  `index << 16 | subIndex << 8 | bitLength`, its decoding, the 64-bit PDO payload, the
  communication and mapping parameter object indices (1400h/1600h receive, 1800h/1A00h
  transmit), and the meaning of a transmission type.
- `Sdo` (`sdo.dfy`) holds the requests, the SDO manager as a class whose `queue` the
  drivers append to, and the status-word request object. The manager moves that object
  from queuing to waiting to received or timed out.
- `PdoConfig` (`pdo_config.dfy`) describes once the two PDO batches both drivers
  append: deactivating four PDOs, and setting up one PDO. Beside them sits a reference
  semantics of a node's mapping parameter (`Replay`). A CiA 301 node refuses a mapping
  write while the PDO is mapped, and refuses a count over missing entries or over the
  64-bit payload. The module also defines the ordering predicate `DeactivatedFirst`.
- `Cia402` (`cia402.dfy`) is the CiA 402 device control state machine, reduced to the
  controlword commands the drivers send.
- `Epos2` (`epos2.dfy`) is the EPOS2 driver as the class `Epos2Motor`. Each method
  appends its requests one by one and is proved to append exactly a batch function of
  the device's channel and parameters. The lemmas then state what those batches do.
- `ElmoSteering` (`elmo.dfy`) is the ELMO steering motor driver, class
  `ElmoSteeringMotor`. Its inherited base-driver steps are fixed batches given to it.

`initDevice` of both drivers appends its whole batch and returns true. It has no gating,
retries or failure path, and the model has none either. Values the drivers compute from
floating-point parameters appear as the integers they are cast to; the two position limits
are the exception, taken as integers before conversion (see "Left out").

## Model

| member | source | states |
|---|---|---|
| `PdoMapping.DecodeEncode` | src/libcanplusplus/devices/EPOS2Motor/DeviceEPOS2Motor.cpp:197-199 | decoding an encoded mapping word gives back its index, sub-index and bit length |
| `PdoMapping.EncodeDecode` | src/libcanplusplus/devices/EPOS2Motor/DeviceEPOS2Motor.cpp:218-220 | every 32-bit word is the encoding of its decoding, so a mapping word is exactly an (index, sub-index, bit length) triple |
| `PdoMapping.CommunicationParameterIndex` | src/libcanplusplus/devices/EPOS2Motor/DeviceEPOS2Motor.cpp:191-193 | the COB-ID and transmission type of a PDO live in 1400h-15FFh (receive) or 1800h-19FFh (transmit), one object per PDO number |
| `PdoMapping.MappingParameterIndex` | src/libcanplusplus/devices/EPOS2Motor/DeviceEPOS2Motor.cpp:195-201 | the count and mapping words of a PDO live in 1600h-17FFh (receive) or 1A00h-1BFFh (transmit), 200h above its communication parameter |
| `PdoMapping.Classify` | src/libcanplusplus/devices/EPOS2Motor/DeviceEPOS2Motor.cpp:193 | for a transmit PDO, type 0 is synchronous acyclic, 1-240 every n-th SYNC, 241-251 reserved, 252 and 253 on remote request (synchronous, asynchronous); for a receive PDO, 0-240 act at the next SYNC and 241-253 are reserved; 254-255 are event driven in both directions |
| `Sdo.SdoManager.AddSdo` | src/libcanplusplus/devices/EPOS2Motor/DeviceEPOS2Motor.cpp:87-88 | adding a request appends it to the end of the manager's queue; a status-word read entering the queue is marked queuing, its other flags and readings kept |
| `Sdo.StatusWordRequest.constructor` | src/libcanplusplus/devices/EPOS2Motor/DeviceEPOS2Motor.cpp:266 | a new status-word request is not queuing, waiting, received or timed out, and is addressed to the device |
| `Sdo.StatusWordRequest.Advance` | src/libcanplusplus/devices/EPOS2Motor/DeviceEPOS2Motor.cpp:256-259 | the manager moves a request only from queuing to waiting, then to received or timed out, never out of a fresh request it was not given; a reply brings the enabled and disabled readings |
| `Sdo.TimeOutIsFinal` | src/libcanplusplus/devices/EPOS2Motor/DeviceEPOS2Motor.cpp:256 | the manager makes no further move on a timed-out request |
| `PdoConfig.MappingWrites` | src/libcanplusplus/devices/EPOS2Motor/DeviceEPOS2Motor.cpp:197-199 | the k-th mapping request writes the k-th word at sub-index first + k of that PDO, one request per word |
| `PdoConfig.PdoSetupLayout` | src/libcanplusplus/devices/EPOS2Motor/DeviceEPOS2Motor.cpp:184-203 | a PDO set-up is COB-ID, transmission type, count 0, then word k at sub-index k + 1 in order, then the number of words as count |
| `PdoConfig.PdoSetupMappingCount` | src/libcanplusplus/devices/EPOS2Motor/DeviceEPOS2Motor.cpp:195-201 | the last request of a set-up is a count, and that count equals the number of mapping requests the set-up writes |
| `PdoConfig.PdoAddress` | src/libcanplusplus/devices/EPOS2Motor/DeviceEPOS2Motor.cpp:191-201 | exactly the PDO requests have an object address; counts and mapping words go to the mapping parameter, COB-ID and transmission type to the communication parameter |
| `PdoConfig.PdoSetupAddresses` | src/libcanplusplus/devices/EPOS2Motor/DeviceEPOS2Motor.cpp:184-203 | every request of a set-up writes that PDO's own communication or mapping parameter; the counts go to sub-index 0, the k-th word to sub-index k |
| `PdoConfig.PdoSetupTargets` | src/libcanplusplus/devices/EPOS2Motor/DeviceEPOS2Motor.cpp:205-223 | every request of a set-up is addressed to the device and writes that one PDO |
| `PdoConfig.ReplayAppend` | src/libcanplusplus/devices/EPOS2Motor/DeviceEPOS2Motor.cpp:156-167 | a node applying two batches in turn ends where it ends applying them joined |
| `PdoConfig.ReplayUnaffected` | src/libcanplusplus/devices/EPOS2Motor/DeviceEPOS2Motor.cpp:136-154 | requests that write neither the count nor a mapping word of a PDO leave its mapping parameter alone |
| `PdoConfig.OverlayAt` | src/libcanplusplus/devices/EPOS2Motor/DeviceEPOS2Motor.cpp:197-199 | writing words from a sub-index on puts word k at that sub-index + k and keeps every other entry |
| `PdoConfig.ReplayMappingWrites` | src/libcanplusplus/devices/EPOS2Motor/DeviceEPOS2Motor.cpp:197-199 | on a deactivated PDO every mapping write is accepted and lands at its sub-index |
| `PdoConfig.MappedBitsOfWords` | src/libcanplusplus/devices/EPOS2Motor/DeviceEPOS2Motor.cpp:201 | entries 1..n holding the n words take exactly the words' payload bits |
| `PdoConfig.ReplayPdoSetup` | src/libcanplusplus/devices/EPOS2Motor/DeviceEPOS2Motor.cpp:184-203 | from any state of the node, including an active mapping, a set-up with words that fit is accepted and leaves exactly those words mapped with count equal to their number |
| `PdoConfig.ReplayPdoSetupRefused` | src/libcanplusplus/devices/EPOS2Motor/DeviceEPOS2Motor.cpp:184-203 | from any state of the node, a set-up whose words overrun the 64-bit payload is refused, so fitting is exactly the condition for acceptance |
| `PdoConfig.MappingWithoutResetRefused` | src/libcanplusplus/devices/EPOS2Motor/DeviceEPOS2Motor.cpp:195 | without the count-0 request the same set-up is refused by a node whose PDO is mapped |
| `PdoConfig.ReplayDeactivateAll` | src/libcanplusplus/devices/EPOS2Motor/DeviceEPOS2Motor.cpp:160-164 | deactivating sets the counts of PDOs 1-4 of the direction to 0, and leaves their entries and every other PDO alone |
| `PdoConfig.ReplayPdoSetupOther` | src/libcanplusplus/devices/EPOS2Motor/DeviceEPOS2Motor.cpp:184-203 | a set-up of one PDO leaves every other PDO's mapping parameter as it was |
| `PdoConfig.ReplayTouchesNoPdo` | src/libcanplusplus/devices/EPOS2Motor/DeviceEPOS2Motor.cpp:146-151 | requests that write no PDO parameter leave every mapping parameter as it was |
| `PdoConfig.ReplayDeactivateThenSetup` | src/libcanplusplus/devices/EPOS2Motor/DeviceEPOS2Motor.cpp:156-167 | deactivating then setting up PDO k: PDO k maps exactly the new words, the other three end with count 0, all other PDOs are untouched |
| `PdoConfig.DeactivatedFirstExtend` | src/libcanplusplus/devices/EPOS2Motor/DeviceEPOS2Motor.cpp:136-154 | appending requests keeps a deactivation that came before any configuration |
| `PdoConfig.DeactivatedFirstAfter` | src/libcanplusplus/devices/EPOS2Motor/DeviceEPOS2Motor.cpp:136-154 | putting requests that configure nothing of the direction in front keeps it too |
| `PdoConfig.DeactivateAllFirst` | src/libcanplusplus/devices/EPOS2Motor/DeviceEPOS2Motor.cpp:169-182 | the deactivation batch sets the count of each of PDOs 1-4 to 0 before anything of the direction is configured |
| `PdoConfig.NoConfigurationAppend` | src/libcanplusplus/devices/EPOS2Motor/DeviceEPOS2Motor.cpp:144-145 | two batches that configure nothing of a direction joined configure nothing of it |
| `PdoConfig.DeactivateThenSetupOtherDirection` | src/libcanplusplus/devices/EPOS2Motor/DeviceEPOS2Motor.cpp:156-167 | the transmit PDO batch configures no receive PDO, and the other way round |
| `PdoConfig.DeactivateThenSetupFirst` | src/libcanplusplus/devices/EPOS2Motor/DeviceEPOS2Motor.cpp:169-182 | in a deactivation followed by a set-up, each of PDOs 1-4 gets count 0 before any PDO of the direction is configured |
| `Cia402.PowerUpEnables` | src/libcanplusplus/devices/EPOS2Motor/DeviceEPOS2Motor.cpp:225-232 | fault reset, shutdown, switch on, enable operation bring the drive to Operation enabled from every state of the model, with every controlword accepted and a fault cleared by its reset |
| `Cia402.PowerUpNeedsFaultReset` | src/libcanplusplus/devices/EPOS2Motor/DeviceEPOS2Motor.cpp:228 | without the leading fault reset a faulted drive stays in Fault |
| `Cia402.DisableFromEnabled` | src/libcanplusplus/devices/EPOS2Motor/DeviceEPOS2Motor.cpp:235-248 | enabling the motor and then disabling it leaves the drive Switched on, whatever state it started in |
| `Cia402.RunAppend` | src/libcanplusplus/devices/EPOS2Motor/DeviceEPOS2Motor.cpp:147-151 | the drive state after two batches joined is the state after the second, starting from the state after the first |
| `Cia402.RunNoControl` | src/libcanplusplus/devices/EPOS2Motor/DeviceEPOS2Motor.cpp:151 | requests that are not controlwords leave the drive state alone |
| `Epos2.SortLimits` | src/libcanplusplus/devices/EPOS2Motor/DeviceEPOS2Motor.cpp:76-82 | the two limits come out as min, max with min at most max, and they are the two given values |
| `Epos2.PositionLimitsOrdered` | src/libcanplusplus/devices/EPOS2Motor/DeviceEPOS2Motor.cpp:70-90 | the min-limit request comes first, its value is at most the max limit's, the two carry exactly the given limits, and swapping the arguments changes nothing |
| `Epos2.Pdo1Addresses` | src/libcanplusplus/devices/EPOS2Motor/DeviceEPOS2Motor.cpp:184-223 | the TxPDO 1 set-up writes only 1800h and 1A00h, the RxPDO 1 set-up only 1400h and 1600h, with the words at sub-indices 1, 2 and both counts at sub-index 0 |
| `Epos2.Pdo1Mappings` | src/libcanplusplus/devices/EPOS2Motor/DeviceEPOS2Motor.cpp:193-220 | the four words decode to 6064h, 606Ch, 206Bh (32 bits each) and 6060h (8 bits); TxPDO 1 takes 64 bits and RxPDO 1 40, both fit; transmission type 1 sends TxPDO 1 on every SYNC and applies RxPDO 1 at the next SYNC |
| `Epos2.ParametersOfAppend` | src/libcanplusplus/devices/EPOS2Motor/DeviceEPOS2Motor.cpp:92-133 | two parameter-only batches for the device joined are one |
| `Epos2.MotorParametersOnly` | src/libcanplusplus/devices/EPOS2Motor/DeviceEPOS2Motor.cpp:92-133 | the motor parameter batch is 21 requests to the device, each setting a parameter, none a PDO or controlword |
| `Epos2.AddressedBeforeStartAppend` | src/libcanplusplus/devices/EPOS2Motor/DeviceEPOS2Motor.cpp:136-154 | two batches to the device that do not start the node joined do not either |
| `Epos2.PdoBatchesAddressed` | src/libcanplusplus/devices/EPOS2Motor/DeviceEPOS2Motor.cpp:156-182 | the PDO batches go to the device and do not start the node |
| `Epos2.InitDeviceFraming` | src/libcanplusplus/devices/EPOS2Motor/DeviceEPOS2Motor.cpp:136-154 | the bring-up batch is 48 requests to the device: it opens with pre-operational and SYNC COB-ID 80h, and starts the node with its last request and nowhere else |
| `Epos2.InitDeviceEnables` | src/libcanplusplus/devices/EPOS2Motor/DeviceEPOS2Motor.cpp:136-154 | whatever state of the model the drive is in, the bring-up batch leaves it in Operation enabled, under the same assumptions as `Cia402.PowerUpEnables` |
| `Epos2.InitDeviceMappings` | src/libcanplusplus/devices/EPOS2Motor/DeviceEPOS2Motor.cpp:136-154 | from any node state, after bring-up PDO 1 of each direction maps exactly its two words, PDOs 2-4 have count 0, other PDOs are untouched |
| `Epos2.InitDeviceDeactivatesFirst` | src/libcanplusplus/devices/EPOS2Motor/DeviceEPOS2Motor.cpp:156-182 | in the bring-up batch each of PDOs 1-4 of each direction gets count 0 before any PDO of that direction is configured |
| `Epos2.Decide` | src/libcanplusplus/devices/EPOS2Motor/DeviceEPOS2Motor.cpp:256-272 | a poll reports exactly when the request is received and not timed out, and enqueues exactly when none of the four flags is set |
| `Epos2.TimedOutStaysSilent` | src/libcanplusplus/devices/EPOS2Motor/DeviceEPOS2Motor.cpp:251-273 | once the request has timed out, every later poll in any admissible run returns false and enqueues nothing |
| `Epos2.TraceSplit` | src/libcanplusplus/devices/EPOS2Motor/DeviceEPOS2Motor.cpp:251-273 | a run of polls and manager moves is admissible exactly when both its parts are, the second from where the first leaves the request, and its poll results are the first part's followed by the second's |
| `Epos2.TimeOutSilencesRest` | src/libcanplusplus/devices/EPOS2Motor/DeviceEPOS2Motor.cpp:256 | when the request times out part-way through an admissible run, every later poll returns false and enqueues nothing |
| `Epos2.PollsAlternate` | src/libcanplusplus/devices/EPOS2Motor/DeviceEPOS2Motor.cpp:251-273 | along every admissible run, waits aside, the polls alternate enqueue and report: no reading is reported without a read handed to the manager before it, and no read is handed over twice before its reading |
| `Epos2.PollsAlternateFromFresh` | src/libcanplusplus/devices/EPOS2Motor/DeviceEPOS2Motor.cpp:16-21 | from the fresh request the driver constructs, the first poll that does anything enqueues, and enqueue and report alternate from there |
| `Epos2.Epos2Motor.constructor` | src/libcanplusplus/devices/EPOS2Motor/DeviceEPOS2Motor.cpp:16-21 | the driver starts with two distinct fresh status-word requests addressed to its node |
| `Epos2.Epos2Motor.SetPositionLimits` | src/libcanplusplus/devices/EPOS2Motor/DeviceEPOS2Motor.cpp:70-90 | appends exactly the min-limit then the max-limit request of the sorted limits |
| `Epos2.Epos2Motor.SetMotorData` | src/libcanplusplus/devices/EPOS2Motor/DeviceEPOS2Motor.cpp:97-102 | appends encoder pulses, sensor type, polarities, motor type, pole pairs and winding time constant, in that order |
| `Epos2.Epos2Motor.SetCurrentLimits` | src/libcanplusplus/devices/EPOS2Motor/DeviceEPOS2Motor.cpp:104-105 | appends the continuous and the output current limit, both set to the continuous current limit |
| `Epos2.Epos2Motor.SetGains` | src/libcanplusplus/devices/EPOS2Motor/DeviceEPOS2Motor.cpp:108-114 | appends the four velocity gains then the two current gains |
| `Epos2.Epos2Motor.SetSupervision` | src/libcanplusplus/devices/EPOS2Motor/DeviceEPOS2Motor.cpp:120-123 | appends the following-error window, guard time 0 and life time factor 1 |
| `Epos2.Epos2Motor.SetMotorParameters` | src/libcanplusplus/devices/EPOS2Motor/DeviceEPOS2Motor.cpp:92-133 | appends the parameter groups, the position limits, the operation mode and abort connection option code 1, in that order |
| `Epos2.Epos2Motor.ConfigTxPdoPositionVelocity` | src/libcanplusplus/devices/EPOS2Motor/DeviceEPOS2Motor.cpp:184-203 | appends exactly the set-up of TxPDO 1 with transmission type 1 and the position and velocity words |
| `Epos2.Epos2Motor.ConfigRxPdoVelocity` | src/libcanplusplus/devices/EPOS2Motor/DeviceEPOS2Motor.cpp:205-223 | appends exactly the set-up of RxPDO 1 with transmission type 1 and the velocity-setting and operation-mode words |
| `Epos2.Epos2Motor.ConfigTxPdos` | src/libcanplusplus/devices/EPOS2Motor/DeviceEPOS2Motor.cpp:156-167 | appends count 0 for TxPDOs 1-4, then the TxPDO 1 set-up |
| `Epos2.Epos2Motor.ConfigRxPdos` | src/libcanplusplus/devices/EPOS2Motor/DeviceEPOS2Motor.cpp:169-182 | appends count 0 for RxPDOs 1-4, then the RxPDO 1 set-up |
| `Epos2.Epos2Motor.InitMotor` | src/libcanplusplus/devices/EPOS2Motor/DeviceEPOS2Motor.cpp:225-232 | appends fault reset, shutdown, switch on, enable operation |
| `Epos2.Epos2Motor.SetEnableMotor` | src/libcanplusplus/devices/EPOS2Motor/DeviceEPOS2Motor.cpp:235-242 | appends the same four requests as initializing the motor, in the same order |
| `Epos2.Epos2Motor.SetDisableMotor` | src/libcanplusplus/devices/EPOS2Motor/DeviceEPOS2Motor.cpp:244-248 | appends exactly one disable-operation request |
| `Epos2.Epos2Motor.InitDevice` | src/libcanplusplus/devices/EPOS2Motor/DeviceEPOS2Motor.cpp:136-154 | returns true and appends exactly the bring-up batch |
| `Epos2.Epos2Motor.GetIsMotorEnabled` | src/libcanplusplus/devices/EPOS2Motor/DeviceEPOS2Motor.cpp:251-273 | returns true exactly when the request is received and not timed out, then gives its enabled reading and holds a fresh request; otherwise leaves the flag, keeps the request and enqueues it only when it is untouched; the request's new status is the one the polling trace model gives (`AfterEvent`) |
| `Epos2.Epos2Motor.GetIsMotorDisabled` | src/libcanplusplus/devices/EPOS2Motor/DeviceEPOS2Motor.cpp:275-297 | the same on its own request object, with the disabled reading, leaving the enabled poll's request unchanged |
| `ElmoSteering.RxPdo3MappingFacts` | examples/hdpc_com/src/devices/DeviceELMOSteeringMotor.cpp:130-141 | the words decode to 6060h (8 bits), 607Ah (32) and 6040h (16), 56 bits that fit; transmission type 0 on this receive PDO means it is applied at the next SYNC |
| `ElmoSteering.ProfilePositionLayout` | examples/hdpc_com/src/devices/DeviceELMOSteeringMotor.cpp:122-146 | the RxPDO 3 set-up is COB-ID, type 0, count 0, the three words at sub-indices 1, 2, 3, then count 3, the number of mapping requests |
| `ElmoSteering.LeavesRxPdosAppend` | examples/hdpc_com/src/devices/DeviceELMOSteeringMotor.cpp:75-103 | two batches that write no receive PDO joined write none |
| `ElmoSteering.InitDeviceFraming` | examples/hdpc_com/src/devices/DeviceELMOSteeringMotor.cpp:75-103 | the bring-up batch opens with pre-operational and SYNC COB-ID 80h and ends with NMT start |
| `ElmoSteering.InitDeviceStartsOnlyLast` | examples/hdpc_com/src/devices/DeviceELMOSteeringMotor.cpp:75-103 | when the inherited steps do not start the node, no request before the last one does |
| `ElmoSteering.InitDeviceRxMappings` | examples/hdpc_com/src/devices/DeviceELMOSteeringMotor.cpp:106-146 | from any node state, when the inherited steps write no receive PDO, RxPDO 3 ends mapping exactly its three words, RxPDOs 1, 2, 4 have count 0, others are untouched |
| `ElmoSteering.InitDeviceRxDeactivatedFirst` | examples/hdpc_com/src/devices/DeviceELMOSteeringMotor.cpp:106-119 | each of RxPDOs 1-4 gets count 0 before any receive PDO is configured, when the inherited transmit step configures none |
| `ElmoSteering.RxPdoPosition.Enable` | examples/hdpc_com/src/devices/DeviceELMOSteeringMotor.cpp:173 | the position PDO is enabled afterwards |
| `ElmoSteering.RxPdoPosition.Disable` | examples/hdpc_com/src/devices/DeviceELMOSteeringMotor.cpp:178 | the position PDO is disabled afterwards |
| `ElmoSteering.ElmoSteeringMotor.constructor` | examples/hdpc_com/src/devices/DeviceELMOSteeringMotor.cpp:16-20 | the driver keeps the node id and parameters it is built with, together with the base driver's steps, the bus's SDO manager and its position PDO |
| `ElmoSteering.ElmoSteeringMotor.AppendInherited` | examples/hdpc_com/src/devices/DeviceELMOSteeringMotor.cpp:90 | an inherited step appends its batch |
| `ElmoSteering.ElmoSteeringMotor.ConfigRxPdoProfilePosition` | examples/hdpc_com/src/devices/DeviceELMOSteeringMotor.cpp:122-146 | appends exactly the RxPDO 3 set-up with transmission type 0 and its three words |
| `ElmoSteering.ElmoSteeringMotor.ConfigRxPdos` | examples/hdpc_com/src/devices/DeviceELMOSteeringMotor.cpp:106-119 | appends count 0 for RxPDOs 1-4, then the RxPDO 3 set-up |
| `ElmoSteering.ElmoSteeringMotor.SetMotorParameters` | examples/hdpc_com/src/devices/DeviceELMOSteeringMotor.cpp:63-72 | appends the inherited position limits, then operation mode, DS402 configuration object 2 and the profile velocity, in that order |
| `ElmoSteering.ElmoSteeringMotor.InitDevice` | examples/hdpc_com/src/devices/DeviceELMOSteeringMotor.cpp:75-103 | returns true and appends exactly the bring-up batch |
| `ElmoSteering.ElmoSteeringMotor.SetEnableMotor` | examples/hdpc_com/src/devices/DeviceELMOSteeringMotor.cpp:171-174 | enables the position PDO and appends no confirmed request |
| `ElmoSteering.ElmoSteeringMotor.SetDisableMotor` | examples/hdpc_com/src/devices/DeviceELMOSteeringMotor.cpp:176-179 | disables the position PDO and appends no confirmed request |

## Left out

- Floating-point unit conversions are left out: `setVelocity`, `getPosition`, `getVelocity`,
  the tick computations in `setPositionLimits` and `setMotorParameters`, and the ELMO
  `setProfilePosition`. Converted values appear as the integers the drivers cast them to.
- `SortLimits` takes the two position limits as integers before conversion. The source compares
  the `double` radian limits and then scales both by `gearratio_motor * RAD_TO_TICKS`; the
  tick values it sends are ordered as the model states only when that factor is not negative.
- `SortLimits` orders integers, so the NaN case of the source's `double` comparison does not arise.
- The SDO manager is only its queue. Dispatch, replies, timeouts and retries are not modelled;
  the manager's moves on a status-word request are a guarded environment step
  (`StatusWordRequest.Advance`). A timed-out request is taken to stay timed out: the manager is
  assumed never to clear its time-out flag or send it again. The manager's source is not part
  of this model: `AddSdo` is taken to mark a status-word read as queuing when it enters the
  queue, which the driver's queuing test before `addSDO` relies on, and the manager is taken
  to send only requests it was given.
- The COB-ID values chosen by the `ConfigureCOBID` requests are not modelled; neither is the
  bit decoding of the status word behind `isEnabled` and `isDisabled`, which arrive as two
  readings with the reply.
- The PDO managers and the registration of PDOs (`addRxPDOs`, `addTxPDOs`) are not part of this
  model. The ELMO position PDO is a class with only its enable flag; its initial value is
  not stated.
- The ELMO inherited steps (`configTxPDOs`, `setPositionLimits`, `initMotor` of
  `DeviceELMOBaseMotor`) are not part of this model. Each is an arbitrary fixed batch; the ELMO
  lemmas that need to know these batches leave the receive PDOs alone, or do not start the
  node, say so in their `requires`.
- Memory management (`delete`, `new`, smart-pointer `reset`) is not modelled: a re-armed status
  request is a fresh object.
- Commented-out code in both files is not modelled.
- The EPOS2 `setMotorParameters` is written as four helper methods, one per group of requests in
  the source function, plus the rest inline. The requests and their order are those of the source.
- `Cia402.Command` covers only the transitions the drivers' controlwords take; quick stop,
  fault reaction and the voltage-disabled details of CiA 402 are not modelled. It takes every
  controlword to be accepted, and a fault reset to clear the fault, so a fault that persists
  is not modelled; `Cia402.PowerUpEnables` and `Epos2.InitDeviceEnables` hold under these two
  assumptions.
