/**
 * The device control state machine of CiA 402 (IEC 61800-7-201), reduced to the
 * states the controlword commands of the drivers reach. It is the reference against
 * which the power-up batch (fault reset, shutdown, switch on, enable operation) is
 * judged: from whichever state the drive is in, the batch ends in Operation enabled.
 */
module Cia402 {
  import opened Sdo

  datatype DriveState =
    | SwitchOnDisabled
    | ReadyToSwitchOn
    | SwitchedOn
    | OperationEnabled
    | QuickStopActive
    | Fault

  /** The state after one controlword command; requests that are not controlword
      commands leave the state alone. The fault-reset controlword clears the voltage
      bits, so outside Fault it acts as Disable voltage; a fault is taken to be gone
      when it is reset. Switch on and Disable operation are the same controlword. */
  function Command(s: DriveState, op: Op): DriveState
  {
    match op
    case Control(FaultReset) => SwitchOnDisabled
    case Control(Shutdown) =>
      if s == SwitchOnDisabled || s == SwitchedOn || s == OperationEnabled then ReadyToSwitchOn else s
    case Control(SwitchOn) =>
      if s == ReadyToSwitchOn || s == OperationEnabled then SwitchedOn else s
    case Control(DisableOperation) =>
      if s == ReadyToSwitchOn || s == OperationEnabled then SwitchedOn else s
    case Control(EnableOperation) =>
      if s == SwitchedOn || s == QuickStopActive then OperationEnabled else s
    case _ => s
  }

  function Run(s: DriveState, q: seq<Sdo>): DriveState
    decreases |q|
  {
    if q == [] then s else Run(Command(s, q[0].op), q[1..])
  }

  /** Fault reset, shutdown, switch on, enable operation, in that order. */
  function PowerUp(c: SdoChannel): seq<Sdo>
  {
    [Sdo(c, Control(FaultReset)), Sdo(c, Control(Shutdown)), Sdo(c, Control(SwitchOn)), Sdo(c, Control(EnableOperation))]
  }

  lemma RunCons(s: DriveState, x: Sdo, q: seq<Sdo>)
    ensures Run(s, [x] + q) == Run(Command(s, x.op), q)
  {
    assert ([x] + q)[1..] == q;
  }

  lemma PowerUpEnables(s: DriveState, c: SdoChannel)
    ensures Run(s, PowerUp(c)) == OperationEnabled
  {
    var a, b, d, e := Sdo(c, Control(FaultReset)), Sdo(c, Control(Shutdown)), Sdo(c, Control(SwitchOn)), Sdo(c, Control(EnableOperation));
    assert PowerUp(c) == [a] + ([b] + ([d] + ([e] + [])));
    assert Command(s, a.op) == SwitchOnDisabled;
    RunCons(s, a, [b] + ([d] + ([e] + [])));
    RunCons(SwitchOnDisabled, b, [d] + ([e] + []));
    RunCons(ReadyToSwitchOn, d, [e] + []);
    RunCons(SwitchedOn, e, []);
  }

  /** The fault reset at the head of the batch is needed: from Fault the other three
      commands leave the drive in Fault. */
  lemma PowerUpNeedsFaultReset(c: SdoChannel)
    ensures Run(Fault, PowerUp(c)[1..]) == Fault
  {
    var b, d, e := Sdo(c, Control(Shutdown)), Sdo(c, Control(SwitchOn)), Sdo(c, Control(EnableOperation));
    assert PowerUp(c)[1..] == [b] + ([d] + ([e] + []));
    RunCons(Fault, b, [d] + ([e] + []));
    RunCons(Fault, d, [e] + []);
    RunCons(Fault, e, []);
  }

  /** Disabling after the power-up commands, as the driver sends them, leaves the drive
      switched on, whatever state it started in. */
  lemma DisableFromEnabled(s: DriveState, c: SdoChannel)
    ensures Run(s, PowerUp(c) + [Sdo(c, Control(DisableOperation))]) == SwitchedOn
  {
    RunAppend(s, PowerUp(c), [Sdo(c, Control(DisableOperation))]);
    PowerUpEnables(s, c);
    RunCons(OperationEnabled, Sdo(c, Control(DisableOperation)), []);
    assert [Sdo(c, Control(DisableOperation))] + [] == [Sdo(c, Control(DisableOperation))];
  }

  lemma {:induction false} RunAppend(s: DriveState, a: seq<Sdo>, b: seq<Sdo>)
    ensures Run(s, a + b) == Run(Run(s, a), b)
    decreases |a|
  {
    if a == [] {
      assert a + b == b;
    } else {
      assert (a + b)[0] == a[0] && (a + b)[1..] == a[1..] + b;
      RunAppend(Command(s, a[0].op), a[1..], b);
    }
  }

  /** Requests that are not controlword commands. */
  predicate NoControl(q: seq<Sdo>)
  {
    forall i :: 0 <= i < |q| ==> !q[i].op.Control?
  }

  /** Requests that are not controlword commands leave the drive state alone. */
  lemma {:induction false} RunNoControl(s: DriveState, q: seq<Sdo>)
    requires NoControl(q)
    ensures Run(s, q) == s
    decreases |q|
  {
    if q != [] {
      assert !q[0].op.Control?;
      RunNoControl(s, q[1..]);
    }
  }
}
