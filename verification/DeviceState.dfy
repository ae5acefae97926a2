/** The device service's state machine: which event leads where. */
module DeviceState {
  datatype State = Init | Ready | Running | Paused | Calibrating | Recovering | Fault | Stopped

  datatype Event =
    InitOk | Start | Pause | Resume | Calibrate | CalibrationDone | Stall | DeviceError | Recovered | RecoveryFailed
    | Reset | Stop

  datatype Option<T> = None | Some(value: T)

  function Transition(from: State, event: Event): Option<State> {
    if event == Stop then (if from == Stopped then None else Some(Stopped))
    else
      match (from, event)
      case (Init, InitOk) => Some(Ready)
      case (Ready, Start) => Some(Running)
      case (Ready, Calibrate) => Some(Calibrating)
      case (Ready, DeviceError) => Some(Fault)
      case (Running, Pause) => Some(Paused)
      case (Running, Stall) => Some(Recovering)
      case (Running, DeviceError) => Some(Fault)
      case (Paused, Resume) => Some(Running)
      case (Paused, Calibrate) => Some(Calibrating)
      case (Paused, DeviceError) => Some(Fault)
      case (Calibrating, CalibrationDone) => Some(Ready)
      case (Calibrating, DeviceError) => Some(Fault)
      case (Recovering, Recovered) => Some(Running)
      case (Recovering, RecoveryFailed) => Some(Fault)
      case (Fault, Reset) => Some(Recovering)
      case _ => None
  }

  /** The same table by event: where each is accepted, and where it leads. */
  lemma TableByEvent(from: State, event: Event, to: State)
    ensures Transition(from, event) == Some(to) <==>
              match event
              case InitOk => from == Init && to == Ready
              case Start => from == Ready && to == Running
              case Pause => from == Running && to == Paused
              case Resume => from == Paused && to == Running
              case Calibrate => (from == Ready || from == Paused) && to == Calibrating
              case CalibrationDone => from == Calibrating && to == Ready
              case Stall => from == Running && to == Recovering
              case DeviceError => (from == Ready || from == Running || from == Paused || from == Calibrating) && to == Fault
              case Recovered => from == Recovering && to == Running
              case RecoveryFailed => from == Recovering && to == Fault
              case Reset => from == Fault && to == Recovering
              case Stop => from != Stopped && to == Stopped
  {
  }

  /** The events only the supervisor's own procedures produce. */
  predicate Internal(e: Event) { e == Recovered || e == RecoveryFailed || e == CalibrationDone }

  // ---------------------------------------------------------------------------
  // Runs of the table
  // ---------------------------------------------------------------------------

  datatype Change = Change(from: State, to: State, event: Event)

  /** `changes` is a run of the table that ends in `state`. */
  ghost predicate Linked(changes: seq<Change>, state: State) {
    && (forall k | 0 <= k < |changes| :: Transition(changes[k].from, changes[k].event) == Some(changes[k].to))
    && (forall k | 0 < k < |changes| :: changes[k].from == changes[k - 1].to)
    && (changes != [] ==> changes[|changes| - 1].to == state)
  }

  lemma LinkedGrows(changes: seq<Change>, state: State, to: State, event: Event)
    requires Linked(changes, state) && Transition(state, event) == Some(to)
    ensures Linked(changes + [Change(state, to, event)], to)
  {
  }

  ghost function Entries(changes: seq<Change>, s: State): nat {
    if changes == [] then 0
    else Entries(changes[..|changes| - 1], s) + (if changes[|changes| - 1].to == s then 1 else 0)
  }

  ghost function Comebacks(changes: seq<Change>): nat {
    if changes == [] then 0
    else
      var c := changes[|changes| - 1];
      Comebacks(changes[..|changes| - 1]) + (if c.from == Recovering && c.to == Running then 1 else 0)
  }

  lemma CountsGrow(changes: seq<Change>, c: Change)
    ensures forall s :: Entries(changes + [c], s) == Entries(changes, s) + (if c.to == s then 1 else 0)
    ensures Comebacks(changes + [c]) == Comebacks(changes) + (if c.from == Recovering && c.to == Running then 1 else 0)
  {
    assert (changes + [c])[..|changes|] == changes;
  }

  /** In every run of the table, Fault is left only by Reset or Stop, and Stopped never. */
  lemma FaultIsLatched(changes: seq<Change>, state: State, k: nat)
    requires Linked(changes, state) && k < |changes|
    ensures changes[k].from == Fault ==> changes[k].event == Reset || changes[k].event == Stop
    ensures changes[k].from != Stopped
    ensures changes[k].to == Stopped ==> changes[k].event == Stop
    ensures k + 1 < |changes| ==> changes[k].to != Stopped
  {
    if k + 1 < |changes| {
      assert changes[k + 1].from == changes[k + 1 - 1].to;
      assert Transition(changes[k + 1].from, changes[k + 1].event) == Some(changes[k + 1].to);
    }
  }

  /** From every state but Stopped at most two events lead to Running. */
  lemma RunningIsNear(from: State) returns (changes: seq<Change>)
    requires from != Stopped
    ensures |changes| <= 2 && Linked(changes, Running) && (if changes == [] then from == Running else changes[0].from == from)
  {
    match from
    case Init => changes := [Change(Init, Ready, InitOk), Change(Ready, Running, Start)];
    case Ready => changes := [Change(Ready, Running, Start)];
    case Running => changes := [];
    case Paused => changes := [Change(Paused, Running, Resume)];
    case Calibrating => changes := [Change(Calibrating, Ready, CalibrationDone), Change(Ready, Running, Start)];
    case Recovering => changes := [Change(Recovering, Running, Recovered)];
    case Fault => changes := [Change(Fault, Recovering, Reset), Change(Recovering, Running, Recovered)];
  }
}
