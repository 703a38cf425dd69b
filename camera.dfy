/**
  The camera-configuration state machine of the view controller. The
  controller keeps the outcome of configuration, the framework session's
  running flag and its own copy of it, and the inputs and outputs it has
  attached to the session. The framework's answers (authorization status,
  whether access is granted, whether a camera and its input exist, whether
  the session accepts the input and the output, whether the session is
  running after a start) are parameters.
 */
module Camera {
  import opened Options

  /** The outcome of camera configuration. */
  datatype CameraConfiguration = Success | Failed | PermissionDenied

  /** The camera authorization the system reports. */
  datatype AuthorizationStatus = NotDetermined | Restricted | Denied | Authorized

  /** The framework's answers while the session is configured. */
  datatype DeviceOutcomes = DeviceOutcomes(cameraFound: bool, inputCreated: bool, canAddInput: bool, canAddOutput: bool)

  /** How a step ends: normally, or by a fatal error that stops the program. */
  datatype Exit = Returned | FatalError(reason: string)

  /** The controller's state: its configuration, its copy of the running flag, the session's own flag, and what is attached to the session. */
  datatype Session = Session(configuration: CameraConfiguration, isSessionRunning: bool, running: bool, inputs: nat, outputs: nat)

  /** The state of a freshly created controller. */
  const Initial := Session(Failed, false, false, 0, 0)

  /** The configuration an answer to the access request produces. */
  function AccessConfiguration(granted: bool): (c: CameraConfiguration)
    ensures c != Failed
    ensures c == Success <==> granted
  {
    if granted then Success else PermissionDenied
  }

  /**
    The effect of the authorization switch, including the answer to the
    access request when the status is not yet determined. Only the
    configuration changes.
   */
  function Authorize(s: Session, status: AuthorizationStatus, granted: bool): (t: Session)
    ensures t.(configuration := s.configuration) == s
    ensures t.configuration == Success <==>
      status == Authorized || (status == NotDetermined && granted) || (status == Restricted && s.configuration == Success)
    ensures t.configuration == PermissionDenied <==>
      status == Denied || (status == NotDetermined && !granted) || (status == Restricted && s.configuration == PermissionDenied)
  {
    match status
    case Authorized => s.(configuration := Success)
    case NotDetermined => s.(configuration := AccessConfiguration(granted))
    case Denied => s.(configuration := PermissionDenied)
    case Restricted => s
  }

  /** Configuring a session whose configuration succeeded so far stops the program when there is no camera or its input cannot be created. */
  predicate ConfigureAborts(s: Session, dev: DeviceOutcomes)
  {
    s.configuration == Success && !(dev.cameraFound && dev.inputCreated)
  }

  /**
    The effect of configuring the session. Nothing changes unless the
    configuration is Success; it stays Success only when both the input and
    the output are added, and otherwise becomes Failed. A rejected output
    leaves the input that was added before it attached.
   */
  function Configure(s: Session, dev: DeviceOutcomes): (t: Session)
    requires !ConfigureAborts(s, dev)
    ensures s.configuration != Success ==> t == s
    ensures t.configuration == Success <==> s.configuration == Success && dev.canAddInput && dev.canAddOutput
    ensures t.configuration != s.configuration ==> t.configuration == Failed
    ensures t.isSessionRunning == s.isSessionRunning && t.running == s.running
    ensures t.inputs == s.inputs + (if s.configuration == Success && dev.canAddInput then 1 else 0)
    ensures t.outputs == s.outputs + (if t.configuration == Success then 1 else 0)
  {
    if s.configuration != Success then s
    else if !dev.canAddInput then s.(configuration := Failed)
    else if !dev.canAddOutput then s.(configuration := Failed, inputs := s.inputs + 1)
    else s.(inputs := s.inputs + 1, outputs := s.outputs + 1)
  }

  /**
    The effect of the check-and-start step: only a Success configuration
    starts the session, and then both flags take the session's answer.
   */
  function CheckAndStart(s: Session, started: bool): (t: Session)
    ensures s.configuration == Success ==> t.running == started && t.isSessionRunning == started
    ensures s.configuration != Success ==> t == s
    ensures t.configuration == s.configuration && t.inputs == s.inputs && t.outputs == s.outputs
  {
    if s.configuration == Success then s.(running := started, isSessionRunning := started) else s
  }

  /** The effect of stopping: only a running session is stopped, and only then is the copy of its flag updated. */
  function Stop(s: Session): (t: Session)
    ensures !t.running
    ensures t.isSessionRunning == (s.isSessionRunning && !s.running)
    ensures t.configuration == s.configuration && t.inputs == s.inputs && t.outputs == s.outputs
  {
    if s.running then s.(running := false, isSessionRunning := false) else s
  }

  /**
    The framework stops the session by itself (a runtime error, a reset of
    the media services). The controller installs no observer, so only the
    session's own flag changes.
   */
  function Interrupt(s: Session): (t: Session)
    ensures !t.running
    ensures t.(running := s.running) == s
  {
    s.(running := false)
  }

  /** The entry points of the controller with the framework's answers, and the session stopping by itself. */
  datatype Event =
    | Attempted(status: AuthorizationStatus, granted: bool, dev: DeviceOutcomes)
    | Checked(started: bool)
    | Stopped
    | Interrupted

  /** One entry point applied to a state; None when it stops the program. */
  function Apply(s: Session, e: Event): (r: Option<Session>)
  {
    match e
    case Attempted(status, granted, dev) =>
      var mid := Authorize(s, status, granted);
      if ConfigureAborts(mid, dev) then None else Some(Configure(mid, dev))
    case Checked(started) => Some(CheckAndStart(s, started))
    case Stopped => Some(Stop(s))
    case Interrupted => Some(Interrupt(s))
  }

  /** A sequence of entry points applied in order; None when one stops the program. */
  function Run(s: Session, events: seq<Event>): (r: Option<Session>)
    decreases |events|
  {
    if events == [] then Some(s)
    else match Apply(s, events[0])
      case None => None
      case Some(t) => Run(t, events[1..])
  }

  /**
    A running session is known to the controller (its copy of the flag may
    stay set after the session stopped by itself), and a session that is
    running or configured with Success has an input and an output attached.
   */
  predicate Consistent(s: Session)
  {
    (s.running ==> s.isSessionRunning) &&
    ((s.configuration == Success || s.running) ==> s.inputs >= 1 && s.outputs >= 1)
  }

  /** An attempt that can lead to a running session: access authorized or granted, and both the input and the output accepted. */
  predicate Permits(e: Event)
  {
    e.Attempted? && (e.status == Authorized || (e.status == NotDetermined && e.granted)) &&
    e.dev.canAddInput && e.dev.canAddOutput
  }

  /** Every entry point that completes keeps the state consistent. */
  lemma ApplyKeepsConsistent(s: Session, e: Event)
    requires Consistent(s) && Apply(s, e).Some?
    ensures Consistent(Apply(s, e).value)
  {
  }

  /** Any sequence of entry points that completes keeps the state consistent. */
  lemma {:induction false} RunKeepsConsistent(s: Session, events: seq<Event>)
    requires Consistent(s) && Run(s, events).Some?
    ensures Consistent(Run(s, events).value)
    decreases |events|
  {
    if events != [] {
      ApplyKeepsConsistent(s, events[0]);
      RunKeepsConsistent(Apply(s, events[0]).value, events[1..]);
    }
  }

  /** After one entry point, a Success configuration or a running session was already there, or the entry point was a permitted attempt. */
  lemma ApplyNeedsPermission(s: Session, e: Event)
    requires Apply(s, e).Some?
    requires Apply(s, e).value.configuration == Success || Apply(s, e).value.isSessionRunning
    ensures s.configuration == Success || s.isSessionRunning || Permits(e)
  {
  }

  /** After any sequence of entry points, a Success configuration or a running session was already there, or some attempt in the sequence was permitted. */
  lemma {:induction false} RunNeedsPermission(s: Session, events: seq<Event>)
    requires Run(s, events).Some?
    requires Run(s, events).value.configuration == Success || Run(s, events).value.isSessionRunning
    ensures s.configuration == Success || s.isSessionRunning || exists i :: 0 <= i < |events| && Permits(events[i])
    decreases |events|
  {
    if events != [] {
      var t := Apply(s, events[0]).value;
      RunNeedsPermission(t, events[1..]);
      if t.configuration == Success || t.isSessionRunning {
        ApplyNeedsPermission(s, events[0]);
      } else {
        var i :| 0 <= i < |events[1..]| && Permits(events[1..][i]);
        assert Permits(events[i + 1]);
      }
    }
  }

  /**
    From a freshly created controller, whatever the order of the entry
    points, the session is running only if camera access was authorized or
    granted and both the input and the output were accepted in one attempt.
   */
  lemma RunningRequiresPermission(events: seq<Event>)
    requires Run(Initial, events).Some? && Run(Initial, events).value.isSessionRunning
    ensures exists i :: 0 <= i < |events| && Permits(events[i])
  {
    RunNeedsPermission(Initial, events);
  }

  /**
    The start-up of a freshly created controller (configure, then check and
    start) completes unless it aborts, and the session then runs exactly
    when access was authorized or granted, the input and the output were
    accepted and the session reports running.
   */
  lemma StartUpOutcome(status: AuthorizationStatus, granted: bool, dev: DeviceOutcomes, started: bool)
    ensures var permitted := status == Authorized || (status == NotDetermined && granted);
      Run(Initial, [Attempted(status, granted, dev), Checked(started)]).None? <==>
        permitted && !(dev.cameraFound && dev.inputCreated)
    ensures var r := Run(Initial, [Attempted(status, granted, dev), Checked(started)]);
      r.Some? ==>
        (r.value.isSessionRunning <==>
          (status == Authorized || (status == NotDetermined && granted)) &&
          dev.canAddInput && dev.canAddOutput && started)
  {
    var events := [Attempted(status, granted, dev), Checked(started)];
    var mid := Authorize(Initial, status, granted);
    if !ConfigureAborts(mid, dev) {
      var t := Configure(mid, dev);
      assert events[1..] == [Checked(started)];
      assert Run(Initial, events) == Run(t, [Checked(started)]);
      assert [Checked(started)][1..] == [];
      assert Run(t, [Checked(started)]) == Some(CheckAndStart(t, started));
    }
  }

  /**
    When the session stops by itself after a successful start-up, the
    controller still believes it is running, and stopping it afterwards
    leaves that belief in place, because only a running session is stopped.
   */
  lemma InterruptionLeavesStaleFlag(dev: DeviceOutcomes)
    requires dev.cameraFound && dev.inputCreated && dev.canAddInput && dev.canAddOutput
    ensures var r := Run(Initial, [Attempted(Authorized, false, dev), Checked(true), Interrupted, Stopped]);
      r.Some? && r.value.isSessionRunning && !r.value.running
  {
    var events := [Attempted(Authorized, false, dev), Checked(true), Interrupted, Stopped];
    var s1 := Configure(Authorize(Initial, Authorized, false), dev);
    var s2 := CheckAndStart(s1, true);
    var s3 := Interrupt(s2);
    assert events[1..] == [Checked(true), Interrupted, Stopped];
    assert events[1..][1..] == [Interrupted, Stopped];
    assert events[1..][1..][1..] == [Stopped];
    assert events[1..][1..][1..][1..] == [];
    assert Run(Initial, events) == Run(s1, events[1..]);
    assert Run(s1, events[1..]) == Run(s2, events[1..][1..]);
    assert Run(s2, events[1..][1..]) == Run(s3, events[1..][1..][1..]);
    assert Run(s3, events[1..][1..][1..]) == Some(Stop(s3));
  }

  /** The view controller's fields that configuration and session start read and update. */
  class ViewController {
    var cameraConfiguration: CameraConfiguration
    var isSessionRunning: bool
    /** The capture session's own running flag. */
    var sessionRunning: bool
    /** Inputs and outputs attached to the capture session. */
    var inputCount: nat
    var outputCount: nat

    /** The controller's state as a value. */
    function Snapshot(): (s: Session)
      reads this
    {
      Session(cameraConfiguration, isSessionRunning, sessionRunning, inputCount, outputCount)
    }

    ghost predicate Valid()
      reads this
    {
      Consistent(Snapshot())
    }

    constructor ()
      ensures Valid() && Snapshot() == Initial
    {
      cameraConfiguration := Failed;
      isSessionRunning := false;
      sessionRunning := false;
      inputCount := 0;
      outputCount := 0;
    }

    /** Loads the view: configures the session, then checks the configuration and starts the session. */
    method ViewDidLoad(status: AuthorizationStatus, granted: bool, dev: DeviceOutcomes, started: bool) returns (exit: Exit)
      requires Valid()
      modifies this
      ensures Run(old(Snapshot()), [Attempted(status, granted, dev), Checked(started)])
           == (if exit.FatalError? then None else Some(Snapshot()))
      ensures exit == Returned ==> Valid()
    {
      exit := AttemptToConfigureSession(status, granted, dev);
      if exit.FatalError? {
        return;
      }
      ghost var s1 := Snapshot();
      CheckCameraConfigurationAndStartSession(started);
      assert [Attempted(status, granted, dev), Checked(started)][1..] == [Checked(started)];
      assert Run(s1, [Checked(started)]) == Run(Snapshot(), []);
    }

    /** Stops a running session and updates the copy of its flag; a session that is not running is left alone. */
    method StopSession()
      requires Valid()
      modifies this`sessionRunning, this`isSessionRunning
      ensures Valid() && Snapshot() == Stop(old(Snapshot()))
    {
      if sessionRunning {
        sessionRunning := false;
        isSessionRunning := sessionRunning;
      }
    }

    /** Starts the session; `started` is whether the session reports running afterwards. */
    method StartSession(started: bool)
      modifies this`sessionRunning, this`isSessionRunning
      ensures Snapshot() == old(Snapshot()).(running := started, isSessionRunning := started)
    {
      sessionRunning := started;
      isSessionRunning := sessionRunning;
    }

    /** Starts the session when the configuration is Success; Failed and PermissionDenied start nothing. */
    method CheckCameraConfigurationAndStartSession(started: bool)
      requires Valid()
      modifies this`sessionRunning, this`isSessionRunning
      ensures Valid() && Snapshot() == CheckAndStart(old(Snapshot()), started)
    {
      match cameraConfiguration
      case Success =>
        StartSession(started);
      case Failed =>
      case PermissionDenied =>
    }

    /**
      Maps the authorization status to a configuration, asking for access
      when it is not yet determined, then configures the session. The answer
      to the access request arrives before the configuration runs.
     */
    method AttemptToConfigureSession(status: AuthorizationStatus, granted: bool, dev: DeviceOutcomes) returns (exit: Exit)
      requires Valid()
      modifies this`cameraConfiguration, this`inputCount, this`outputCount
      ensures Apply(old(Snapshot()), Attempted(status, granted, dev))
           == (if exit.FatalError? then None else Some(Snapshot()))
      ensures exit == Returned ==> Valid()
    {
      ghost var s0 := Snapshot();
      match status {
        case Authorized =>
          cameraConfiguration := Success;
        case NotDetermined =>
          RequestCameraAccess(granted);
        case Denied =>
          cameraConfiguration := PermissionDenied;
        case Restricted =>
      }
      assert Snapshot() == Authorize(s0, status, granted);
      exit := ConfigureSession(dev);
      if exit == Returned {
        ApplyKeepsConsistent(s0, Attempted(status, granted, dev));
      }
    }

    /** Records the answer to the access request: Success if granted, PermissionDenied otherwise. */
    method RequestCameraAccess(granted: bool)
      modifies this`cameraConfiguration
      ensures Snapshot() == old(Snapshot()).(configuration := AccessConfiguration(granted))
    {
      if !granted {
        cameraConfiguration := PermissionDenied;
      } else {
        cameraConfiguration := Success;
      }
    }

    /** Configures the session when the configuration is Success: adds the input, then the output, and records whether both were accepted. */
    method ConfigureSession(dev: DeviceOutcomes) returns (exit: Exit)
      modifies this`cameraConfiguration, this`inputCount, this`outputCount
      ensures exit.FatalError? <==> ConfigureAborts(old(Snapshot()), dev)
      ensures exit.FatalError? ==> Snapshot() == old(Snapshot())
      ensures exit == Returned ==> Snapshot() == Configure(old(Snapshot()), dev)
    {
      if cameraConfiguration != Success {
        return Returned;
      }
      var inputAdded;
      inputAdded, exit := AddVideoDeviceInput(dev);
      if exit.FatalError? {
        return;
      }
      if !inputAdded {
        cameraConfiguration := Failed;
        return Returned;
      }
      var outputAdded := AddVideoDataOutput(dev.canAddOutput);
      if !outputAdded {
        cameraConfiguration := Failed;
        return Returned;
      }
      cameraConfiguration := Success;
    }

    /** Adds the back camera's input to the session; a missing camera or an input that cannot be created is fatal. */
    method AddVideoDeviceInput(dev: DeviceOutcomes) returns (added: bool, exit: Exit)
      modifies this`inputCount
      ensures exit == (if !dev.cameraFound then FatalError("Cannot find camera")
                       else if !dev.inputCreated then FatalError("Cannot create video device input")
                       else Returned)
      ensures added <==> exit == Returned && dev.canAddInput
      ensures inputCount == old(inputCount) + (if added then 1 else 0)
    {
      if !dev.cameraFound {
        return false, FatalError("Cannot find camera");
      }
      if !dev.inputCreated {
        return false, FatalError("Cannot create video device input");
      }
      if dev.canAddInput {
        inputCount := inputCount + 1;
        return true, Returned;
      }
      return false, Returned;
    }

    /** Adds the video data output to the session when the session accepts it. */
    method AddVideoDataOutput(canAddOutput: bool) returns (added: bool)
      modifies this`outputCount
      ensures added == canAddOutput
      ensures outputCount == old(outputCount) + (if added then 1 else 0)
    {
      if canAddOutput {
        outputCount := outputCount + 1;
        return true;
      }
      return false;
    }
  }
}
