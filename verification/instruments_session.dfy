/**
 * The session controller `InstrumentsApple`: construction, `start`, `stop`
 * and the warm-up run. Every call it makes on a collaborator (the device
 * manager, the application, the `instruments` process command, the CURL
 * communication channel) is recorded as an `Event` in an append-only log.
 */
module InstrumentsSession {
  import opened Wrappers
  import opened InstrumentsCommand

  /** The desired capabilities `start` reads: device type and variation, locale, language. */
  datatype Capabilities = Capabilities(
    device: string,
    variation: string,
    locale: string,
    language: string)

  /** One call made on a collaborator. */
  datatype Event =
    // on the process command, at construction
    | RegisterCrashListener
    | SetWorkingDirectory(dir: string)
    // device preparation, at start
    | SetVariation(device: string, variation: string)
    | SetDefaultDevice(device: string)
    | SetSDKVersion
    | ResetContentAndSettings
    | SetL10N(locale: string, language: string)
    | SetKeyboardOptions
    | SetLocationPreference(enabled: bool)
    | SetMobileSafariOptions
    // the process and the channel
    | StartProcess(args: seq<string>)
    | WaitForScriptStarted
    | ForceStop
    | CleanupDevice
    | StopChannel
    | ExecuteAndWait(args: seq<string>)
  {
    /** The calls that configure the simulator before the process is launched. */
    predicate IsDevicePrep()
    {
      SetVariation? || SetDefaultDevice? || SetSDKVersion? || ResetContentAndSettings? ||
      SetL10N? || SetKeyboardOptions? || SetLocationPreference? || SetMobileSafariOptions?
    }
  }

  /** What `waitForUIScriptToBeStarted` does: returns true, returns false, or is interrupted. */
  datatype WaitOutcome = Ready | NotReady | Interrupted

  /** `InstrumentsFailedToStartException` with its message. */
  datatype StartFailure = InstrumentsFailedToStart(message: string)

  const CrashedMessage: string := "Instruments crashed."
  const InterruptedMessage: string := "instruments was interrupted while starting."

  /** A public call made on the controller after construction. */
  datatype Call = StartCall(wait: WaitOutcome) | StopCall | WarmUpCall(script: string)

  /** How many times `e` occurs in `log`. */
  function Count(log: seq<Event>, e: Event): nat
  {
    if log == [] then 0
    else (if log[0] == e then 1 else 0) + Count(log[1..], e)
  }

  /** Counting splits over concatenation. */
  lemma {:induction false} CountAppend(a: seq<Event>, b: seq<Event>, e: Event)
    ensures Count(a + b, e) == Count(a, e) + Count(b, e)
  {
    if a != [] {
      assert (a + b)[0] == a[0];
      assert (a + b)[1..] == a[1..] + b;
      CountAppend(a[1..], b, e);
    } else {
      assert a + b == b;
    }
  }

  /** `Count` agrees with the multiplicity of `e` in the multiset of the log. */
  lemma {:induction false} CountMultiplicity(log: seq<Event>, e: Event)
    ensures Count(log, e) == multiset(log)[e]
  {
    if log != [] {
      CountMultiplicity(log[1..], e);
      assert log == [log[0]] + log[1..];
    }
  }

  /** An event that does not occur is counted zero times, and conversely. */
  lemma CountAbsent(log: seq<Event>, e: Event)
    ensures Count(log, e) == 0 <==> e !in log
  {
    CountMultiplicity(log, e);
  }

  /** The calls made by the constructor once the process command exists. */
  function SetupEvents(output: string): seq<Event>
  {
    [RegisterCrashListener, SetWorkingDirectory(output)]
  }

  /** The device preparation `start` performs, in its fixed order. */
  function PrepEvents(caps: Capabilities): seq<Event>
  {
    [SetVariation(caps.device, caps.variation),
     SetDefaultDevice(caps.device),
     SetSDKVersion,
     ResetContentAndSettings,
     SetL10N(caps.locale, caps.language),
     SetKeyboardOptions,
     SetLocationPreference(true),
     SetMobileSafariOptions]
  }

  /** The cleanup the `finally` block of `start` runs when the script did not report as started. */
  function FailureCleanup(wait: WaitOutcome): seq<Event>
  {
    if wait == Ready then [] else [ForceStop, CleanupDevice]
  }

  /** The calls `start` makes once the device is prepared. */
  function LaunchEvents(args: seq<string>, wait: WaitOutcome): seq<Event>
  {
    [StartProcess(args), WaitForScriptStarted] + FailureCleanup(wait)
  }

  /** The calls one `start` makes. */
  function StartEvents(caps: Capabilities, args: seq<string>, wait: WaitOutcome): seq<Event>
  {
    PrepEvents(caps) + LaunchEvents(args, wait)
  }

  /**
   * The device preparation is eight device-preparation calls in a fixed order:
   * variation, default device, SDK version, content reset, locale and language,
   * keyboard, location services switched on, then Mobile Safari options.
   */
  lemma PrepEventsShape(caps: Capabilities)
    ensures var r := PrepEvents(caps);
      |r| == 8 &&
      (forall e <- r :: e.IsDevicePrep()) &&
      r[0] == SetVariation(caps.device, caps.variation) &&
      r[1] == SetDefaultDevice(caps.device) &&
      r[2].SetSDKVersion? && r[3].ResetContentAndSettings? &&
      r[4] == SetL10N(caps.locale, caps.language) &&
      r[5].SetKeyboardOptions? &&
      r[6] == SetLocationPreference(true) &&
      r[7].SetMobileSafariOptions?
  {
  }

  /**
   * One start: eight preparation calls, then the process start with the given
   * arguments, then the wait, then two cleanup calls unless the wait returned
   * true; nothing else.
   */
  lemma StartEventsShape(caps: Capabilities, args: seq<string>, wait: WaitOutcome)
    ensures var r := StartEvents(caps, args, wait);
      |r| == (if wait == Ready then 10 else 12) &&
      (forall k :: 0 <= k < 8 ==> r[k].IsDevicePrep()) &&
      r[8] == StartProcess(args) && r[9] == WaitForScriptStarted &&
      (wait != Ready ==> r[10] == ForceStop && r[11] == CleanupDevice)
  {
    PrepEventsShape(caps);
  }

  /** The calls one `stop` makes. */
  function StopEvents(): seq<Event>
  {
    [CleanupDevice, ForceStop, StopChannel]
  }

  /** The calls one public call makes, for a session built from `caps` and `inv`. */
  function CallEvents(caps: Capabilities, inv: Invocation, c: Call): seq<Event>
  {
    match c
    case StartCall(wait) => StartEvents(caps, InstrumentArgs(inv), wait)
    case StopCall => StopEvents()
    case WarmUpCall(script) => [ExecuteAndWait(InstrumentArgs(inv.(script := script)))]
  }

  /** The calls a history of public calls makes, in order. */
  function Replay(caps: Capabilities, inv: Invocation, calls: seq<Call>): seq<Event>
  {
    if calls == [] then []
    else Replay(caps, inv, calls[..|calls| - 1]) + CallEvents(caps, inv, calls[|calls| - 1])
  }

  /** The whole log of a session after the public calls `calls`. */
  function SessionLog(caps: Capabilities, inv: Invocation, calls: seq<Call>): seq<Event>
  {
    SetupEvents(inv.output) + Replay(caps, inv, calls)
  }

  /** One more public call appends its own calls to the log. */
  lemma ReplaySnoc(caps: Capabilities, inv: Invocation, calls: seq<Call>, c: Call)
    ensures SessionLog(caps, inv, calls + [c]) == SessionLog(caps, inv, calls) + CallEvents(caps, inv, c)
  {
    assert (calls + [c])[..|calls|] == calls;
  }

  class InstrumentsApple {
    const caps: Capabilities
    /** The inputs of the session's argument list; `inv.output` is the working directory. */
    const inv: Invocation
    /** The arguments of the `instruments` process command. */
    const command: seq<string>
    /** Every call made on a collaborator so far. */
    var log: seq<Event>
    /** The public calls made so far, oldest first. */
    ghost var calls: seq<Call>

    ghost predicate Valid()
      reads this
    {
      command == InstrumentArgs(inv) &&
      log == SessionLog(caps, inv, calls)
    }

    /** The session's output folder (`getOutput`). */
    function Output(): (dir: string)
      reads this
      requires Valid()
      ensures command[|command| - |inv.envtParams| - 1] == dir
    {
      inv.output
    }

    /**
     * Builds the process command, then registers the crash listener on it and
     * sets its working directory to the output folder, before anything can
     * start it.
     */
    constructor (caps: Capabilities, inv: Invocation)
      ensures Valid()
      ensures this.caps == caps && this.inv == inv && calls == []
      ensures log == [RegisterCrashListener, SetWorkingDirectory(inv.output)]
    {
      var args := CreateInstrumentCommand(inv);
      this.caps := caps;
      this.inv := inv;
      command := args;
      calls := [];
      new;
      log := [];
      log := log + [RegisterCrashListener];
      log := log + [SetWorkingDirectory(inv.output)];
    }

    /**
     * Prepares the device, starts the process and waits for the script to
     * register. Unless the wait returns true, the `finally` block force-stops
     * the process, cleans up the device and throws "Instruments crashed.",
     * which replaces the exception thrown by the interrupt handler.
     */
    method Start(wait: WaitOutcome) returns (res: Outcome<StartFailure>)
      requires Valid()
      modifies this
      ensures Valid()
      ensures calls == old(calls) + [StartCall(wait)]
      ensures log == old(log) + PrepEvents(caps) + [StartProcess(command), WaitForScriptStarted]
                     + (if wait == Ready then [] else [ForceStop, CleanupDevice])
      ensures res.Pass? <==> wait == Ready
      ensures res.Fail? ==> res.error == InstrumentsFailedToStart(CrashedMessage)
      ensures wait == Interrupted ==> res.Fail? && res.error.message != InterruptedMessage
    {
      ghost var before := log;
      PrepareDevice();
      ghost var prepared := log;
      log := log + [StartProcess(command)];

      var success := false;
      // the exception, if any, propagating out of the try block and its catch clause
      var thrown: Option<StartFailure> := None;
      log := log + [WaitForScriptStarted];
      assert log == prepared + [StartProcess(command), WaitForScriptStarted];
      match wait {
        case Ready => success := true;
        case NotReady => success := false;
        case Interrupted => thrown := Some(InstrumentsFailedToStart(InterruptedMessage));
      }
      // finally: an exception thrown here replaces the one in flight
      if !success {
        log := log + [ForceStop];
        log := log + [CleanupDevice];
        thrown := Some(InstrumentsFailedToStart(CrashedMessage));
      }
      res := if thrown.Some? then Fail(thrown.value) else Pass;
      assert log == prepared + LaunchEvents(command, wait);
      assert log == before + StartEvents(caps, command, wait);
      ReplaySnoc(caps, inv, calls, StartCall(wait));
      calls := calls + [StartCall(wait)];
    }

    /** The device-manager and application calls at the head of `start`, in their fixed order. */
    method PrepareDevice()
      modifies this`log
      ensures log == old(log) + PrepEvents(caps)
    {
      log := log + [SetVariation(caps.device, caps.variation)];
      log := log + [SetDefaultDevice(caps.device)];
      log := log + [SetSDKVersion];
      log := log + [ResetContentAndSettings];
      log := log + [SetL10N(caps.locale, caps.language)];
      log := log + [SetKeyboardOptions];
      log := log + [SetLocationPreference(true)];
      log := log + [SetMobileSafariOptions];
    }

    /** Cleans up the device, force-stops the process and stops the channel, every time it is called. */
    method Stop()
      requires Valid()
      modifies this
      ensures Valid()
      ensures calls == old(calls) + [StopCall]
      ensures log == old(log) + [CleanupDevice, ForceStop, StopChannel]
    {
      log := log + [CleanupDevice];
      log := log + [ForceStop];
      log := log + [StopChannel];
      ReplaySnoc(caps, inv, calls, StopCall);
      calls := calls + [StopCall];
    }

    /**
     * Runs a throw-away script to completion with a command built like the
     * session's own; `script` stands for the temporary file the script helper
     * writes.
     */
    method StartWithDummyScript(script: string)
      requires Valid()
      modifies this
      ensures Valid()
      ensures calls == old(calls) + [WarmUpCall(script)]
      ensures log == old(log) + [ExecuteAndWait(InstrumentArgs(inv.(script := script)))]
    {
      var c := CreateInstrumentCommand(inv.(script := script));
      log := log + [ExecuteAndWait(c)];
      ReplaySnoc(caps, inv, calls, WarmUpCall(script));
      calls := calls + [WarmUpCall(script)];
    }
  }
}
