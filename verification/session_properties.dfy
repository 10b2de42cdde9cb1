/**
 * Properties of a whole session log: whatever sequence of `start`, `stop`
 * and warm-up calls a client makes, the log of collaborator calls keeps the
 * ordering and the cleanup counts that each single call promises.
 */
module SessionProperties {
  import opened InstrumentsCommand
  import opened InstrumentsSession

  /** Starts whose wait did not return true: each runs the failure cleanup. */
  function FailedStarts(calls: seq<Call>): nat
  {
    multiset(calls)[StartCall(NotReady)] + multiset(calls)[StartCall(Interrupted)]
  }

  /** All starts, whatever their outcome. */
  function Starts(calls: seq<Call>): nat
  {
    multiset(calls)[StartCall(Ready)] + FailedStarts(calls)
  }

  /** Every launch in `log` comes right after the calls `prep`, with the arguments `args`. */
  ghost predicate LaunchesPrepared(log: seq<Event>, prep: seq<Event>, args: seq<string>)
  {
    forall i | 0 <= i < |log| && log[i].StartProcess? ::
      |prep| <= i && log[i - |prep|..i] == prep && log[i] == StartProcess(args)
  }

  /**
   * The process is launched only after construction has registered the crash
   * listener and set the working directory, and each launch comes right after
   * the eight device-preparation calls, with the session's own arguments.
   */
  lemma LaunchFollowsSetupAndPreparation(
    caps: Capabilities, inv: Invocation, calls: seq<Call>, i: int)
    requires 0 <= i < |SessionLog(caps, inv, calls)|
    requires SessionLog(caps, inv, calls)[i].StartProcess?
    ensures var log := SessionLog(caps, inv, calls);
      10 <= i &&
      log[..2] == [RegisterCrashListener, SetWorkingDirectory(inv.output)] &&
      log[i - 8..i] == PrepEvents(caps) &&
      log[i] == StartProcess(InstrumentArgs(inv))
  {
    var setup, rest := SetupEvents(inv.output), Replay(caps, inv, calls);
    var log := setup + rest;
    ReplayLaunchesPrepared(caps, inv, calls);
    var j := i - 2;
    assert log[i] == rest[j];
    assert log[i - 8..i] == rest[j - 8..j];
  }

  /** Induction over the history: every launch the public calls make is prepared. */
  lemma {:induction false} ReplayLaunchesPrepared(caps: Capabilities, inv: Invocation, calls: seq<Call>)
    ensures LaunchesPrepared(Replay(caps, inv, calls), PrepEvents(caps), InstrumentArgs(inv))
  {
    if calls != [] {
      var init, c := calls[..|calls| - 1], calls[|calls| - 1];
      ReplayLaunchesPrepared(caps, inv, init);
      CallLaunchesPrepared(caps, inv, c);
      LaunchesPreparedAppend(Replay(caps, inv, init), CallEvents(caps, inv, c),
                             PrepEvents(caps), InstrumentArgs(inv));
    }
  }

  /** The launch a single public call makes, if any, is prepared. */
  lemma CallLaunchesPrepared(caps: Capabilities, inv: Invocation, c: Call)
    ensures LaunchesPrepared(CallEvents(caps, inv, c), PrepEvents(caps), InstrumentArgs(inv))
  {
    var seg, prep, args := CallEvents(caps, inv, c), PrepEvents(caps), InstrumentArgs(inv);
    forall i | 0 <= i < |seg| && seg[i].StartProcess?
      ensures 8 <= i && seg[i - 8..i] == prep && seg[i] == StartProcess(args)
    {
      match c {
        case StartCall(wait) =>
          assert seg == prep + [StartProcess(args), WaitForScriptStarted] + FailureCleanup(wait);
          assert seg[..8] == prep;
        case StopCall =>
        case WarmUpCall(script) =>
      }
    }
  }

  /** Launches stay prepared when two logs are concatenated. */
  lemma LaunchesPreparedAppend(a: seq<Event>, b: seq<Event>, prep: seq<Event>, args: seq<string>)
    requires LaunchesPrepared(a, prep, args) && LaunchesPrepared(b, prep, args)
    ensures LaunchesPrepared(a + b, prep, args)
  {
    var log := a + b;
    forall i | 0 <= i < |log| && log[i].StartProcess?
      ensures |prep| <= i && log[i - |prep|..i] == prep && log[i] == StartProcess(args)
    {
      if i < |a| {
        assert log[i] == a[i];
        assert log[i - |prep|..i] == a[i - |prep|..i];
      } else {
        var j := i - |a|;
        assert log[i] == b[j];
        assert log[i - |prep|..i] == b[j - |prep|..j];
      }
    }
  }

  /**
   * The process is force-stopped and the device cleaned up once per failed
   * start and once per stop, and never otherwise; the process is launched
   * once per start and the channel stopped once per stop.
   */
  ghost predicate CountsAgree(log: seq<Event>, args: seq<string>, calls: seq<Call>)
  {
    Count(log, ForceStop) == FailedStarts(calls) + multiset(calls)[StopCall] &&
    Count(log, CleanupDevice) == FailedStarts(calls) + multiset(calls)[StopCall] &&
    Count(log, StartProcess(args)) == Starts(calls) &&
    Count(log, StopChannel) == multiset(calls)[StopCall]
  }

  /** Across a whole session, the cleanup and launch calls are counted as `CountsAgree` says. */
  lemma {:induction false} CleanupCounts(caps: Capabilities, inv: Invocation, calls: seq<Call>)
    ensures CountsAgree(SessionLog(caps, inv, calls), InstrumentArgs(inv), calls)
  {
    var log := SessionLog(caps, inv, calls);
    if calls == [] {
      assert log == SetupEvents(inv.output);
      CountMultiplicity(log, ForceStop);
      CountMultiplicity(log, CleanupDevice);
      CountMultiplicity(log, StartProcess(InstrumentArgs(inv)));
      CountMultiplicity(log, StopChannel);
    } else {
      var init, c := calls[..|calls| - 1], calls[|calls| - 1];
      assert calls == init + [c];
      CleanupCounts(caps, inv, init);
      ReplaySnoc(caps, inv, init, c);
      CallCounts(caps, inv, c);
      CallTalliesSplit(init, c);
      CountsStep(SessionLog(caps, inv, init), CallEvents(caps, inv, c), InstrumentArgs(inv), init, c);
    }
  }

  /** One call preserves `CountsAgree` when its own events agree with it. */
  lemma CountsStep(prev: seq<Event>, seg: seq<Event>, args: seq<string>, init: seq<Call>, c: Call)
    requires CountsAgree(prev, args, init) && CountsAgree(seg, args, [c])
    ensures CountsAgree(prev + seg, args, init + [c])
  {
    CountAppend(prev, seg, ForceStop);
    CountAppend(prev, seg, CleanupDevice);
    CountAppend(prev, seg, StartProcess(args));
    CountAppend(prev, seg, StopChannel);
    CallTalliesSplit(init, c);
  }

  /** The tallies of a history extended by one call. */
  lemma CallTalliesSplit(init: seq<Call>, c: Call)
    ensures FailedStarts(init + [c]) == FailedStarts(init) + FailedStarts([c])
    ensures Starts(init + [c]) == Starts(init) + Starts([c])
    ensures multiset(init + [c])[StopCall] == multiset(init)[StopCall] + multiset{c}[StopCall]
  {
    assert multiset(init + [c]) == multiset(init) + multiset{c};
  }

  /** What one public call contributes to the counts of `CleanupCounts`. */
  lemma CallCounts(caps: Capabilities, inv: Invocation, c: Call)
    ensures CountsAgree(CallEvents(caps, inv, c), InstrumentArgs(inv), [c])
  {
    var args := InstrumentArgs(inv);
    SingleCallTallies(c);
    match c {
      case StartCall(wait) =>
        PrepEventsShape(caps);
        StartCounts(PrepEvents(caps), args, wait);
      case StopCall =>
        NoLaunchCounts(StopEvents(), args);
      case WarmUpCall(script) =>
        NoLaunchCounts(CallEvents(caps, inv, c), args);
    }
  }

  /** The tallies of a history of one call. */
  lemma SingleCallTallies(c: Call)
    ensures FailedStarts([c]) == (if c == StartCall(NotReady) || c == StartCall(Interrupted) then 1 else 0)
    ensures Starts([c]) == (if c.StartCall? then 1 else 0)
    ensures multiset([c])[StopCall] == (if c == StopCall then 1 else 0)
  {
    assert multiset([c]) == multiset{c};
    match c {
      case StartCall(wait) =>
        match wait {
          case Ready =>
          case NotReady =>
          case Interrupted =>
        }
      case StopCall =>
      case WarmUpCall(_) =>
    }
  }

  /** The counts of a stop or a warm-up, which launch nothing through the session's command. */
  lemma NoLaunchCounts(seg: seq<Event>, args: seq<string>)
    ensures Count(seg, ForceStop) == multiset(seg)[ForceStop]
    ensures Count(seg, CleanupDevice) == multiset(seg)[CleanupDevice]
    ensures Count(seg, StartProcess(args)) == multiset(seg)[StartProcess(args)]
    ensures Count(seg, StopChannel) == multiset(seg)[StopChannel]
  {
    CountMultiplicity(seg, ForceStop);
    CountMultiplicity(seg, CleanupDevice);
    CountMultiplicity(seg, StartProcess(args));
    CountMultiplicity(seg, StopChannel);
  }

  /** The counts for one start, whatever device-preparation calls precede the launch. */
  lemma StartCounts(prep: seq<Event>, args: seq<string>, wait: WaitOutcome)
    requires forall e <- prep :: e.IsDevicePrep()
    ensures var seg := prep + LaunchEvents(args, wait);
      Count(seg, ForceStop) == (if wait == Ready then 0 else 1) &&
      Count(seg, CleanupDevice) == (if wait == Ready then 0 else 1) &&
      Count(seg, StartProcess(args)) == 1 &&
      Count(seg, StopChannel) == 0
  {
    var tail := LaunchEvents(args, wait);
    CountAfterAbsentPrefix(prep, tail, ForceStop);
    CountAfterAbsentPrefix(prep, tail, CleanupDevice);
    CountAfterAbsentPrefix(prep, tail, StartProcess(args));
    CountAfterAbsentPrefix(prep, tail, StopChannel);
  }

  /** A prefix in which `e` does not occur adds nothing to its count. */
  lemma CountAfterAbsentPrefix(prefix: seq<Event>, rest: seq<Event>, e: Event)
    requires e !in prefix
    ensures Count(prefix + rest, e) == multiset(rest)[e]
  {
    CountAbsent(prefix, e);
    CountAppend(prefix, rest, e);
    CountMultiplicity(rest, e);
  }
}
