# InstrumentsApple session controller, modelled in Dafny

This project models the core of ios-driver's `InstrumentsApple`, the class that drives Apple's
`instruments` tool for one automation session. It covers two parts.

- **The argument list** passed to the `instruments` client (`createInstrumentCommand`). It is a
  pure function of the client path, the optional device uuid, the template, the application
  bundle, the script, the output folder and the extra environment parameters
  (`instruments_command.dfy`). Its partner is a parser that reads the list back. A lemma proves
  that parsing succeeds with an invocation exactly when the list was built from it.
- **Session sequencing** (the constructor, `start`, `stop`, `startWithDummyScript`;
  `instruments_session.dfy`). The class `InstrumentsApple` appends every call it makes on a
  collaborator to a log of `Event`s. The collaborators are the simulator manager, the application,
  the process command and the CURL channel. The outcome of the channel wait is an input:
  `Ready` (returns true), `NotReady` (returns false) or `Interrupted`. A ghost call history
  ties the log to a function of the calls made (`SessionLog`). `session_properties.dfy` proves
  facts that hold for every history: every launch comes after the setup and right after the device
  preparation, and the cleanup calls are counted exactly.

The model follows the code, including where a session controller might be expected to behave otherwise:

- `stop` is not idempotent. Every call cleans up the device, force-stops the process and stops
  the channel again (`CleanupCounts` counts one of each per stop).
- The `finally` block of `start` throws "Instruments crashed." whenever the wait did not return
  true. On the interrupted path this replaces the "instruments was interrupted while starting."
  exception thrown by the `catch` clause. So there is one failure kind, not distinct timeout,
  crash and interrupt errors.
- The registered crash listener is never consulted by `start`.
- The `deviceManager != null` guard in the `finally` block always holds: the constructor assigns a
  new manager. The model calls `cleanupDevice` unconditionally.

## Model

| member | source | states |
|---|---|---|
| InstrumentsCommand.InstrumentArgsLayout | server/src/main/java/org/uiautomation/ios/server/simulator/InstrumentsApple.java:139-158 | The list has 10 entries, plus 2 with a uuid, plus one per extra parameter. It starts with the client path. Entry 1 is "-w" exactly when a uuid is given, and the uuid follows it. The script sits at its fixed position. The extra parameters are the unchanged suffix. |
| InstrumentsCommand.CreateInstrumentCommand | server/src/main/java/org/uiautomation/ios/server/simulator/InstrumentsApple.java:139-158 | Building the list one `add` at a time, with the optional selector and the final `addAll`, yields exactly `InstrumentArgs`. |
| InstrumentsCommand.ParseArgsInverse | server/src/main/java/org/uiautomation/ios/server/simulator/InstrumentsApple.java:142-156 | The layout is unambiguous: a list parses to an invocation exactly when it is the list built from that invocation. So the optional "-w uuid" selector is never confused with "-t", and the fixed entries follow it in order. |
| InstrumentsCommand.BuiltArgsParse | server/src/main/java/org/uiautomation/ios/server/simulator/InstrumentsApple.java:139-158 | Parsing the built argument list gives back the invocation it was built from, with or without a uuid. |
| InstrumentsCommand.ParsedArgsRebuild | server/src/main/java/org/uiautomation/ios/server/simulator/InstrumentsApple.java:139-158 | Every list that parses is exactly the list the builder produces from the parsed invocation. |
| InstrumentsCommand.WarmUpArgsDifferOnlyInScript | server/src/main/java/org/uiautomation/ios/server/simulator/InstrumentsApple.java:133-137 | The warm-up command has the same length as the session's command. It differs from it only at the script position, which holds the dummy script. |
| InstrumentsSession.PrepEventsShape | server/src/main/java/org/uiautomation/ios/server/simulator/InstrumentsApple.java:95-102 | The device preparation is eight device-preparation calls, in this order: setVariation(device, variation), setDefaultDevice(device), setSDKVersion, resetContentAndSettings, setL10N(locale, language), setKeyboardOptions, setLocationPreference(true), setMobileSafariOptions. |
| InstrumentsSession.StartEventsShape | server/src/main/java/org/uiautomation/ios/server/simulator/InstrumentsApple.java:95-122 | One start makes 10 calls, or 12 when the wait did not return true. The first eight are device preparation. Then come the process start with the given arguments and the wait. When the wait did not return true, forceStop and then cleanupDevice follow. |
| InstrumentsSession.InstrumentsApple.constructor | server/src/main/java/org/uiautomation/ios/server/simulator/InstrumentsApple.java:63-87 | The command is built from the session's inputs. Then the crash listener is registered and the working directory is set to the output folder, in that order, before anything else is logged. |
| InstrumentsSession.InstrumentsApple.PrepareDevice | server/src/main/java/org/uiautomation/ios/server/simulator/InstrumentsApple.java:95-102 | Appends setVariation, setDefaultDevice, setSDKVersion, resetContentAndSettings, setL10N, setKeyboardOptions, setLocationPreference(true) and setMobileSafariOptions, in that order. |
| InstrumentsSession.InstrumentsApple.Start | server/src/main/java/org/uiautomation/ios/server/simulator/InstrumentsApple.java:89-124 | Appends the preparation, the process start and the wait. If the wait did not return true, it also appends forceStop then cleanupDevice. It succeeds exactly when the wait returns true. Otherwise it fails with "Instruments crashed.", which on interrupt replaces the interrupt message. |
| InstrumentsSession.InstrumentsApple.Stop | server/src/main/java/org/uiautomation/ios/server/simulator/InstrumentsApple.java:126-131 | Appends exactly cleanupDevice, forceStop and channel stop, in that order, on every call. |
| InstrumentsSession.InstrumentsApple.StartWithDummyScript | server/src/main/java/org/uiautomation/ios/server/simulator/InstrumentsApple.java:133-137 | Runs to completion one command built like the session's, with the dummy script in place of the session's. |
| InstrumentsSession.InstrumentsApple.Output | server/src/main/java/org/uiautomation/ios/server/simulator/InstrumentsApple.java:196-198 | The output folder is the value of the UIARESULTSPATH binding in the process command. |
| SessionProperties.LaunchFollowsSetupAndPreparation | server/src/main/java/org/uiautomation/ios/server/simulator/InstrumentsApple.java:78-104 | In every session log, each process start is at index 10 or later. The log begins with listener registration then the working directory. The eight calls just before each start are the device preparation. Each start uses the session's arguments. |
| SessionProperties.CleanupCounts | server/src/main/java/org/uiautomation/ios/server/simulator/InstrumentsApple.java:110-131 | Over any sequence of calls, forceStop and cleanupDevice each occur once per failed start plus once per stop. The process is started once per start, and the channel is stopped once per stop. |

## Left out

- Process execution, the wait and the channel are not modelled. `Command.start`, `forceStop`, `executeAndWait` and `waitForUIScriptToBeStarted` appear only as log events. The wait's outcome is an input, and timeouts and races are not modelled.
- Exceptions thrown by the collaborators themselves are not modelled. This covers a failing device-preparation step or process start: their code is not part of this model.
- `createTmpOutputFolder`: the output folder is an opaque input path. Creating the temporary directory is filesystem work.
- `getInstrumentsClient` is not modelled: the client path is an input. `InstrumentsNoDelayLoader` is not part of this model. The path is taken as fixed for the session, although the source looks it up on each call.
- Script generation (`ScriptHelper`), the automation template lookup, and the construction of the channel, the screenshot service and the simulator manager are not modelled. Their code is not part of this model, and the script and template paths are inputs.
- `executeCommand`, `getChannel` and `getScreenshotService` are not modelled. They are plain delegations to collaborators not part of this model.
- Capabilities are taken as fixed for the session. The source reads device, variation, locale and language from the mutable capabilities object on each `start`, and that object is shared with the simulator manager. The model fixes these values at construction, so `PrepEvents` in every start uses the construction-time values.
- The `log.fine("waiting for registration request")` call in `start` is not modelled: it is logging only, with no effect on the collaborators.
- The second constructor argument `true` of `new Command(args, true)` is not modelled. It is a flag of the `Command` class, which is not part of this model. The model keeps only the argument list.
- A null `envtParams` list, on which `addAll` would throw, is not modelled: the parameters are a sequence.
