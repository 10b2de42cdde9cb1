/**
 * The argument list handed to Apple's `instruments` command-line client when a
 * session's automation script is launched (`InstrumentsApple.createInstrumentCommand`).
 */
module InstrumentsCommand {
  import opened Wrappers

  /**
   * Everything the argument list is built from. In the source these are the
   * resolved client executable, the optional device uuid, the automation
   * template, the application bundle, the generated UIAutomation script, the
   * session's output folder and the extra environment parameters.
   */
  datatype Invocation = Invocation(
    client: string,
    uuid: Option<string>,
    template: string,
    app: string,
    script: string,
    output: string,
    envtParams: seq<string>)

  /** Number of arguments taken by the `-w <uuid>` device selector. */
  function SelectorLength(uuid: Option<string>): nat
  {
    if uuid.Some? then 2 else 0
  }

  /** Position of the script path in the argument list. */
  function ScriptIndex(inv: Invocation): nat
  {
    1 + SelectorLength(inv.uuid) + 5
  }

  /**
   * The argument list: the client, the optional `-w uuid` selector, the
   * template and application, the script and results paths as `-e` bindings,
   * then the extra parameters unchanged.
   */
  function InstrumentArgs(inv: Invocation): seq<string>
  {
    [inv.client]
    + (match inv.uuid
       case Some(id) => ["-w", id]
       case None => [])
    + ["-t", inv.template, inv.app,
       "-e", "UIASCRIPT", inv.script,
       "-e", "UIARESULTSPATH", inv.output]
    + inv.envtParams
  }

  /**
   * The shape of the argument list: its exact length, the client first, the
   * `-w` flag in second place exactly when a uuid is given, the script at its
   * fixed position and the extra parameters as the unchanged suffix.
   */
  lemma InstrumentArgsLayout(inv: Invocation)
    ensures var r := InstrumentArgs(inv);
      |r| == 10 + SelectorLength(inv.uuid) + |inv.envtParams| &&
      r[0] == inv.client &&
      (r[1] == "-w" <==> inv.uuid.Some?) &&
      (inv.uuid.Some? ==> r[2] == inv.uuid.value) &&
      r[ScriptIndex(inv)] == inv.script &&
      r[|r| - |inv.envtParams|..] == inv.envtParams
  {
  }

  /** Builds the argument list one `add` at a time, as the source fills its `ArrayList`. */
  method CreateInstrumentCommand(inv: Invocation) returns (args: seq<string>)
    ensures args == InstrumentArgs(inv)
  {
    ghost var selector := match inv.uuid case Some(id) => ["-w", id] case None => [];
    args := [];
    args := args + [inv.client];
    if inv.uuid.Some? {
      args := args + ["-w"];
      args := args + [inv.uuid.value];
    }
    assert args == [inv.client] + selector;
    ghost var head := args;
    args := args + ["-t"];
    args := args + [inv.template];
    args := args + [inv.app];
    args := args + ["-e"];
    args := args + ["UIASCRIPT"];
    args := args + [inv.script];
    args := args + ["-e"];
    args := args + ["UIARESULTSPATH"];
    args := args + [inv.output];
    assert args == head + ["-t", inv.template, inv.app,
                           "-e", "UIASCRIPT", inv.script,
                           "-e", "UIARESULTSPATH", inv.output];
    args := args + inv.envtParams;
  }

  /**
   * Reads an argument list back into the invocation it was built from, or
   * `None` when the list does not have the layout `InstrumentArgs` produces.
   */
  function ParseArgs(a: seq<string>): (r: Option<Invocation>)
  {
    if |a| == 0 then None
    else
      var uuid := if |a| >= 3 && a[1] == "-w" then Some(a[2]) else None;
      var rest := a[1 + SelectorLength(uuid)..];
      if |rest| >= 9 && rest[0] == "-t" && rest[3] == "-e" && rest[4] == "UIASCRIPT"
         && rest[6] == "-e" && rest[7] == "UIARESULTSPATH"
      then Some(Invocation(a[0], uuid, rest[1], rest[2], rest[5], rest[8], rest[9..]))
      else None
  }

  /**
   * The layout is unambiguous: a list parses to `inv` exactly when it is the
   * list built from `inv`. Hence no two invocations share an argument list,
   * and the optional selector can always be told apart from the template flag.
   */
  lemma ParseArgsInverse(a: seq<string>, inv: Invocation)
    ensures ParseArgs(a) == Some(inv) <==> a == InstrumentArgs(inv)
  {
    if ParseArgs(a) == Some(inv) {
      ParsedArgsRebuild(a);
    }
    if a == InstrumentArgs(inv) {
      BuiltArgsParse(inv);
    }
  }

  /** A list that parses is the list built from what it parses to. */
  lemma ParsedArgsRebuild(a: seq<string>)
    requires ParseArgs(a).Some?
    ensures InstrumentArgs(ParseArgs(a).value) == a
  {
    var inv := ParseArgs(a).value;
    var k := 1 + SelectorLength(inv.uuid);
    var rest := a[k..];
    assert a == a[..k] + rest;
    assert rest == rest[..9] + rest[9..];
    if inv.uuid.Some? {
      assert a[..k] == [a[0], "-w", inv.uuid.value];
    } else {
      assert a[..k] == [a[0]];
    }
  }

  /** The built list parses back to the invocation it was built from. */
  lemma BuiltArgsParse(inv: Invocation)
    ensures ParseArgs(InstrumentArgs(inv)) == Some(inv)
  {
    var b := InstrumentArgs(inv);
    var k := 1 + SelectorLength(inv.uuid);
    assert b[k..] == ["-t", inv.template, inv.app,
                      "-e", "UIASCRIPT", inv.script,
                      "-e", "UIARESULTSPATH", inv.output] + inv.envtParams;
    assert b[1] == "-w" <==> inv.uuid.Some?;
  }

  /**
   * The warm-up command (`startWithDummyScript`) is built by the same routine
   * with only the script replaced, so its argument list differs from the
   * session's in the script position alone.
   */
  lemma WarmUpArgsDifferOnlyInScript(inv: Invocation, dummy: string)
    ensures var a, b := InstrumentArgs(inv), InstrumentArgs(inv.(script := dummy));
      |a| == |b| &&
      b[ScriptIndex(inv)] == dummy &&
      forall k :: 0 <= k < |a| && k != ScriptIndex(inv) ==> a[k] == b[k]
  {
    InstrumentArgsLayout(inv);
    InstrumentArgsLayout(inv.(script := dummy));
  }
}
