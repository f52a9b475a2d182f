/** One invocation of the dispatcher (main.py:20-73): route the action to an
    internal handler or to its plugin, and record every collaborator call. */
module Dispatch {
  import opened Common
  import opened Strings
  import opened Args
  import opened Persistence
  import opened Router
  import opened Projects
  import opened Plugins
  import opened Completion

  /** How the plugin process went: it ran and printed these lines, or it
      could not be started. */
  datatype ProcessResult = Started(lines: seq<string>) | CannotStart(reason: string)

  /** Everything the dispatcher reads from its surroundings. */
  datatype Env = Env(
    schemas: map<string, seq<FlagSpec>>,  // the argument schema file, keyed by action
    pluginsRoot: string,                  // PLUGINS.PATH of the configuration
    envsRoot: string,                     // CONDA.ENVS_PATH of the configuration
    today: string,                        // today's date as YYYYMMDD
    now: int,                             // the current time in whole epoch seconds
    todayCount: nat,                      // what check_today_projects() returns
    process: ProcessResult,               // the plugin process, if one is started
    decode: string -> Decoded)            // json.loads(line)['success']

  /** Whether the invocation ran to its end or an exception escaped `main`. */
  datatype Status = Completed | Aborted(error: Error)

  /** The calls made, the one error message the plugin boundary prints, and the status. */
  datatype Outcome = Outcome(calls: seq<Call>, report: Option<string>, status: Status)

  const CreateProjectAction := "createProject"
  const DeleteProjectAction := "deleteProject"

  /** Usage checks of lines 25-34, made before any call: the required flags,
      then the shape of every leftover token. */
  function ParseArguments(action: string, tokens: seq<string>, schemas: map<string, seq<FlagSpec>>): Result<ArgMap>
  {
    var missing := MissingRequired([ActionFlag] + SchemaFor(schemas, action), Supplied(tokens));
    if missing != [] then Err(RequiredMissing(missing)) else Normalise(tokens)
  }

  /** Lines 49-73: the plugin branch. A missing `--plugin` raises outside the
      `try`; an empty one dispatches nothing; inside the `try` every failure
      becomes one printed message. */
  function DispatchToPlugin(action: string, args: ArgMap, env: Env): Outcome
  {
    match Lookup(args, PluginKey)
    case None => Outcome([], None, Aborted(MissingKey(PluginKey)))
    case Some(plugin) =>
      if plugin == "" then Outcome([], None, Completed)
      else
        var launch := RunPlugin(PluginCommand(env.envsRoot, env.pluginsRoot, plugin, action, args));
        match env.process
        case CannotStart(reason) =>
          Outcome([launch], Some(ErrorMessage(plugin, LaunchFailed(reason))), Completed)
        case Started(lines) =>
          var c := Interpret(action, args, plugin, lines, env.decode);
          Outcome([launch] + c.calls,
                  if c.failure.Some? then Some(ErrorMessage(plugin, c.failure.value)) else None,
                  Completed)
  }

  /** `main()` as a function of its inputs. */
  function Run(action: string, tokens: seq<string>, env: Env): Outcome
  {
    match ParseArguments(action, tokens, env.schemas)
    case Err(e) => Outcome([], None, Aborted(e))
    case Ok(args) => Route(action, args, env)
  }

  /** Lines 37-73: the branch on the action, once the arguments are parsed. */
  function Route(action: string, args: ArgMap, env: Env): Outcome
  {
    if action == CreateProjectAction then
      Outcome(CreateProjectTrace(env.today, env.now, env.todayCount), None, Completed)
    else if action == DeleteProjectAction then
      match DeleteProjectTrace(args)
      case Err(e) => Outcome([], None, Aborted(e))
      case Ok(calls) => Outcome(calls, None, Completed)
    else DispatchToPlugin(action, args, env)
  }

  /** `main()` step by step: the parser object is built and extended, the
      output lines are read by the loop of line 61. */
  method Execute(action: string, tokens: seq<string>, env: Env) returns (o: Outcome)
    ensures o == Run(action, tokens, env)
  {
    var parser := new ArgumentParser();
    RegisterSchema(parser, SchemaFor(env.schemas, action));
    var missing := MissingRequired(parser.arguments, Supplied(tokens));
    if missing != [] {
      return Outcome([], None, Aborted(RequiredMissing(missing)));
    }
    var parsed := Normalise(tokens);
    if parsed.Err? {
      return Outcome([], None, Aborted(parsed.error));
    }
    var args := parsed.value;
    if action == CreateProjectAction {
      var calls := [CheckTodayProjects];
      var project := NewProject(env.today, env.now, env.todayCount);
      calls := calls + [CreateNewProject(project)];
      return Outcome(calls, None, Completed);
    }
    if action == DeleteProjectAction {
      var projectId := Lookup(args, ProjectIdKey);
      if projectId.None? {
        return Outcome([], None, Aborted(MissingKey(ProjectIdKey)));
      }
      return Outcome([Call.DeleteProject(projectId.value)], None, Completed);
    }
    var plugin := Lookup(args, PluginKey);
    if plugin.None? {
      return Outcome([], None, Aborted(MissingKey(PluginKey)));
    }
    if plugin.value == "" {
      return Outcome([], None, Completed);
    }
    var command := PluginCommand(env.envsRoot, env.pluginsRoot, plugin.value, action, args);
    var calls := [RunPlugin(command)];
    match env.process
    case CannotStart(reason) =>
      o := Outcome(calls, Some(ErrorMessage(plugin.value, LaunchFailed(reason))), Completed);
    case Started(lines) =>
      var c := InterpretOutput(action, args, plugin.value, lines, env.decode);
      var report := None;
      if c.failure.Some? {
        report := Some(ErrorMessage(plugin.value, c.failure.value));
      }
      o := Outcome(calls + c.calls, report, Completed);
  }
}

/** What one invocation does, stated against `Dispatch.Run`. */
module DispatchProperties {
  import opened Common
  import opened Strings
  import opened Args
  import opened Persistence
  import opened Router
  import opened Projects
  import opened Plugins
  import opened Completion
  import opened Dispatch

  /** An escaped exception always comes before any collaborator call:
      an aborted invocation made no call and printed no error message. */
  lemma AbortedMakesNoCalls(action: string, tokens: seq<string>, env: Env)
    ensures Run(action, tokens, env).status.Aborted? ==>
      Run(action, tokens, env).calls == [] && Run(action, tokens, env).report.None?
  {
    var parsed := ParseArguments(action, tokens, env.schemas);
    if parsed.Ok? && action != CreateProjectAction && action != DeleteProjectAction {
      var o := DispatchToPlugin(action, parsed.value, env);
      assert Run(action, tokens, env) == o;
      var plugin := Lookup(parsed.value, PluginKey);
      if plugin.Some? && plugin.value != "" {
        assert o.status == Completed;
      }
    }
  }

  /** For every action, leaving out a flag its schema marks required stops
      the invocation with a usage error naming that flag, before any call. */
  lemma RequiredFlagMissing(action: string, tokens: seq<string>, env: Env, i: nat)
    requires i < |SchemaFor(env.schemas, action)|
    requires SchemaFor(env.schemas, action)[i].required
    requires SchemaFor(env.schemas, action)[i].name !in Supplied(tokens)
    ensures Run(action, tokens, env).calls == []
    ensures Run(action, tokens, env).status.Aborted?
    ensures Run(action, tokens, env).status.error.RequiredMissing?
    ensures SchemaFor(env.schemas, action)[i].name in Run(action, tokens, env).status.error.names
  {
    var schema := SchemaFor(env.schemas, action);
    MissingReported(schema, Supplied(tokens), i);
    var missing := MissingRequired([ActionFlag] + schema, Supplied(tokens));
    assert missing != [];
    assert ParseArguments(action, tokens, env.schemas) == Err(RequiredMissing(missing));
  }

  /** With the required flags present, a leftover token without `=` stops
      the invocation, naming the first such token, before any call. */
  lemma MalformedTokenAborts(action: string, tokens: seq<string>, env: Env, i: nat)
    requires MissingRequired([ActionFlag] + SchemaFor(env.schemas, action), Supplied(tokens)) == []
    requires i < |tokens| && '=' !in tokens[i]
    ensures Run(action, tokens, env).calls == []
    ensures Run(action, tokens, env).status.Aborted?
    ensures exists j :: 0 <= j <= i && Run(action, tokens, env).status.error == MalformedToken(tokens[j]) && '=' !in tokens[j]
  {
    NormaliseFails(tokens);
    var j :| FirstMalformed(tokens, j) && Normalise(tokens).error == MalformedToken(tokens[j]);
    assert j <= i;
  }

  /** `createProject` reads the day's count once and stores one record,
      `(today + str(count + 1), now, None, None, None)`; nothing else. */
  lemma CreateProjectRun(tokens: seq<string>, env: Env)
    requires ParseArguments(CreateProjectAction, tokens, env.schemas).Ok?
    ensures Run(CreateProjectAction, tokens, env) ==
      Outcome([CheckTodayProjects,
               CreateNewProject(ProjectRecord(env.today + NatToString(env.todayCount + 1), env.now, None, None, None))],
              None, Completed)
  {
    var args := ParseArguments(CreateProjectAction, tokens, env.schemas).value;
    assert Run(CreateProjectAction, tokens, env) == Route(CreateProjectAction, args, env);
    CreateProjectRoute(args, env);
  }

  lemma CreateProjectRoute(args: ArgMap, env: Env)
    ensures Route(CreateProjectAction, args, env) ==
      Outcome([CheckTodayProjects,
               CreateNewProject(ProjectRecord(env.today + NatToString(env.todayCount + 1), env.now, None, None, None))],
              None, Completed)
  {
    CreateProjectCalls(env.today, env.now, env.todayCount);
  }

  /** `deleteProject` deletes exactly the project `--projectId` names; when
      that key is absent it fails before any call. */
  lemma DeleteProjectRun(tokens: seq<string>, env: Env)
    requires ParseArguments(DeleteProjectAction, tokens, env.schemas).Ok?
    ensures var args := ParseArguments(DeleteProjectAction, tokens, env.schemas).value;
      Run(DeleteProjectAction, tokens, env) ==
        match Lookup(args, ProjectIdKey)
        case None => Outcome([], None, Aborted(MissingKey(ProjectIdKey)))
        case Some(id) => Outcome([Call.DeleteProject(id)], None, Completed)
  {
  }

  /** Without a `--plugin` key an external action raises outside the `try`:
      nothing is caught and nothing is called. With an empty plugin name it
      does nothing. */
  lemma PluginKeyChecks(action: string, tokens: seq<string>, env: Env)
    requires action != CreateProjectAction && action != DeleteProjectAction
    requires ParseArguments(action, tokens, env.schemas).Ok?
    ensures var args := ParseArguments(action, tokens, env.schemas).value;
      && (Lookup(args, PluginKey).None? ==>
            Run(action, tokens, env) == Outcome([], None, Aborted(MissingKey(PluginKey))))
      && (Lookup(args, PluginKey) == Some("") ==>
            Run(action, tokens, env) == Outcome([], None, Completed))
  {
  }

  /** The plugin branch of `main()`, see `PluginDispatched`. */
  lemma {:induction false} PluginRun(action: string, tokens: seq<string>, env: Env)
    requires action != CreateProjectAction && action != DeleteProjectAction
    requires ParseArguments(action, tokens, env.schemas).Ok?
    requires var args := ParseArguments(action, tokens, env.schemas).value;
      Lookup(args, PluginKey).Some? && Lookup(args, PluginKey).value != ""
    ensures PluginDispatched(action, ParseArguments(action, tokens, env.schemas).value, env, Run(action, tokens, env))
  {
    var args := ParseArguments(action, tokens, env.schemas).value;
    assert Run(action, tokens, env) == DispatchToPlugin(action, args, env);
    DispatchToPluginSpec(action, args, env);
  }

  lemma DispatchToPluginSpec(action: string, args: ArgMap, env: Env)
    requires Lookup(args, PluginKey).Some? && Lookup(args, PluginKey).value != ""
    ensures PluginDispatched(action, args, env, DispatchToPlugin(action, args, env))
  {
    var plugin := Lookup(args, PluginKey).value;
    var o := DispatchToPlugin(action, args, env);
    InterpreterPathShape(env.envsRoot, plugin);
    EntryPathShape(env.pluginsRoot, plugin);
    var cmd := PluginCommand(env.envsRoot, env.pluginsRoot, plugin, action, args);
    assert o.calls[0] == RunPlugin(cmd);
    assert cmd[2..] == ["--action=" + action] + Serialise(args);
    if env.process.Started? {
      InterpretSpec(action, args, plugin, env.process.lines, env.decode);
      var c := Interpret(action, args, plugin, env.process.lines, env.decode);
      assert o.calls[1..] == c.calls;
    }
  }

  /** What an external action with a plugin name does: it starts one
      process, with the interpreter and entry point named after the plugin
      and the map forwarded after `--action=<action>`. It then makes one
      update per reporting line read before the first failing line, on
      `--projectId`, in the action's field, with the quoted plugin name; it
      prints one message naming the plugin exactly when a line (or the start)
      failed, and completes. Without `--projectId` no update is made: the
      first reporting line raises the `KeyError` that ends the loop. */
  ghost predicate PluginDispatched(action: string, args: ArgMap, env: Env, o: Outcome)
    requires Lookup(args, PluginKey).Some?
  {
    var plugin := Lookup(args, PluginKey).value;
    && o.status == Completed
    && |o.calls| >= 1
    && o.calls[0].RunPlugin?
    && |o.calls[0].command| >= 2
    && o.calls[0].command[0] == DirPrefix(env.envsRoot) + "fandango_" + plugin + "_env/bin/python"
    && o.calls[0].command[1] == DirPrefix(env.pluginsRoot) + DirPrefix("fandango-" + plugin) + "main.py"
    && o.calls[0].command[2..] == ["--action=" + action] + Serialise(args)
    && (env.process.CannotStart? ==>
          o.calls == [o.calls[0]] && o.report == Some(ErrorMessage(plugin, LaunchFailed(env.process.reason))))
    && (env.process.Started? ==>
          var lines, n := env.process.lines, ReadCount(action, args, env.process.lines, env.decode);
          && (o.report.Some? <==> n < |lines|)
          && (n < |lines| ==>
                LineStep(action, args, plugin, lines[n], env.decode).Stop? &&
                o.report == Some(ErrorMessage(plugin, LineStep(action, args, plugin, lines[n], env.decode).error)))
          && (UpdateField(action).None? ==> o.calls == [o.calls[0]])
          && (Lookup(args, ProjectIdKey).None? ==> o.calls == [o.calls[0]])
          && (UpdateField(action).Some? && Lookup(args, ProjectIdKey).Some? ==>
                o.calls[1..] == Repeat(UpdateProject(Lookup(args, ProjectIdKey).value, UpdateField(action).value, Quoted(plugin)),
                                       SuccessCount(lines[..n], env.decode))))
  }

  /** Only `copyData` and `associateProject` ever update a project. */
  lemma OtherActionsNeverUpdate(action: string, tokens: seq<string>, env: Env)
    requires UpdateField(action).None?
    ensures NoUpdates(Run(action, tokens, env).calls)
  {
    var parsed := ParseArguments(action, tokens, env.schemas);
    if parsed.Ok? && action != CreateProjectAction && action != DeleteProjectAction {
      assert Run(action, tokens, env) == DispatchToPlugin(action, parsed.value, env);
      PluginNeverUpdates(action, parsed.value, env);
    }
  }

  lemma PluginNeverUpdates(action: string, args: ArgMap, env: Env)
    requires UpdateField(action).None?
    ensures NoUpdates(DispatchToPlugin(action, args, env).calls)
  {
    var plugin := Lookup(args, PluginKey);
    if plugin.Some? && plugin.value != "" {
      var launch := RunPlugin(PluginCommand(env.envsRoot, env.pluginsRoot, plugin.value, action, args));
      var o := DispatchToPlugin(action, args, env);
      if env.process.Started? {
        InterpretSpec(action, args, plugin.value, env.process.lines, env.decode);
        assert Interpret(action, args, plugin.value, env.process.lines, env.decode).calls == [];
      }
      assert o.calls == [launch];
    }
  }

  /** Only `createProject` creates a project and only `deleteProject`
      deletes one: every other action leaves the set of projects alone. */
  lemma OnlyInternalActionsCreateOrDelete(action: string, tokens: seq<string>, env: Env)
    requires action != CreateProjectAction && action != DeleteProjectAction
    ensures NoCreateOrDelete(Run(action, tokens, env).calls)
  {
    var parsed := ParseArguments(action, tokens, env.schemas);
    if parsed.Ok? {
      assert Run(action, tokens, env) == DispatchToPlugin(action, parsed.value, env);
      PluginNeverCreatesOrDeletes(action, parsed.value, env);
    }
  }

  lemma PluginNeverCreatesOrDeletes(action: string, args: ArgMap, env: Env)
    ensures NoCreateOrDelete(DispatchToPlugin(action, args, env).calls)
  {
    var plugin := Lookup(args, PluginKey);
    if plugin.Some? && plugin.value != "" {
      var launch := RunPlugin(PluginCommand(env.envsRoot, env.pluginsRoot, plugin.value, action, args));
      if env.process.Started? {
        InterpretOnlyUpdates(action, args, plugin.value, env.process.lines, env.decode);
        NoCreateOrDeleteAfterLaunch(launch, Interpret(action, args, plugin.value, env.process.lines, env.decode).calls);
      } else {
        NoCreateOrDeleteAfterLaunch(launch, []);
      }
    }
  }

  /** A plugin whose output has no line that decodes to a true `success`
      causes no update, whatever its action. */
  lemma {:induction false} NoReportNoUpdate(lines: seq<string>, decode: string -> Decoded, action: string, args: ArgMap, plugin: string)
    requires forall i :: 0 <= i < |lines| ==> !Succeeds(lines[i], decode)
    ensures Interpret(action, args, plugin, lines, decode).calls == []
    decreases |lines|
  {
    if lines != [] {
      NoReportNoUpdate(lines[1..], decode, action, args, plugin);
    }
  }
}

/** The scenarios of the dispatcher's plugin protocol, with a stub plugin:
    the command line carries `--projectId=<id> --plugin=<plugin>`, and the
    schema requires no flag beyond these two. */
module PluginScenarios {
  import opened Common
  import opened Strings
  import opened Args
  import opened Persistence
  import opened Router
  import opened Completion
  import opened Plugins
  import opened Dispatch
  import opened DispatchProperties

  function StubTokens(id: string, plugin: string): seq<string>
  {
    [ProjectIdKey + "=" + id, PluginKey + "=" + plugin]
  }

  function StubArgs(id: string, plugin: string): ArgMap
  {
    [Arg(ProjectIdKey, id), Arg(PluginKey, plugin)]
  }

  /** A command-line value: holds no `=`. */
  predicate PlainValue(v: string)
  {
    '=' !in v
  }

  /** The stub's schema asks for nothing but the two supplied flags. */
  predicate StubSchema(schemas: map<string, seq<FlagSpec>>, action: string)
  {
    forall i :: 0 <= i < |SchemaFor(schemas, action)| && SchemaFor(schemas, action)[i].required ==>
      SchemaFor(schemas, action)[i].name in {PluginKey, ProjectIdKey}
  }

  lemma StubNormalise(id: string, plugin: string)
    requires PlainValue(id) && PlainValue(plugin)
    ensures Normalise(StubTokens(id, plugin)) == Ok(StubArgs(id, plugin))
  {
    assert ProjectIdKey[2] == 'p' && PluginKey[2] == 'p' && ProjectIdKey[3] == 'r' && PluginKey[3] == 'l';
    TwoTokens(ProjectIdKey, id, PluginKey, plugin);
  }

  lemma StubSupplied(id: string, plugin: string)
    requires PlainValue(id) && PlainValue(plugin)
    ensures ActionFlag.name in Supplied(StubTokens(id, plugin))
    ensures ProjectIdKey in Supplied(StubTokens(id, plugin))
    ensures PluginKey in Supplied(StubTokens(id, plugin))
  {
    var tokens := StubTokens(id, plugin);
    TokenRoundTrip(ProjectIdKey, id);
    TokenRoundTrip(PluginKey, plugin);
    assert TokenKey(tokens[0]) == ProjectIdKey;
    assert TokenKey(tokens[1]) == PluginKey;
  }

  lemma StubRequired(schemas: map<string, seq<FlagSpec>>, action: string, id: string, plugin: string)
    requires StubSchema(schemas, action) && PlainValue(id) && PlainValue(plugin)
    ensures MissingRequired([ActionFlag] + SchemaFor(schemas, action), Supplied(StubTokens(id, plugin))) == []
  {
    StubSupplied(id, plugin);
    SchemaSatisfied(SchemaFor(schemas, action), Supplied(StubTokens(id, plugin)));
  }

  lemma StubArguments(schemas: map<string, seq<FlagSpec>>, action: string, id: string, plugin: string)
    requires StubSchema(schemas, action) && PlainValue(id) && PlainValue(plugin)
    ensures ParseArguments(action, StubTokens(id, plugin), schemas) == Ok(StubArgs(id, plugin))
  {
    StubRequired(schemas, action, id, plugin);
    StubNormalise(id, plugin);
  }

  /** With the stub's arguments, an external action starts the plugin and
      then does what the line loop does. */
  lemma StubDispatch(action: string, env: Env, id: string, plugin: string)
    requires action != CreateProjectAction && action != DeleteProjectAction
    requires StubSchema(env.schemas, action) && PlainValue(id) && PlainValue(plugin) && plugin != ""
    requires env.process.Started?
    ensures var c := Interpret(action, StubArgs(id, plugin), plugin, env.process.lines, env.decode);
      && Run(action, StubTokens(id, plugin), env).status == Completed
      && |Run(action, StubTokens(id, plugin), env).calls| >= 1
      && Run(action, StubTokens(id, plugin), env).calls[0] ==
           RunPlugin(PluginCommand(env.envsRoot, env.pluginsRoot, plugin, action, StubArgs(id, plugin)))
      && Run(action, StubTokens(id, plugin), env).calls[1..] == c.calls
      && (Run(action, StubTokens(id, plugin), env).report.None? <==> c.failure.None?)
  {
    StubArguments(env.schemas, action, id, plugin);
    var args := StubArgs(id, plugin);
    assert Lookup(args, PluginKey) == Some(plugin);
    assert Run(action, StubTokens(id, plugin), env) == DispatchToPlugin(action, args, env);
  }

  lemma OneSuccessLine(action: string, id: string, plugin: string, line: string, decode: string -> Decoded)
    requires Succeeds(line, decode) && UpdateField(action).Some?
    ensures Interpret(action, StubArgs(id, plugin), plugin, [line], decode)
         == Completion([UpdateProject(id, UpdateField(action).value, "'" + plugin + "'")], None)
  {
    assert Lookup(StubArgs(id, plugin), ProjectIdKey) == Some(id);
    assert [line][1..] == [];
  }

  /** A stub reporting a true `success` for `copyData` with
      `--projectId=X --plugin=foo` makes the dispatcher set
      `data_management_system` of project X to `'foo'`. */
  lemma CopyDataRecordsPlugin(env: Env, id: string, plugin: string, line: string)
    requires StubSchema(env.schemas, "copyData") && PlainValue(id) && PlainValue(plugin) && plugin != ""
    requires env.process == Started([line]) && Succeeds(line, env.decode)
    ensures Run("copyData", StubTokens(id, plugin), env).status == Completed
    ensures |Run("copyData", StubTokens(id, plugin), env).calls| >= 1
    ensures Run("copyData", StubTokens(id, plugin), env).calls[1..] == [UpdateProject(id, "data_management_system", "'" + plugin + "'")]
    ensures Run("copyData", StubTokens(id, plugin), env).report.None?
  {
    StubDispatch("copyData", env, id, plugin);
    OneSuccessLine("copyData", id, plugin, line, env.decode);
  }

  /** The same stub for `associateProject` sets `proposal_manager` instead. */
  lemma AssociateProjectRecordsPlugin(env: Env, id: string, plugin: string, line: string)
    requires StubSchema(env.schemas, "associateProject") && PlainValue(id) && PlainValue(plugin) && plugin != ""
    requires env.process == Started([line]) && Succeeds(line, env.decode)
    ensures Run("associateProject", StubTokens(id, plugin), env).status == Completed
    ensures |Run("associateProject", StubTokens(id, plugin), env).calls| >= 1
    ensures Run("associateProject", StubTokens(id, plugin), env).calls[1..] == [UpdateProject(id, "proposal_manager", "'" + plugin + "'")]
    ensures Run("associateProject", StubTokens(id, plugin), env).report.None?
  {
    StubDispatch("associateProject", env, id, plugin);
    OneSuccessLine("associateProject", id, plugin, line, env.decode);
  }

  /** A stub that prints no `{"success` line causes no update, and the
      dispatcher prints no error message for it either. */
  lemma SilentPluginIsNoOp(action: string, env: Env, id: string, plugin: string)
    requires action != CreateProjectAction && action != DeleteProjectAction
    requires StubSchema(env.schemas, action) && PlainValue(id) && PlainValue(plugin) && plugin != ""
    requires env.process.Started?
    requires forall i :: 0 <= i < |env.process.lines| ==> !StartsWith(env.process.lines[i], SuccessPrefix)
    ensures Run(action, StubTokens(id, plugin), env).status == Completed
    ensures |Run(action, StubTokens(id, plugin), env).calls| >= 1
    ensures Run(action, StubTokens(id, plugin), env).calls[1..] == []
    ensures Run(action, StubTokens(id, plugin), env).report.None?
  {
    StubDispatch(action, env, id, plugin);
    var lines := env.process.lines;
    InterpretSpec(action, StubArgs(id, plugin), plugin, lines, env.decode);
    NoReportNoUpdate(lines, env.decode, action, StubArgs(id, plugin), plugin);
  }
}
