# FandanGO dispatcher: a verified model

FandanGO's `main()` is a small command-line router. It reads an `--action` and
any number of leftover `--name=value` tokens, and handles each action in one of two ways:

- **Internal actions.** It performs `createProject` and `deleteProject` itself, through its persistence layer.
- **Plugin actions.** It hands every other action to a plugin. The plugin is a separate Python program that lives in its own conda
  environment. The dispatcher then reads the plugin's output and records a
  finished `copyData` or `associateProject` on the project.

This project models that dispatch core as Dafny functions, with one imperative
method for each of the two `for` statements (main.py:29, main.py:61). Each
invocation is a function of its inputs: the action, the leftover tokens, and an
environment. The environment holds the schema, the two configured roots, the
date stamp, the clock, the day's project count, the plugin process's output and
a JSON decoder. The result is the exact sequence of collaborator calls, the
one error message the plugin boundary prints, and whether an exception escaped.

Modules, in dependency order:

- `Common`: `Option`, `Result` and the failures (`Error`), each standing for the Python exception it models.
- `Strings`: prefix tests, `str.split` on one character together with its inverse `join`, and `str(n)`.
- `Args`: the parsed argument map of main.py:34, an insertion-ordered dict kept as a list of entries.
- `Persistence`: the project record and the trace of collaborator calls.
- `Projects`: the two internal actions, and the project id.
- `Plugins`: `os.path.join`, the interpreter and entry-point paths, and the forwarded argv.
- `Completion`: the line loop of main.py:61-70 and its exception boundary.
- `Router`: the argparse setup of main.py:21-31, with the parser as an object the schema loop extends.
- `Dispatch`: `main()` as a function, `Run`, and as a method, `Execute`.
- `DispatchProperties`: what one invocation does.
- `PluginScenarios`: the stub-plugin scenarios.

Where the project's own description of the dispatcher and the code of
`main.py` differ, the model follows the code:

- A missing `--plugin` key is a `KeyError` raised at main.py:49, outside the
  `try`. It escapes `main()`, and no message is printed (`Aborted`).
- A plugin that prints no `{"success` line, or only false ones, causes no update
  call and no message. The trace still holds the launch of the plugin.
- A leftover token without `=` raises `IndexError` at main.py:34, uncaught. No action runs.
- Forwarded tokens keep the leading `--` of their key. `--foo=bar` reaches the plugin as `--foo=bar`.
- The value of a token stops at its second `=`. `--a=b=c` gives `--a` the value `b`.

## Model

| member | source | states |
|---|---|---|
| Strings.Split | main.py:34 | `str.split` on one character: at least one piece, and no piece holds the separator |
| Strings.JoinSplit | main.py:34 | joining the pieces of a split with the separator gives back the string |
| Strings.SplitJoin | main.py:34 | separator-free pieces are exactly what splitting their join gives |
| Strings.NatToString | main.py:40 | `str(n)`: at least one decimal digit, and a leading `0` only for zero |
| Strings.DecimalRoundTrip | main.py:40 | reading back the decimal form of `n` gives `n` |
| Strings.NatToStringInjective | main.py:40 | two numbers have the same decimal form exactly when they are equal |
| Args.Lookup | main.py:46 | `m[k]` succeeds exactly when `k` is a key of the map, and returns the value stored with it |
| Args.LookupAt | main.py:34 | with distinct keys, every entry is what its own key looks up |
| Args.Put | main.py:34 | dict assignment: an existing key keeps its position, a new key is appended |
| Args.PutLookup | main.py:34 | after `m[k] = v`, `k` looks up `v` and every other key looks up what it did before |
| Args.PutNew | main.py:34 | assigning a new key appends exactly that entry |
| Args.PutDistinct | main.py:34 | assignment keeps the keys distinct |
| Args.ParseToken | main.py:34 | a token yields an entry exactly when it holds `=`; the key is piece 0 of the split |
| Args.ParseTokenFields | main.py:34 | neither key nor value holds `=`; the token is `key=value`, or starts with `key=value=` |
| Args.TokenRoundTrip | main.py:34 | a `key=value` token with no other `=` parses back to that entry |
| Args.Normalise | main.py:34 | a built map has distinct keys, and no key or value holds `=` |
| Args.NormaliseSnoc | main.py:34 | one more token updates the map built so far by exactly that token |
| Args.SameKeyTwice | main.py:34 | the same key twice gives one entry holding the later value |
| Args.TwoTokens | main.py:34 | two tokens with different keys give two entries, in token order |
| Args.NormaliseOkTokens | main.py:34 | a built map means every token held `=` |
| Args.NormaliseErrToken | main.py:34 | a failure names the first token without `=` |
| Args.NormaliseFails | main.py:34 | the map fails to build exactly when some token lacks `=`, and the failure names the first such token |
| Args.NormaliseLookup | main.py:34 | every key looks up the value of its last token, and is present exactly when some token carries it |
| Args.NormaliseKeyOrder | main.py:34 | a later duplicate keeps the key's first position; a new key goes last |
| Projects.ProjectIdParts | main.py:40 | the id is the date stamp followed by digits whose value is the day's count plus one |
| Projects.ProjectIdOfDateStamp | main.py:40 | for an eight-digit date stamp the id is all digits, and its first eight characters are the date |
| Projects.ProjectIdInjective | main.py:40 | on one day, two counts give the same id exactly when they are equal |
| Projects.SuccessiveIdsOnOneDay | main.py:39-40 | two creations in a row on one day get different ids, with numeric suffixes one apart |
| Projects.CreateProjectCalls | main.py:39-42 | `createProject` reads the count, then makes one create call for `(id, ts, None, None, None)`, and no delete or update |
| Projects.DeleteProjectTrace | main.py:44-46 | one delete call for the `--projectId` value exactly when that key is present, and a `KeyError` on it otherwise |
| Plugins.JoinStep | main.py:52 | one `os.path.join` step ends with the part, and keeps the path in front of a relative part |
| Plugins.InterpreterPathShape | main.py:52 | the interpreter is `<envs>/fandango_<plugin>_env/bin/python` |
| Plugins.InterpreterPathInjective | main.py:52 | different plugins get different interpreters |
| Plugins.EntryPathShape | main.py:54 | the entry point is `main.py` in `<plugins>/fandango-<plugin>`, with a `/` inserted unless the name ends in one |
| Plugins.EntryPathPlain | main.py:54 | for a plugin name not ending in `/`, the entry point is `<plugins>/fandango-<plugin>/main.py` |
| Plugins.Serialise | main.py:56 | one `key=value` token per map entry, in map order |
| Plugins.ForwardedArgs | main.py:56 | the forwarded argv has one token more than the map has entries |
| Plugins.PluginCommand | main.py:58 | the command holds three tokens more than the map has entries: the interpreter, the entry point and `--action=` |
| Plugins.ForwardedContains | main.py:56 | every entry of the map reaches the plugin as `key=value` |
| Plugins.SerialiseRoundTrip | main.py:56 | normalising the serialised tokens again gives back a map with distinct, `=`-free keys and values |
| Plugins.ForwardedRoundTrip | main.py:56 | normalising the argv after `--action=` gives back the map |
| Plugins.RenormaliseForwarded | main.py:56 | a map built at line 34 survives the trip to the plugin unchanged |
| Completion.ReadCount | main.py:61-70 | the lines read are those before the first line whose handling raises |
| Completion.InterpretSpec | main.py:61-70 | details below[^interpret] |
| Completion.InterpretOnlyUpdates | main.py:61-70 | the line loop makes update calls only |
| Completion.InterpretOutput | main.py:61-70 | the imperative loop computes exactly the trace and the failure of `Interpret` |
| Router.ArgumentParser.constructor | main.py:21-23 | a new parser knows only `--action`; argparse's own `-h/--help` flag is left out together with help output |
| Router.ArgumentParser.AddArgument | main.py:30 | `add_argument` appends one flag and changes nothing else |
| Router.RegisterSchema | main.py:29-30 | after the loop the parser holds its old flags followed by the schema, in order |
| Router.MissingRequired | main.py:31 | a name is reported exactly when some flag requires it and it is not supplied |
| Router.NothingMissing | main.py:31 | with every required flag supplied, nothing is reported |
| Router.SchemaSatisfied | main.py:28-31 | `--action` and every required schema flag supplied: no usage error |
| Router.MissingReported | main.py:28-31 | an unsupplied required schema flag is reported |
| Dispatch.Execute | main.py:20-73 | `main()` step by step, with the parser object and the line loop, is exactly `Run` |
| DispatchProperties.AbortedMakesNoCalls | main.py:25-49 | an escaped exception always comes before any collaborator call and any message |
| DispatchProperties.RequiredFlagMissing | main.py:28-31 | an unsupplied required flag aborts with a usage error naming it, before any call |
| DispatchProperties.MalformedTokenAborts | main.py:34 | a token without `=` aborts before any call, naming the first such token |
| DispatchProperties.CreateProjectRun | main.py:37-42 | `createProject` makes exactly the count check and the create call for `(today + str(count + 1), now, None, None, None)` |
| DispatchProperties.CreateProjectRoute | main.py:37-42 | the same, once the arguments are parsed, for any map |
| DispatchProperties.DeleteProjectRun | main.py:44-46 | `deleteProject` deletes exactly the `--projectId` project, or aborts with no call when that key is absent |
| DispatchProperties.PluginKeyChecks | main.py:49 | a missing `--plugin` escapes uncaught with no call; an empty one does nothing |
| DispatchProperties.PluginRun | main.py:49-73 | details below[^plugin-run] |
| DispatchProperties.DispatchToPluginSpec | main.py:50-73 | the same for the plugin branch, for any map with a plugin name |
| DispatchProperties.OtherActionsNeverUpdate | main.py:66-70 | only `copyData` and `associateProject` ever update a project |
| DispatchProperties.PluginNeverUpdates | main.py:66-70 | the plugin branch of any other action makes no update |
| DispatchProperties.OnlyInternalActionsCreateOrDelete | main.py:36-73 | no action but `createProject` creates a project, and none but `deleteProject` deletes one |
| DispatchProperties.PluginNeverCreatesOrDeletes | main.py:49-73 | the plugin branch never creates or deletes a project |
| DispatchProperties.NoReportNoUpdate | main.py:61-70 | output with no line reporting a true `success` causes no update |
| PluginScenarios.StubNormalise | main.py:34 | `--projectId=X --plugin=foo` gives the map `{--projectId: X, --plugin: foo}` in that order |
| PluginScenarios.StubArguments | main.py:25-34 | with a schema that requires nothing else, the stub's arguments parse to that map |
| PluginScenarios.StubDispatch | main.py:49-70 | the stub invocation completes; its first call launches the plugin with the stub's command, then it does what the line loop does, with a message exactly when a line failed |
| PluginScenarios.OneSuccessLine | main.py:61-70 | one true `success` line makes exactly one update of the action's field to the quoted plugin name |
| PluginScenarios.CopyDataRecordsPlugin | main.py:67-68 | a stub reporting success for `copyData` sets `data_management_system` of project X to `'foo'`, with no message, and completes |
| PluginScenarios.AssociateProjectRecordsPlugin | main.py:69-70 | the same stub for `associateProject` sets `proposal_manager` instead |
| PluginScenarios.SilentPluginIsNoOp | main.py:61-63 | a stub that prints no `{"success` line completes with no update and no message |

[^interpret]: `Completion.InterpretSpec` states:
    - Reading stops at the first failing line. The loop fails exactly when there is such a line, and then with that line's exception.
    - Each true `success` line read before the failure makes one update on `--projectId`, setting the action's field to the quoted plugin name.
    - Other actions, or a map without `--projectId`, make no call.

[^plugin-run]: `DispatchProperties.PluginRun` states that an external action with a plugin name does the following:
    - It starts one process. The process uses the plugin's interpreter and entry point, with `--action=<a>` followed by the map.
    - It makes the updates of the line loop. Without `--projectId` it makes no update, because the first true `success` line raises `KeyError` (main.py:68, main.py:70).
    - It prints one message naming the plugin exactly when starting the plugin or handling a line failed.
    - It completes normally.

## Left out

- Configuration loading at import time (main.py:9-13): the two roots `PLUGINS.PATH` and `CONDA.ENVS_PATH` are fields of the environment.
- `load_args_schema` (main.py:15-18) reads a file. The schema map, keyed by action, is a field of the environment. A missing or malformed schema file is not modelled.
- argparse itself (main.py:21-31) is library code. These parts of it are not modelled:
  - the `choices` of `--action`. These `choices` make the `associateProject` branch at main.py:69-70 unreachable from the command line. The model takes the action as a free parameter, so that branch is still modelled and proved about.
  - abbreviations;
  - the two-token `--flag value` form;
  - the `-h/--help` flag and help output;
  - exit status 2.
- The required-flag check is abstract. A flag counts as supplied when it is `--action` or the text before the first `=` of some leftover token. A missing flag aborts the invocation with all missing names, in parser order.
- The `print` calls at main.py:38, 45, 57 and 62 are not modelled; only the message of main.py:73 is.
- Process control (main.py:58-61) is not modelled:
  - `subprocess.Popen`, `wait` and the stdout pipe;
  - the exit status;
  - a stall when the pipe fills before `wait` returns.

  The process is an input: either the lines it printed, or a failure to start. A failed start still records the attempted command.
- `json.loads(line)['success']` (main.py:64-66) is an oracle. It reports a decoding failure, a missing `success` member, or the truth value of that member. Python's truthiness of non-boolean values is folded into that truth value.
- `datetime.now()` (main.py:40-41) is replaced by the date stamp and the timestamp, both inputs. The two separate clock readings of the source could straddle midnight; that is not modelled.
- `db.utils` (main.py:7) is not part of this model. Its functions appear only as entries of the call trace. Their results are not modelled, apart from the day's count, which is an input. Their exceptions are not modelled either, including an `update_project` failure caught at main.py:72.
- Common.ErrorText: `str(e)` is exact only for a `KeyError`, the quoted key. The text of other exceptions is a fixed or given string, not Python's message.
- `os.path.join` is modelled with POSIX rules only.
- Concurrency is not modelled. Two simultaneous `createProject` runs could read the same count and produce the same id.
