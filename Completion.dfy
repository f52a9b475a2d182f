/** The completion protocol of a plugin run (main.py:61-73): the plugin's
    output lines are read one by one, a line that starts with `{"success` is
    decoded as JSON, and a true `success` makes `copyData` and
    `associateProject` record the plugin on the project. The first failure
    inside the `try` stops the reading. */
module Completion {
  import opened Common
  import opened Strings
  import opened Args
  import opened Persistence

  const SuccessPrefix := "{\"success"

  /** What `json.loads(line)['success']` gives: the decoding fails, the
      object has no `success` member, or the truth value of that member. */
  datatype Decoded = Malformed(reason: string) | MissingSuccess | HasSuccess(success: bool)

  /** The effect of one output line: the calls it makes, or the exception
      it raises. */
  datatype LineEffect = Continue(calls: seq<Call>) | Stop(error: Error)

  /** What the reading of all lines leaves behind: the calls made, and the
      exception that ended it, if one did. */
  datatype Completion = Completion(calls: seq<Call>, failure: Option<Error>)

  /** The project field an action records its plugin in, if any. */
  function UpdateField(action: string): Option<string>
  {
    if action == "copyData" then Some("data_management_system")
    else if action == "associateProject" then Some("proposal_manager")
    else None
  }

  /** The plugin name as the quoted literal stored in the field. */
  function Quoted(plugin: string): string
  {
    "'" + plugin + "'"
  }

  /** Lines 63-70 for one line. */
  function LineStep(action: string, args: ArgMap, plugin: string, line: string, decode: string -> Decoded): LineEffect
  {
    if !StartsWith(line, SuccessPrefix) then Continue([])
    else match decode(line)
      case Malformed(reason) => Stop(DecodeFailed(reason))
      case MissingSuccess => Stop(MissingKey("success"))
      case HasSuccess(ok) =>
        if !ok || UpdateField(action).None? then Continue([])
        else match Lookup(args, ProjectIdKey)
          case None => Stop(MissingKey(ProjectIdKey))
          case Some(id) => Continue([UpdateProject(id, UpdateField(action).value, Quoted(plugin))])
  }

  /** The loop of line 61 over the lines, as a function of its input. */
  function Interpret(action: string, args: ArgMap, plugin: string, lines: seq<string>, decode: string -> Decoded): Completion
    decreases |lines|
  {
    if lines == [] then Completion([], None)
    else match LineStep(action, args, plugin, lines[0], decode)
      case Stop(e) => Completion([], Some(e))
      case Continue(cs) =>
        var rest := Interpret(action, args, plugin, lines[1..], decode);
        Completion(cs + rest.calls, rest.failure)
  }

  /** A line that reports a finished action: it carries the prefix and its
      decoded `success` is true. */
  predicate Succeeds(line: string, decode: string -> Decoded)
  {
    StartsWith(line, SuccessPrefix) && decode(line) == HasSuccess(true)
  }

  /** A line whose handling raises, for the given action and map. */
  predicate Fails(action: string, args: ArgMap, line: string, decode: string -> Decoded)
  {
    StartsWith(line, SuccessPrefix) &&
      (decode(line).Malformed? || decode(line).MissingSuccess? ||
       (decode(line) == HasSuccess(true) && UpdateField(action).Some? && Lookup(args, ProjectIdKey).None?))
  }

  /** The number of lines read before the first failing one (all of them if none fails). */
  function ReadCount(action: string, args: ArgMap, lines: seq<string>, decode: string -> Decoded): (n: nat)
    ensures n <= |lines|
    ensures forall i :: 0 <= i < n ==> !Fails(action, args, lines[i], decode)
    ensures n < |lines| ==> Fails(action, args, lines[n], decode)
    decreases |lines|
  {
    if lines == [] || Fails(action, args, lines[0], decode) then 0
    else 1 + ReadCount(action, args, lines[1..], decode)
  }

  /** The number of reporting lines in a sequence. */
  function SuccessCount(lines: seq<string>, decode: string -> Decoded): nat
    decreases |lines|
  {
    if lines == [] then 0
    else (if Succeeds(lines[0], decode) then 1 else 0) + SuccessCount(lines[1..], decode)
  }

  /** `n` copies of one call. */
  function Repeat(c: Call, n: nat): (calls: seq<Call>)
    ensures |calls| == n && forall i :: 0 <= i < n ==> calls[i] == c
  {
    if n == 0 then [] else [c] + Repeat(c, n - 1)
  }

  /** The text printed when the `try` block raises. */
  function ErrorMessage(plugin: string, e: Error): string
  {
    "Error sending action to plugin " + plugin + ". Error: " + ErrorText(e)
  }

  /** What the line loop does, stated without the loop: it reads lines up to
      the first failing one; it fails exactly when there is such a line, with
      that line's exception; each reporting line read before it makes one
      update of the project on the action's field with the quoted plugin,
      and an action without a field makes no call at all. */
  lemma {:induction false} InterpretSpec(action: string, args: ArgMap, plugin: string, lines: seq<string>, decode: string -> Decoded)
    ensures var c, n := Interpret(action, args, plugin, lines, decode), ReadCount(action, args, lines, decode);
      && (c.failure.Some? <==> n < |lines|)
      && (n < |lines| ==> LineStep(action, args, plugin, lines[n], decode) == Stop(c.failure.value))
      && (UpdateField(action).None? ==> c.calls == [])
      && (UpdateField(action).Some? && Lookup(args, ProjectIdKey).Some? ==>
            c.calls == Repeat(UpdateProject(Lookup(args, ProjectIdKey).value, UpdateField(action).value, Quoted(plugin)),
                              SuccessCount(lines[..n], decode)))
      && (Lookup(args, ProjectIdKey).None? ==> c.calls == [])
    decreases |lines|
  {
    if lines != [] {
      var c, n := Interpret(action, args, plugin, lines, decode), ReadCount(action, args, lines, decode);
      var step := LineStep(action, args, plugin, lines[0], decode);
      if Fails(action, args, lines[0], decode) {
        assert n == 0 && step.Stop?;
        assert lines[..n] == [];
      } else {
        var rest := lines[1..];
        InterpretSpec(action, args, plugin, rest, decode);
        assert step.Continue?;
        assert n == 1 + ReadCount(action, args, rest, decode);
        assert lines[..n][1..] == rest[..n - 1];
        assert lines[..n][0] == lines[0];
        if UpdateField(action).Some? && Lookup(args, ProjectIdKey).Some? {
          var u := UpdateProject(Lookup(args, ProjectIdKey).value, UpdateField(action).value, Quoted(plugin));
          var k := SuccessCount(rest[..n - 1], decode);
          if Succeeds(lines[0], decode) {
            assert step.calls == [u];
            assert SuccessCount(lines[..n], decode) == 1 + k;
          } else {
            assert step.calls == [];
            assert SuccessCount(lines[..n], decode) == k;
          }
        }
      }
    }
  }

  /** The line loop makes update calls only. */
  lemma {:induction false} InterpretOnlyUpdates(action: string, args: ArgMap, plugin: string, lines: seq<string>, decode: string -> Decoded)
    ensures forall i :: 0 <= i < |Interpret(action, args, plugin, lines, decode).calls| ==>
      Interpret(action, args, plugin, lines, decode).calls[i].UpdateProject?
    decreases |lines|
  {
    if lines != [] {
      InterpretOnlyUpdates(action, args, plugin, lines[1..], decode);
    }
  }

  /** `Interpret` from line `i` on: the step for line `i`, then the rest. */
  lemma InterpretFrom(action: string, args: ArgMap, plugin: string, lines: seq<string>, decode: string -> Decoded, i: nat)
    requires i < |lines|
    ensures Interpret(action, args, plugin, lines[i..], decode) ==
      match LineStep(action, args, plugin, lines[i], decode)
      case Stop(e) => Completion([], Some(e))
      case Continue(cs) =>
        var rest := Interpret(action, args, plugin, lines[i + 1..], decode);
        Completion(cs + rest.calls, rest.failure)
  {
    assert lines[i..][0] == lines[i] && lines[i..][1..] == lines[i + 1..];
  }

  /** The loop of lines 61-70 over the captured output, appending each
      update to the call trace; an exception ends the loop. */
  method InterpretOutput(action: string, args: ArgMap, plugin: string, lines: seq<string>, decode: string -> Decoded)
    returns (c: Completion)
    ensures c == Interpret(action, args, plugin, lines, decode)
  {
    var calls: seq<Call> := [];
    var i := 0;
    while i < |lines|
      invariant 0 <= i <= |lines|
      invariant Interpret(action, args, plugin, lines, decode)
             == var rest := Interpret(action, args, plugin, lines[i..], decode);
                Completion(calls + rest.calls, rest.failure)
    {
      var line := lines[i];
      InterpretFrom(action, args, plugin, lines, decode, i);
      ghost var before, step := calls, LineStep(action, args, plugin, line, decode);
      if StartsWith(line, SuccessPrefix) {
        var body := decode(line);
        if body.Malformed? {
          return Completion(calls, Some(DecodeFailed(body.reason)));
        }
        if body.MissingSuccess? {
          return Completion(calls, Some(MissingKey("success")));
        }
        if body.success {
          if action == "copyData" || action == "associateProject" {
            var projectId := Lookup(args, ProjectIdKey);
            if projectId.None? {
              return Completion(calls, Some(MissingKey(ProjectIdKey)));
            }
            var field := if action == "copyData" then "data_management_system" else "proposal_manager";
            calls := calls + [UpdateProject(projectId.value, field, Quoted(plugin))];
          }
        }
      }
      assert step.Continue? && calls == before + step.calls;
      ConcatAssoc(before, step.calls, Interpret(action, args, plugin, lines[i + 1..], decode).calls);
      i := i + 1;
    }
    assert lines[i..] == [];
    c := Completion(calls, None);
  }
}
