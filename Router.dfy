/** The command-line router (main.py:21-31): `--action` is the one fixed
    flag; the flags the argument schema declares for the chosen action are
    added to the parser one by one, and a second parse rejects an invocation
    that lacks a required one. */
module Router {
  import opened Common
  import opened Args

  /** One entry of the argument schema: `{name, help, required}`. */
  datatype FlagSpec = FlagSpec(name: string, help: string, required: bool)

  const ActionFlag := FlagSpec("--action", "Action to perform", true)

  /** The flags the parser knows, in the order they were added. */
  class ArgumentParser {
    var arguments: seq<FlagSpec>

    constructor ()
      ensures arguments == [ActionFlag]
    {
      arguments := [ActionFlag];
    }

    method AddArgument(spec: FlagSpec)
      modifies this
      ensures arguments == old(arguments) + [spec]
    {
      arguments := arguments + [spec];
    }
  }

  /** `load_args_schema(action)`: the schema's entry for the action, or none. */
  function SchemaFor(schemas: map<string, seq<FlagSpec>>, action: string): seq<FlagSpec>
  {
    if action in schemas then schemas[action] else []
  }

  /** The loop of lines 29-30: every schema entry becomes a parser argument. */
  method RegisterSchema(parser: ArgumentParser, schema: seq<FlagSpec>)
    modifies parser
    ensures parser.arguments == old(parser.arguments) + schema
  {
    for i := 0 to |schema|
      invariant parser.arguments == old(parser.arguments) + schema[..i]
    {
      assert schema[..i + 1] == schema[..i] + [schema[i]];
      parser.AddArgument(schema[i]);
    }
  }

  /** The flag names an invocation supplies: `--action`, and the key of each
      leftover token. */
  function Supplied(tokens: seq<string>): set<string>
  {
    {ActionFlag.name} + set t | t in tokens :: TokenKey(t)
  }

  /** The required flags not supplied, in parser order: what argparse lists
      in its "the following arguments are required" error. */
  function MissingRequired(flags: seq<FlagSpec>, supplied: set<string>): (missing: seq<string>)
    ensures forall n :: n in missing <==>
      n !in supplied && exists i :: 0 <= i < |flags| && flags[i].required && flags[i].name == n
    decreases |flags|
  {
    if flags == [] then []
    else
      var rest := MissingRequired(flags[1..], supplied);
      assert forall i :: 1 <= i < |flags| ==> flags[i] == flags[1..][i - 1];
      if flags[0].required && flags[0].name !in supplied then [flags[0].name] + rest else rest
  }

  /** When every required flag is supplied, nothing is missing. */
  lemma {:induction false} NothingMissing(flags: seq<FlagSpec>, supplied: set<string>)
    requires forall i :: 0 <= i < |flags| && flags[i].required ==> flags[i].name in supplied
    ensures MissingRequired(flags, supplied) == []
    decreases |flags|
  {
    if flags != [] {
      assert forall i :: 0 <= i < |flags| - 1 ==> flags[1..][i] == flags[i + 1];
      NothingMissing(flags[1..], supplied);
    }
  }

  /** `--action` and every required schema flag supplied: no usage error. */
  lemma SchemaSatisfied(schema: seq<FlagSpec>, supplied: set<string>)
    requires ActionFlag.name in supplied
    requires forall i :: 0 <= i < |schema| && schema[i].required ==> schema[i].name in supplied
    ensures MissingRequired([ActionFlag] + schema, supplied) == []
  {
    var flags := [ActionFlag] + schema;
    assert forall i :: 1 <= i < |flags| ==> flags[i] == schema[i - 1];
    NothingMissing(flags, supplied);
  }

  /** A required schema flag that is not supplied is reported. */
  lemma MissingReported(schema: seq<FlagSpec>, supplied: set<string>, i: nat)
    requires i < |schema| && schema[i].required && schema[i].name !in supplied
    ensures schema[i].name in MissingRequired([ActionFlag] + schema, supplied)
  {
    var flags := [ActionFlag] + schema;
    assert flags[i + 1] == schema[i];
  }
}
