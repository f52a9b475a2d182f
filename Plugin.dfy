/** How an external action is handed to its plugin (main.py:52-56): the
    interpreter and the entry point are found by naming convention, and the
    parsed argument map is serialised back into command-line tokens. */
module Plugins {
  import opened Common
  import opened Strings
  import opened Args

  /** One step of `os.path.join` on POSIX: an absolute part replaces the
      path; otherwise a `/` is inserted unless the path is empty or already
      ends in one. */
  function JoinStep(path: string, part: string): (p: string)
    ensures EndsWith(p, part)
    ensures !StartsWith(part, "/") ==> StartsWith(p, path)
  {
    if StartsWith(part, "/") then part
    else if path == "" || path[|path| - 1] == '/' then path + part
    else path + "/" + part
  }

  /** `os.path.join(base, *parts)`: the parts joined on in turn. */
  function JoinPath(base: string, parts: seq<string>): string
    decreases |parts|
  {
    if parts == [] then base else JoinPath(JoinStep(base, parts[0]), parts[1..])
  }

  /** What `JoinStep` puts in front of a relative part. */
  function DirPrefix(base: string): string
  {
    if base == "" || base[|base| - 1] == '/' then base else base + "/"
  }

  /** `<envs-root>/fandango_<plugin>_env/bin/python`. */
  function InterpreterPath(envsRoot: string, plugin: string): string
  {
    JoinPath(envsRoot, ["fandango_" + plugin + "_env", "bin", "python"])
  }

  /** `<plugins-root>/fandango-<plugin>/main.py`. */
  function EntryPath(pluginsRoot: string, plugin: string): string
  {
    JoinPath(pluginsRoot, ["fandango-" + plugin, "main.py"])
  }

  lemma JoinRelative(base: string, part: string)
    requires |part| > 0 && part[0] != '/'
    ensures JoinStep(base, part) == DirPrefix(base) + part
  {
    assert part[..1] != "/";
  }

  /** Joining onto a path that does not end in `/` inserts one. */
  lemma JoinAfter(dir: string, part: string)
    requires |dir| > 0 && dir[|dir| - 1] != '/'
    requires |part| > 0 && part[0] != '/'
    ensures JoinStep(dir, part) == dir + "/" + part
  {
    JoinRelative(dir, part);
  }

  /** Joining three parts is three steps. */
  lemma JoinThree(base: string, a: string, b: string, c: string)
    ensures JoinPath(base, [a, b, c]) == JoinStep(JoinStep(JoinStep(base, a), b), c)
  {
    var x := JoinStep(base, a);
    assert [a, b, c][1..] == [b, c];
    assert JoinPath(base, [a, b, c]) == JoinPath(x, [b, c]);
    JoinTwo(x, b, c);
  }

  lemma JoinTwo(base: string, a: string, b: string)
    ensures JoinPath(base, [a, b]) == JoinStep(JoinStep(base, a), b)
  {
    var x := JoinStep(base, a);
    assert [a, b][1..] == [b] && [b][1..] == [];
    assert JoinPath(base, [a, b]) == JoinPath(x, [b]);
    assert JoinPath(x, [b]) == JoinPath(JoinStep(x, b), []);
  }

  /** Relative parts are joined by a single `/` after a part that does not
      end in one. */
  lemma JoinRelativeTwo(base: string, a: string, b: string)
    requires |a| > 0 && a[0] != '/' && a[|a| - 1] != '/'
    requires |b| > 0 && b[0] != '/'
    ensures JoinStep(JoinStep(base, a), b) == DirPrefix(base) + a + "/" + b
  {
    JoinRelative(base, a);
    var x := DirPrefix(base) + a;
    assert x[|x| - 1] == a[|a| - 1];
    JoinAfter(x, b);
  }

  lemma JoinRelativeThree(base: string, a: string, b: string, c: string)
    requires |a| > 0 && a[0] != '/' && a[|a| - 1] != '/'
    requires |b| > 0 && b[0] != '/' && b[|b| - 1] != '/'
    requires |c| > 0 && c[0] != '/'
    ensures JoinStep(JoinStep(JoinStep(base, a), b), c) == DirPrefix(base) + a + "/" + b + "/" + c
  {
    JoinRelativeTwo(base, a, b);
    var y := DirPrefix(base) + a + "/" + b;
    assert y[|y| - 1] == b[|b| - 1];
    JoinAfter(y, c);
  }

  /** The joined interpreter path, spelled out. */
  lemma InterpreterSpelling(p: string, plugin: string)
    ensures p + ("fandango_" + plugin + "_env") + "/" + "bin" + "/" + "python"
         == p + "fandango_" + plugin + "_env/bin/python"
  {
    var env := "fandango_" + plugin + "_env";
    var f := "fandango_" + plugin;
    assert "_env" + "/" + "bin" + "/" + "python" == "_env/bin/python";
    ConcatAssoc(p, env, "/");
    ConcatAssoc(p, env + "/", "bin");
    ConcatAssoc(p, env + "/" + "bin", "/");
    ConcatAssoc(p, env + "/" + "bin" + "/", "python");
    ConcatAssoc(f, "_env", "/");
    ConcatAssoc(f, "_env" + "/", "bin");
    ConcatAssoc(f, "_env" + "/" + "bin", "/");
    ConcatAssoc(f, "_env" + "/" + "bin" + "/", "python");
    ConcatAssoc(p, "fandango_", plugin);
    ConcatAssoc(p + "fandango_", plugin, "_env/bin/python");
    ConcatAssoc(p, f, "_env/bin/python");
  }

  /** The joined entry-point path, spelled out. */
  lemma EntrySpelling(p: string, plugin: string)
    ensures p + ("fandango-" + plugin) + "/" + "main.py" == p + "fandango-" + plugin + "/main.py"
  {
    var dir := "fandango-" + plugin;
    assert "/" + "main.py" == "/main.py";
    ConcatAssoc(p, dir, "/");
    ConcatAssoc(p, dir + "/", "main.py");
    ConcatAssoc(p, dir, "/main.py");
    ConcatAssoc(p, "fandango-", plugin);
    ConcatAssoc("fandango-", plugin, "/main.py");
    ConcatAssoc(p + "fandango-", plugin, "/main.py");
    ConcatAssoc(p, "fandango-", plugin + "/main.py");
  }

  lemma InterpreterPathShape(envsRoot: string, plugin: string)
    ensures InterpreterPath(envsRoot, plugin) == DirPrefix(envsRoot) + "fandango_" + plugin + "_env/bin/python"
  {
    var env := "fandango_" + plugin + "_env";
    JoinThree(envsRoot, env, "bin", "python");
    assert env[0] == 'f' && env[|env| - 1] == 'v';
    JoinRelativeThree(envsRoot, env, "bin", "python");
    InterpreterSpelling(DirPrefix(envsRoot), plugin);
  }

  /** `DirPrefix` only looks at the last character. */
  lemma DirPrefixAfter(a: string, d: string)
    requires d != []
    ensures DirPrefix(a + d) == a + DirPrefix(d)
  {
    assert (a + d)[|a + d| - 1] == d[|d| - 1];
  }

  /** The entry point is `main.py` inside `fandango-<plugin>`; a separator
      is inserted unless the plugin name already ends in one. */
  lemma EntryPathShape(pluginsRoot: string, plugin: string)
    ensures EntryPath(pluginsRoot, plugin) == DirPrefix(pluginsRoot) + DirPrefix("fandango-" + plugin) + "main.py"
  {
    var dir := "fandango-" + plugin;
    JoinTwo(pluginsRoot, dir, "main.py");
    assert dir[0] == 'f';
    JoinRelative(pluginsRoot, dir);
    JoinRelative(DirPrefix(pluginsRoot) + dir, "main.py");
    DirPrefixAfter(DirPrefix(pluginsRoot), dir);
  }

  /** For a plugin name that does not end in `/`, the common case. */
  lemma EntryPathPlain(pluginsRoot: string, plugin: string)
    requires plugin == "" || plugin[|plugin| - 1] != '/'
    ensures EntryPath(pluginsRoot, plugin) == DirPrefix(pluginsRoot) + "fandango-" + plugin + "/main.py"
  {
    var dir := "fandango-" + plugin;
    JoinTwo(pluginsRoot, dir, "main.py");
    if plugin == "" {
      assert dir == "fandango-";
    } else {
      assert dir[|dir| - 1] == plugin[|plugin| - 1];
    }
    assert dir[0] == 'f';
    JoinRelativeTwo(pluginsRoot, dir, "main.py");
    EntrySpelling(DirPrefix(pluginsRoot), plugin);
  }

  lemma InterpreterPathInjective(envsRoot: string, p1: string, p2: string)
    ensures InterpreterPath(envsRoot, p1) == InterpreterPath(envsRoot, p2) <==> p1 == p2
  {
    InterpreterPathShape(envsRoot, p1);
    InterpreterPathShape(envsRoot, p2);
    var pre, suf := DirPrefix(envsRoot) + "fandango_", "_env/bin/python";
    var s1, s2 := pre + p1 + suf, pre + p2 + suf;
    assert s1[|pre|..|s1| - |suf|] == p1;
    assert s2[|pre|..|s2| - |suf|] == p2;
  }

  /** `f"{key}={value}"` for one entry. */
  function ArgToken(a: Arg): string
  {
    a.key + "=" + a.value
  }

  /** The entries of the map, in map order, each as `key=value`. */
  function Serialise(args: ArgMap): (tokens: seq<string>)
    ensures |tokens| == |args|
    ensures forall i :: 0 <= i < |args| ==> tokens[i] == ArgToken(args[i])
    decreases |args|
  {
    if args == [] then []
    else Serialise(args[..|args| - 1]) + [ArgToken(args[|args| - 1])]
  }

  /** The plugin's argv after the interpreter and the entry point:
      `--action=<action>` and then the serialised map. */
  function ForwardedArgs(action: string, args: ArgMap): (argv: seq<string>)
    ensures |argv| == 1 + |args|
  {
    ["--action=" + action] + Serialise(args)
  }

  /** The full command started as the plugin process. */
  function PluginCommand(envsRoot: string, pluginsRoot: string, plugin: string, action: string, args: ArgMap): (cmd: seq<string>)
    ensures |cmd| == 3 + |args|
  {
    [InterpreterPath(envsRoot, plugin), EntryPath(pluginsRoot, plugin)] + ForwardedArgs(action, args)
  }

  /** Every entry of the map reaches the plugin as a `key=value` token; in
      particular `--foo=bar` given to the dispatcher is forwarded as `--foo=bar`. */
  lemma ForwardedContains(action: string, args: ArgMap, k: string, v: string)
    requires Lookup(args, k) == Some(v)
    ensures k + "=" + v in ForwardedArgs(action, args)[1..]
  {
    var i :| 0 <= i < |args| && args[i] == Arg(k, v);
    assert ForwardedArgs(action, args)[1..][i] == k + "=" + v;
  }

  /** Dropping the last entry keeps a map well formed, and that entry's key
      is not among the others. */
  lemma DropLast(args: ArgMap)
    requires args != [] && DistinctKeys(args) && SeparatorFree(args)
    ensures var init, last := args[..|args| - 1], args[|args| - 1];
      && DistinctKeys(init) && SeparatorFree(init)
      && last.key !in Keys(init) && '=' !in last.key && '=' !in last.value
      && args == init + [last]
  {
    var n := |args| - 1;
    var init := args[..n];
    assert forall i :: 0 <= i < n ==> Keys(init)[i] == args[i].key;
  }

  /** Re-normalising the serialised tokens by the rule of main.py:34 gives
      back the map, for a map with distinct keys and no `=` inside. */
  lemma {:induction false} SerialiseRoundTrip(args: ArgMap)
    requires DistinctKeys(args) && SeparatorFree(args)
    ensures Normalise(Serialise(args)) == Ok(args)
    decreases |args|
  {
    if args != [] {
      var n := |args| - 1;
      var init, last := args[..n], args[n];
      DropLast(args);
      var before := Serialise(init);
      assert Serialise(args) == before + [ArgToken(last)];
      SerialiseRoundTrip(init);
      TokenRoundTrip(last.key, last.value);
      NormaliseSnoc(before, ArgToken(last));
      PutNew(init, last.key, last.value);
    }
  }

  lemma ForwardedRoundTrip(action: string, args: ArgMap)
    requires DistinctKeys(args) && SeparatorFree(args)
    ensures Normalise(ForwardedArgs(action, args)[1..]) == Ok(args)
  {
    assert ForwardedArgs(action, args)[1..] == Serialise(args);
    SerialiseRoundTrip(args);
  }

  /** A map built at line 34 survives the trip to the plugin: no key or
      value of it can hold `=`, so the plugin's own normalisation of the
      forwarded tokens rebuilds the same map. */
  lemma RenormaliseForwarded(action: string, tokens: seq<string>)
    requires Normalise(tokens).Ok?
    ensures Normalise(ForwardedArgs(action, Normalise(tokens).value)[1..]) == Normalise(tokens)
  {
    ForwardedRoundTrip(action, Normalise(tokens).value);
  }
}
