/** The parsed argument map of one invocation (main.py:34): every leftover
    `--name=value` token becomes an entry keyed by the text before its first
    `=`. The map is a Python dict, so it is modelled as an insertion-ordered
    list of entries with distinct keys: a later duplicate key overwrites the
    value and keeps the position of the first occurrence. */
module Args {
  import opened Common
  import opened Strings

  datatype Arg = Arg(key: string, value: string)

  /** The keys the dispatcher itself reads. */
  const PluginKey := "--plugin"
  const ProjectIdKey := "--projectId"

  type ArgMap = seq<Arg>

  function Keys(m: ArgMap): (ks: seq<string>)
    ensures |ks| == |m|
    ensures forall i :: 0 <= i < |m| ==> ks[i] == m[i].key
  {
    if m == [] then [] else [m[0].key] + Keys(m[1..])
  }

  predicate DistinctKeys(m: ArgMap)
  {
    forall i, j :: 0 <= i < j < |m| ==> m[i].key != m[j].key
  }

  /** No key and no value holds the separator `=`. */
  predicate SeparatorFree(m: ArgMap)
  {
    forall i :: 0 <= i < |m| ==> '=' !in m[i].key && '=' !in m[i].value
  }

  /** `m[k]` on the dict: the value stored under `k`, if any. */
  function Lookup(m: ArgMap, k: string): (r: Option<string>)
    ensures r.Some? <==> k in Keys(m)
    ensures r.Some? ==> Arg(k, r.value) in m
  {
    if m == [] then None
    else if m[0].key == k then Some(m[0].value)
    else Lookup(m[1..], k)
  }

  /** With distinct keys, the entry at any position is what its key looks up. */
  lemma {:induction false} LookupAt(m: ArgMap, i: nat)
    requires DistinctKeys(m) && i < |m|
    ensures Lookup(m, m[i].key) == Some(m[i].value)
  {
    if i > 0 {
      assert m[0].key != m[i].key;
      assert m[1..][i - 1] == m[i];
      LookupAt(m[1..], i - 1);
    }
  }

  /** `m[k] = v` on the dict: an existing key keeps its position, a new key
      goes at the end. */
  function Put(m: ArgMap, k: string, v: string): (r: ArgMap)
    ensures Keys(r) == if k in Keys(m) then Keys(m) else Keys(m) + [k]
  {
    if m == [] then [Arg(k, v)]
    else if m[0].key == k then [Arg(k, v)] + m[1..]
    else [m[0]] + Put(m[1..], k, v)
  }

  /** After `m[k] = v`, `k` looks up `v` and every other key what it did before. */
  lemma {:induction false} PutLookup(m: ArgMap, k: string, v: string, k': string)
    ensures Lookup(Put(m, k, v), k') == if k' == k then Some(v) else Lookup(m, k')
  {
    if m != [] && m[0].key != k {
      PutLookup(m[1..], k, v, k');
    }
  }

  /** A new key is appended after the existing entries. */
  lemma {:induction false} PutNew(m: ArgMap, k: string, v: string)
    requires k !in Keys(m)
    ensures Put(m, k, v) == m + [Arg(k, v)]
  {
    if m != [] {
      assert Keys(m) == [m[0].key] + Keys(m[1..]);
      PutNew(m[1..], k, v);
      assert m == [m[0]] + m[1..];
    }
  }

  /** `m[k] = v` keeps the keys distinct. */
  lemma PutDistinct(m: ArgMap, k: string, v: string)
    requires DistinctKeys(m)
    ensures DistinctKeys(Put(m, k, v))
  {
    var r := Put(m, k, v);
    var ks := Keys(r);
    assert forall i, j :: 0 <= i < j < |m| ==> Keys(m)[i] != Keys(m)[j];
    assert forall i, j :: 0 <= i < j < |r| ==> ks[i] != ks[j];
  }

  lemma {:induction false} PutSeparatorFree(m: ArgMap, k: string, v: string)
    requires SeparatorFree(m) && '=' !in k && '=' !in v
    ensures SeparatorFree(Put(m, k, v))
  {
    if m != [] && m[0].key != k {
      PutSeparatorFree(m[1..], k, v);
    }
  }

  /** The text before the first `=` of a token (element 0 of `split('=')`). */
  function TokenKey(t: string): string
  {
    Split(t, '=')[0]
  }

  /** One token of the comprehension at line 34: element 0 and element 1 of
      `t.split('=')`; a token with no `=` has no element 1. */
  function ParseToken(t: string): (r: Option<Arg>)
    ensures r.Some? <==> '=' in t
    ensures r.Some? ==> r.value.key == TokenKey(t)
  {
    var parts := Split(t, '=');
    if |parts| < 2 then None else Some(Arg(parts[0], parts[1]))
  }

  /** A parsed token is the key, an `=`, the value, and then either the end
      of the token or a further `=`: the value stops at the second `=`. */
  lemma ParseTokenFields(t: string)
    requires '=' in t
    ensures var a := ParseToken(t).value;
      && '=' !in a.key && '=' !in a.value
      && (t == a.key + "=" + a.value || StartsWith(t, a.key + "=" + a.value + "="))
  {
    var parts := Split(t, '=');
    var k, v := parts[0], parts[1];
    JoinSplit(t, '=');
    JoinWithFirstTwo(parts, '=');
    if |parts| > 2 {
      var head := k + "=" + v + "=";
      assert t == head + JoinWith(parts[2..], '=');
      assert t[..|head|] == head;
    }
  }

  /** Serialising an entry as `key=value` and parsing it back returns the
      entry, when neither side holds `=`. */
  lemma TokenRoundTrip(k: string, v: string)
    requires '=' !in k && '=' !in v
    ensures ParseToken(k + "=" + v) == Some(Arg(k, v))
  {
    assert JoinWith([k, v], '=') == k + "=" + v;
    SplitJoin([k, v], '=');
  }

  /** The comprehension of line 34 over the leftover tokens. The first token
      without `=` raises, so no map is built. */
  function Normalise(tokens: seq<string>): (r: Result<ArgMap>)
    ensures r.Ok? ==> DistinctKeys(r.value) && SeparatorFree(r.value)
    decreases |tokens|
  {
    if tokens == [] then Ok([])
    else
      var init := Normalise(tokens[..|tokens| - 1]);
      var last := tokens[|tokens| - 1];
      if init.Err? then init
      else match ParseToken(last)
        case None => Err(MalformedToken(last))
        case Some(a) =>
          var m := Put(init.value, a.key, a.value);
          PutDistinct(init.value, a.key, a.value);
          PutSeparatorFree(init.value, a.key, a.value);
          ParseTokenFields(last);
          Ok(m)
  }

  /** One more token: the map so far, updated by that token. */
  lemma NormaliseSnoc(tokens: seq<string>, t: string)
    requires Normalise(tokens).Ok? && '=' in t
    ensures Normalise(tokens + [t])
         == Ok(Put(Normalise(tokens).value, ParseToken(t).value.key, ParseToken(t).value.value))
  {
    assert (tokens + [t])[..|tokens|] == tokens;
  }

  /** One token gives a map of one entry. */
  lemma SingleToken(k: string, v: string)
    requires '=' !in k && '=' !in v
    ensures Normalise([k + "=" + v]) == Ok([Arg(k, v)])
  {
    TokenRoundTrip(k, v);
    assert [k + "=" + v][..0] == [];
  }

  /** Two tokens with different keys give a map of two entries, in order. */
  lemma TwoTokens(k1: string, v1: string, k2: string, v2: string)
    requires '=' !in k1 && '=' !in v1 && '=' !in k2 && '=' !in v2 && k1 != k2
    ensures Normalise([k1 + "=" + v1, k2 + "=" + v2]) == Ok([Arg(k1, v1), Arg(k2, v2)])
  {
    var first, second := k1 + "=" + v1, k2 + "=" + v2;
    assert [first, second] == [first] + [second];
    SingleToken(k1, v1);
    TokenRoundTrip(k2, v2);
    NormaliseSnoc([first], second);
    var m := [Arg(k1, v1)];
    assert Keys(m) == [k1];
    PutNew(m, k2, v2);
    assert m + [Arg(k2, v2)] == [Arg(k1, v1), Arg(k2, v2)];
  }

  /** The same key twice: one entry, holding the later value. */
  lemma SameKeyTwice(k: string, v1: string, v2: string)
    requires '=' !in k && '=' !in v1 && '=' !in v2
    ensures Normalise([k + "=" + v1, k + "=" + v2]) == Ok([Arg(k, v2)])
  {
    var first, second := k + "=" + v1, k + "=" + v2;
    assert [first, second] == [first] + [second];
    SingleToken(k, v1);
    TokenRoundTrip(k, v2);
    NormaliseSnoc([first], second);
    assert [Arg(k, v1)][1..] == [];
    assert Put([Arg(k, v1)], k, v2) == [Arg(k, v2)];
  }

  /** Reference definition: the value of the last token whose key is `k`. */
  function LastValue(tokens: seq<string>, k: string): Option<string>
    decreases |tokens|
  {
    if tokens == [] then None
    else
      var p := ParseToken(tokens[|tokens| - 1]);
      if p.Some? && p.value.key == k then Some(p.value.value)
      else LastValue(tokens[..|tokens| - 1], k)
  }

  /** Token `i` is the first one without `=`. */
  predicate FirstMalformed(tokens: seq<string>, i: int)
  {
    0 <= i < |tokens| && '=' !in tokens[i] && forall j :: 0 <= j < i ==> '=' in tokens[j]
  }

  /** A successful normalisation saw `=` in every token. */
  lemma {:induction false} NormaliseOkTokens(tokens: seq<string>)
    requires Normalise(tokens).Ok?
    ensures forall i :: 0 <= i < |tokens| ==> '=' in tokens[i]
    decreases |tokens|
  {
    if tokens != [] {
      var n := |tokens| - 1;
      var init := tokens[..n];
      var last := tokens[n];
      assert Normalise(init).Ok? && ParseToken(last).Some?;
      assert '=' in last;
      NormaliseOkTokens(init);
      forall i | 0 <= i < |tokens|
        ensures '=' in tokens[i]
      {
        if i < n {
          assert tokens[i] == init[i];
        } else {
          assert i == n;
        }
      }
    }
  }

  /** A failed normalisation names the first token without `=`. */
  lemma {:induction false} NormaliseErrToken(tokens: seq<string>)
    requires Normalise(tokens).Err?
    ensures exists i :: FirstMalformed(tokens, i) && Normalise(tokens).error == MalformedToken(tokens[i])
    decreases |tokens|
  {
    var n := |tokens| - 1;
    var init := tokens[..n];
    if Normalise(init).Err? {
      NormaliseErrToken(init);
      var i :| FirstMalformed(init, i) && Normalise(init).error == MalformedToken(init[i]);
      assert Normalise(tokens) == Normalise(init);
      assert forall j :: 0 <= j <= i ==> init[j] == tokens[j];
      assert FirstMalformed(tokens, i);
    } else {
      NormaliseOkTokens(init);
      assert forall j :: 0 <= j < n ==> init[j] == tokens[j];
      assert FirstMalformed(tokens, n);
    }
  }

  /** Normalising fails exactly when some token has no `=`, and then it
      names the first such token. */
  lemma NormaliseFails(tokens: seq<string>)
    ensures Normalise(tokens).Err? <==> exists i :: 0 <= i < |tokens| && '=' !in tokens[i]
    ensures Normalise(tokens).Err? ==>
      exists i :: FirstMalformed(tokens, i) && Normalise(tokens).error == MalformedToken(tokens[i])
  {
    if Normalise(tokens).Err? {
      NormaliseErrToken(tokens);
    } else {
      NormaliseOkTokens(tokens);
    }
  }

  /** Each key maps to the value of its last occurrence, and a key is in the
      map exactly when some token carries it. */
  lemma {:induction false} NormaliseLookup(tokens: seq<string>, k: string)
    requires Normalise(tokens).Ok?
    ensures Lookup(Normalise(tokens).value, k) == LastValue(tokens, k)
    decreases |tokens|
  {
    if tokens != [] {
      var init := tokens[..|tokens| - 1];
      NormaliseLookup(init, k);
      var a := ParseToken(tokens[|tokens| - 1]).value;
      PutLookup(Normalise(init).value, a.key, a.value, k);
    }
  }

  /** Later duplicates keep the entry where the key first occurred. */
  lemma {:induction false} NormaliseKeyOrder(tokens: seq<string>, t: string)
    requires Normalise(tokens + [t]).Ok?
    ensures Normalise(tokens).Ok?
    ensures var before, after := Normalise(tokens).value, Normalise(tokens + [t]).value;
      Keys(after) == if TokenKey(t) in Keys(before) then Keys(before) else Keys(before) + [TokenKey(t)]
  {
    assert (tokens + [t])[..|tokens|] == tokens;
  }
}
