/** Options that take two arguments per occurrence (`--regex PATTERN TEMPLATE`,
    `--exif TAG VALUE`, ...), given as a list of pairs, a list of dicts, or a
    flat list. */
module Pairs {
  import opened PyModel
  import opened Flags
  import opened Emit

  /** The dict keys of the object form of each pair option, in the order
      their values are emitted. */
  const PairKeyMap: map<string, seq<string>> := map[
    "regex" := ["pattern", "template"],
    "exif" := ["tag", "value"],
    "field" := ["field", "template"],
    "xattr_template" := ["attribute", "template"],
    "post_command" := ["category", "command"]
  ]

  /** Every option of the table names two different keys. */
  lemma PairKeyMapShape(name: string)
    requires name in PairKeyMap
    ensures |PairKeyMap[name]| == 2 && PairKeyMap[name][0] != PairKeyMap[name][1]
  {
  }

  /** One element of the list-of-pairs form: its length must be 2. */
  function TuplePair(name: string, pair: Item): Emission {
    match Len(pair)
    case None => Fail(TypeError)
    case Some(n) =>
      if n != 2 then Fail(PairLength(name, pair))
      else
        match PairValues(pair)
        case Err(e) => Fail(e)
        case Ok(ab) => Done([Flag(name)] + ab)
  }

  /** [str(pair[0]), str(pair[1])] for an element of length 2. */
  function PairValues(pair: Item): Result<seq<string>>
    requires Len(pair) == Some(2)
  {
    match IndexStr(pair, 0)
    case Err(e) => Err(e)
    case Ok(a) =>
      match IndexStr(pair, 1)
      case Err(e) => Err(e)
      case Ok(b) => Ok([a, b])
  }

  function TupleStep(name: string): Item -> Emission {
    pair => TuplePair(name, pair)
  }

  /** One element of the list-of-dicts form: every key of the table must be
      present; the values are taken in table order. */
  function ObjectPair(name: string, keys: seq<string>, obj: Item): Emission {
    match MissingKeys(keys, obj)
    case Err(e) => Fail(e)
    case Ok(missing) =>
      if missing != [] then Fail(PairMissingKeys(name, missing))
      else
        match GetStrs(obj, keys)
        case Err(e) => Fail(e)
        case Ok(vs) => Done([Flag(name)] + vs)
  }

  function ObjectStep(name: string, keys: seq<string>): Item -> Emission {
    obj => ObjectPair(name, keys, obj)
  }

  /** The flat form: an even number of values, taken two at a time. */
  function FlatPairs(name: string, value: Value): Emission {
    match FlatStrs(value)
    case Err(e) => Fail(e)
    case Ok(flat) =>
      if |flat| % 2 != 0 then Fail(PairOddCount(name, |flat|))
      else Done(Runs(Flag(name), flat, 2))
  }

  /** What `_append_multi_arg_pairs(cmd, name, value)` appends to cmd, and
      the exception it raises, if any. */
  function PairArgs(name: string, value: Value): (r: Emission)
    ensures !Truthy(value) ==> r == Done([])
    ensures !FirstIsSeq(value) && !FirstIsDict(value) && r.error.Some? ==> r.tokens == []
  {
    if !Truthy(value) then Done([])
    else if FirstIsSeq(value) then Each(TupleStep(name), value.items)
    else if FirstIsDict(value) then
      if name !in PairKeyMap then Fail(NoObjectForm(name))
      else Each(ObjectStep(name, PairKeyMap[name]), value.items)
    else FlatPairs(name, value)
  }

  /** `_append_multi_arg_pairs`: extends cmd in place. The loops over pairs
      and dicts append entry by entry, so an entry that raises leaves the
      entries before it on cmd. */
  method AppendMultiArgPairs(cmd: Argv, name: string, value: Value) returns (err: Option<Error>)
    modifies cmd
    ensures cmd.tokens == old(cmd.tokens) + PairArgs(name, value).tokens
    ensures err == PairArgs(name, value).error
  {
    if !Truthy(value) {
      return None;
    }
    if FirstIsSeq(value) {
      var appended;
      appended, err := TuplePairsLoop(name, value.items);
      cmd.Extend(appended);
    } else if FirstIsDict(value) {
      if name !in PairKeyMap {
        return Some(NoObjectForm(name));
      }
      var appended;
      appended, err := ObjectPairsLoop(name, PairKeyMap[name], value.items);
      cmd.Extend(appended);
    } else {
      err := AppendPairFlat(cmd, name, value);
    }
  }

  /** The loop over a list of pairs: what it appends, pair after pair, up to
      and including the pair that raises. */
  method TuplePairsLoop(name: string, pairs: seq<Item>) returns (appended: seq<string>, err: Option<Error>)
    ensures appended == Each(TupleStep(name), pairs).tokens
    ensures err == Each(TupleStep(name), pairs).error
  {
    ghost var step := TupleStep(name);
    appended := [];
    var i := 0;
    while i < |pairs|
      invariant 0 <= i <= |pairs|
      invariant Each(step, pairs) == Then(Done(appended), Each(step, pairs[i..]))
    {
      EachAdvance(step, pairs, i, appended);
      var here := TuplePair(name, pairs[i]);
      appended := appended + here.tokens;
      if here.error.Some? {
        return appended, here.error;
      }
      i := i + 1;
    }
    EachEnd(step, pairs);
    return appended, None;
  }

  /** The loop over a list of dicts, with the keys of the table. */
  method ObjectPairsLoop(name: string, keys: seq<string>, objs: seq<Item>) returns (appended: seq<string>, err: Option<Error>)
    ensures appended == Each(ObjectStep(name, keys), objs).tokens
    ensures err == Each(ObjectStep(name, keys), objs).error
  {
    ghost var step := ObjectStep(name, keys);
    appended := [];
    var i := 0;
    while i < |objs|
      invariant 0 <= i <= |objs|
      invariant Each(step, objs) == Then(Done(appended), Each(step, objs[i..]))
    {
      EachAdvance(step, objs, i, appended);
      var here := ObjectPair(name, keys, objs[i]);
      appended := appended + here.tokens;
      if here.error.Some? {
        return appended, here.error;
      }
      i := i + 1;
    }
    EachEnd(step, objs);
    return appended, None;
  }

  /** The flat form: the length check comes before the loop. */
  method AppendPairFlat(cmd: Argv, name: string, value: Value) returns (err: Option<Error>)
    modifies cmd
    ensures cmd.tokens == old(cmd.tokens) + FlatPairs(name, value).tokens
    ensures err == FlatPairs(name, value).error
  {
    var strs := FlatStrs(value);
    if strs.Err? {
      return Some(strs.error);
    }
    var flat := strs.value;
    if |flat| % 2 != 0 {
      return Some(PairOddCount(name, |flat|));
    }
    cmd.AppendRuns(Flag(name), flat, 2);
    return None;
  }

  // ----- the three input forms, built from the same pairs -----

  /** The tokens for a sequence of pairs: the flag, then the two values as
      str() prints them, once per pair in order. */
  function PairTokens(flag: string, pairs: seq<(Scalar, Scalar)>): seq<string>
    decreases |pairs|
  {
    if pairs == [] then []
    else [flag, ScalarStr(pairs[0].0), ScalarStr(pairs[0].1)] + PairTokens(flag, pairs[1..])
  }

  /** [[a, b], ...] */
  function AsTuples(pairs: seq<(Scalar, Scalar)>): seq<Item> {
    seq(|pairs|, i requires 0 <= i < |pairs| => Items([pairs[i].0, pairs[i].1]))
  }

  /** [a, b, ...] */
  function AsFlat(pairs: seq<(Scalar, Scalar)>): seq<Item>
    decreases |pairs|
  {
    if pairs == [] then [] else [Atom(pairs[0].0), Atom(pairs[0].1)] + AsFlat(pairs[1..])
  }

  /** [{k0: a, k1: b}, ...] */
  function AsObjects(keys: seq<string>, pairs: seq<(Scalar, Scalar)>): seq<Item>
    requires |keys| == 2
  {
    seq(|pairs|, i requires 0 <= i < |pairs| => Object([(keys[0], pairs[i].0), (keys[1], pairs[i].1)]))
  }

  lemma {:induction false} EachTuplePairs(name: string, pairs: seq<(Scalar, Scalar)>)
    ensures Each(TupleStep(name), AsTuples(pairs)) == Done(PairTokens(Flag(name), pairs))
    decreases |pairs|
  {
    if pairs != [] {
      assert AsTuples(pairs)[1..] == AsTuples(pairs[1..]);
      EachTuplePairs(name, pairs[1..]);
    }
  }

  /** A dict holding exactly the two keys of the table gives `--flag a b`. */
  lemma ObjectPairOfTwoKeys(name: string, keys: seq<string>, a: Scalar, b: Scalar)
    requires |keys| == 2 && keys[0] != keys[1]
    ensures ObjectPair(name, keys, Object([(keys[0], a), (keys[1], b)])) == Done([Flag(name), ScalarStr(a), ScalarStr(b)])
  {
    var es := [(keys[0], a), (keys[1], b)];
    var obj := Object(es);
    assert es[1..] == [(keys[1], b)] && es[1..][1..] == [];
    assert HasKey(es, keys[0]) && Lookup(es, keys[0]) == a;
    assert HasKey(es[1..], keys[1]) && Lookup(es[1..], keys[1]) == b;
    assert HasKey(es, keys[1]) && Lookup(es, keys[1]) == b;
    assert keys[1..] == [keys[1]] && keys[1..][1..] == [];
    assert MissingKeys(keys[1..], obj) == Ok([]);
    assert MissingKeys(keys, obj) == Ok([]);
    assert GetStr(obj, keys[1..][0]) == Ok(ScalarStr(b));
    assert GetStrs(obj, keys[1..][1..]) == Ok([]);
    assert [ScalarStr(b)] + [] == [ScalarStr(b)] && [ScalarStr(a)] + [ScalarStr(b)] == [ScalarStr(a), ScalarStr(b)];
    assert GetStrs(obj, keys[1..]) == Ok([ScalarStr(b)]);
    assert GetStr(obj, keys[0]) == Ok(ScalarStr(a));
    assert GetStrs(obj, keys) == Ok([ScalarStr(a), ScalarStr(b)]);
  }

  lemma {:induction false} EachObjectPairs(name: string, keys: seq<string>, pairs: seq<(Scalar, Scalar)>)
    requires |keys| == 2 && keys[0] != keys[1]
    ensures Each(ObjectStep(name, keys), AsObjects(keys, pairs)) == Done(PairTokens(Flag(name), pairs))
    decreases |pairs|
  {
    if pairs != [] {
      assert AsObjects(keys, pairs)[0] == Object([(keys[0], pairs[0].0), (keys[1], pairs[0].1)]);
      ObjectPairOfTwoKeys(name, keys, pairs[0].0, pairs[0].1);
      assert AsObjects(keys, pairs)[1..] == AsObjects(keys, pairs[1..]);
      EachObjectPairs(name, keys, pairs[1..]);
    }
  }

  lemma {:induction false} FlatPairTokens(flag: string, pairs: seq<(Scalar, Scalar)>)
    ensures |ItemStrs(AsFlat(pairs))| == 2 * |pairs|
    ensures Runs(flag, ItemStrs(AsFlat(pairs)), 2) == PairTokens(flag, pairs)
    decreases |pairs|
  {
    if pairs != [] {
      FlatPairTokens(flag, pairs[1..]);
      var flat := ItemStrs(AsFlat(pairs));
      assert AsFlat(pairs)[2..] == AsFlat(pairs[1..]);
      assert flat[2..] == ItemStrs(AsFlat(pairs[1..]));
      assert flat[..2] == [ScalarStr(pairs[0].0), ScalarStr(pairs[0].1)];
      if |flat| == 2 {
        assert pairs[1..] == [];
      }
    }
  }

  /** The list of pairs, the flat list and (for the options of the table)
      the list of dicts holding the same values give the same tokens:
      `--flag a b` once per pair, in order. */
  lemma PairFormsAgree(name: string, pairs: seq<(Scalar, Scalar)>)
    ensures PairArgs(name, List(AsTuples(pairs))) == Done(PairTokens(Flag(name), pairs))
    ensures PairArgs(name, List(AsFlat(pairs))) == Done(PairTokens(Flag(name), pairs))
    ensures name in PairKeyMap ==>
      PairArgs(name, List(AsObjects(PairKeyMap[name], pairs))) == Done(PairTokens(Flag(name), pairs))
  {
    TupleFormTokens(name, pairs);
    FlatFormTokens(name, pairs);
    if name in PairKeyMap {
      ObjectFormTokens(name, pairs);
    }
  }

  lemma TupleFormTokens(name: string, pairs: seq<(Scalar, Scalar)>)
    ensures PairArgs(name, List(AsTuples(pairs))) == Done(PairTokens(Flag(name), pairs))
  {
    EachTuplePairs(name, pairs);
  }

  lemma FlatFormTokens(name: string, pairs: seq<(Scalar, Scalar)>)
    ensures PairArgs(name, List(AsFlat(pairs))) == Done(PairTokens(Flag(name), pairs))
  {
    var v := List(AsFlat(pairs));
    FlatPairTokens(Flag(name), pairs);
    AsFlatShape(pairs);
    if pairs != [] {
      assert AsFlat(pairs)[0].Atom?;
    }
    ModUnique(2 * |pairs|, 2, |pairs|, 0);
    assert FlatPairs(name, v) == Done(PairTokens(Flag(name), pairs));
  }

  lemma ObjectFormTokens(name: string, pairs: seq<(Scalar, Scalar)>)
    requires name in PairKeyMap
    ensures PairArgs(name, List(AsObjects(PairKeyMap[name], pairs))) == Done(PairTokens(Flag(name), pairs))
  {
    PairKeyMapShape(name);
    EachObjectPairs(name, PairKeyMap[name], pairs);
  }

  // ----- errors -----

  /** A pair of the wrong length raises, after the pairs before it have been
      appended. */
  lemma TuplePairsKeepEarlierEntries(name: string, good: seq<(Scalar, Scalar)>, bad: seq<Scalar>, rest: seq<Item>)
    requires |bad| != 2
    ensures PairArgs(name, List(AsTuples(good) + [Items(bad)] + rest))
         == Emission(PairTokens(Flag(name), good), Some(PairLength(name, Items(bad))))
  {
    var items := AsTuples(good) + [Items(bad)] + rest;
    assert items[0].Items?;
    EachTuplePairs(name, good);
    assert items == AsTuples(good) + ([Items(bad)] + rest);
    EachConcat(TupleStep(name), AsTuples(good), [Items(bad)] + rest);
  }

  /** A dict that lacks a key raises before anything of it is appended,
      naming exactly the keys it lacks, in the order of keys. */
  lemma ObjectPairMissingKeys(name: string, keys: seq<string>, es: seq<(string, Scalar)>)
    requires exists k :: k in keys && !HasKey(es, k)
    ensures var r := ObjectPair(name, keys, Object(es));
      && r.tokens == [] && r.error.Some? && r.error.value.PairMissingKeys? && r.error.value.name == name
      && IsSubsequence(r.error.value.missing, keys)
      && forall k :: k in r.error.value.missing <==> k in keys && !HasKey(es, k)
  {
    MissingKeysSpec(keys, Object(es));
    var k :| k in keys && !HasKey(es, k);
    assert k in MissingKeys(keys, Object(es)).value;
  }

  /** The list-of-dicts loop over dicts that hold the keys, then one that
      lacks some: the earlier dicts are appended, then the loop raises. */
  lemma ObjectLoopStopsAtMissingKeys(name: string, keys: seq<string>, good: seq<(Scalar, Scalar)>, es: seq<(string, Scalar)>, rest: seq<Item>)
    requires |keys| == 2 && keys[0] != keys[1]
    requires !HasKey(es, keys[0]) || !HasKey(es, keys[1])
    ensures Each(ObjectStep(name, keys), AsObjects(keys, good) + [Object(es)] + rest)
         == Emission(PairTokens(Flag(name), good), ObjectPair(name, keys, Object(es)).error)
    ensures ObjectPair(name, keys, Object(es)).error.Some?
  {
    var objs := AsObjects(keys, good);
    EachObjectPairs(name, keys, good);
    assert objs + [Object(es)] + rest == objs + ([Object(es)] + rest);
    EachConcat(ObjectStep(name, keys), objs, [Object(es)] + rest);
    assert keys[0] in keys && keys[1] in keys;
    ObjectPairMissingKeys(name, keys, es);
    EachStep(ObjectStep(name, keys), [Object(es)] + rest, 0);
    assert ([Object(es)] + rest)[0] == Object(es);
  }

  /** A dict that lacks keys of the table raises, naming exactly the keys it
      lacks, in table order, after the dicts before it have been appended. */
  lemma ObjectPairsReportMissingKeys(name: string, good: seq<(Scalar, Scalar)>, es: seq<(string, Scalar)>, rest: seq<Item>)
    requires name in PairKeyMap
    requires !HasKey(es, PairKeyMap[name][0]) || !HasKey(es, PairKeyMap[name][1])
    ensures var r := PairArgs(name, List(AsObjects(PairKeyMap[name], good) + [Object(es)] + rest));
      && r.tokens == PairTokens(Flag(name), good)
      && r.error.Some? && r.error.value.PairMissingKeys? && r.error.value.name == name
      && IsSubsequence(r.error.value.missing, PairKeyMap[name])
      && forall k :: k in r.error.value.missing <==> k in PairKeyMap[name] && !HasKey(es, k)
  {
    var keys := PairKeyMap[name];
    PairKeyMapShape(name);
    var items := AsObjects(keys, good) + [Object(es)] + rest;
    ObjectsFirstIsDict(keys, good, es, rest);
    assert PairArgs(name, List(items)) == Each(ObjectStep(name, keys), items);
    ObjectListReportsMissingKeys(name, keys, good, es, rest);
  }

  lemma ObjectsFirstIsDict(keys: seq<string>, good: seq<(Scalar, Scalar)>, es: seq<(string, Scalar)>, rest: seq<Item>)
    requires |keys| == 2
    ensures FirstIsDict(List(AsObjects(keys, good) + [Object(es)] + rest))
  {
    var items := AsObjects(keys, good) + [Object(es)] + rest;
    if good == [] { assert items[0] == Object(es); } else { assert items[0] == AsObjects(keys, good)[0]; }
  }

  lemma ObjectListReportsMissingKeys(name: string, keys: seq<string>, good: seq<(Scalar, Scalar)>, es: seq<(string, Scalar)>, rest: seq<Item>)
    requires |keys| == 2 && keys[0] != keys[1]
    requires !HasKey(es, keys[0]) || !HasKey(es, keys[1])
    ensures var r := Each(ObjectStep(name, keys), AsObjects(keys, good) + [Object(es)] + rest);
      && r.tokens == PairTokens(Flag(name), good)
      && r.error.Some? && r.error.value.PairMissingKeys? && r.error.value.name == name
      && IsSubsequence(r.error.value.missing, keys)
      && forall k :: k in r.error.value.missing <==> k in keys && !HasKey(es, k)
  {
    ObjectLoopStopsAtMissingKeys(name, keys, good, es, rest);
    assert keys[0] in keys && keys[1] in keys;
    ObjectPairMissingKeys(name, keys, es);
  }

  lemma {:induction false} AsFlatShape(pairs: seq<(Scalar, Scalar)>)
    ensures |AsFlat(pairs)| == 2 * |pairs|
    ensures forall j :: 0 <= j < |AsFlat(pairs)| ==> AsFlat(pairs)[j].Atom?
    decreases |pairs|
  {
    if pairs != [] {
      AsFlatShape(pairs[1..]);
      var rest := AsFlat(pairs[1..]);
      forall j | 0 <= j < |AsFlat(pairs)| ensures AsFlat(pairs)[j].Atom? {
        if j >= 2 { assert AsFlat(pairs)[j] == rest[j - 2]; }
      }
    }
  }

  /** An odd number of flat values raises before anything is appended. */
  lemma FlatOddCountRejected(name: string, pairs: seq<(Scalar, Scalar)>, last: Scalar)
    ensures PairArgs(name, List(AsFlat(pairs) + [Atom(last)]))
         == Fail(PairOddCount(name, 2 * |pairs| + 1))
  {
    var items := AsFlat(pairs) + [Atom(last)];
    var v := List(items);
    AsFlatShape(pairs);
    assert items[0].Atom?;
    assert Truthy(v) && !FirstIsSeq(v) && !FirstIsDict(v);
    assert |ItemStrs(items)| == 2 * |pairs| + 1;
    ModUnique(2 * |pairs| + 1, 2, |pairs|, 1);
    assert FlatPairs(name, v) == Fail(PairOddCount(name, 2 * |pairs| + 1));
  }

  /** Only the options of the table accept the list-of-dicts form; any other
      name raises "does not support object form", and those of the table
      never raise it. */
  lemma PairObjectFormOnlyForTable(name: string, value: Value)
    requires FirstIsDict(value)
    ensures PairArgs(name, value).error == Some(NoObjectForm(name)) <==> name !in PairKeyMap
  {
    if name in PairKeyMap {
      ObjectLoopNeverRejectsForm(name, PairKeyMap[name], value.items);
    }
  }

  /** The loop over dicts raises only what a dict raises, and no dict raises
      "does not support object form". */
  lemma ObjectLoopNeverRejectsForm(name: string, keys: seq<string>, objs: seq<Item>)
    ensures !(var e := Each(ObjectStep(name, keys), objs).error; e.Some? && e.value.NoObjectForm?)
  {
    var step := ObjectStep(name, keys);
    if Each(step, objs).error.Some? {
      EachErrorFromElement(step, objs);
      var j :| 0 <= j < |objs| && step(objs[j]).error == Each(step, objs).error;
      MissingKeysSpec(keys, objs[j]);
      GetStrsSpec(objs[j], keys);
    }
  }

  /** The values of a dict are read by key: dicts that agree on the keys of
      the table give the same tokens and the same exception. */
  lemma ObjectPairReadsOnlyTableKeys(name: string, keys: seq<string>, es1: seq<(string, Scalar)>, es2: seq<(string, Scalar)>)
    requires AgreeOn(es1, es2, keys)
    ensures ObjectPair(name, keys, Object(es1)) == ObjectPair(name, keys, Object(es2))
  {
    MissingKeysAgree(keys, es1, es2);
  }

  /** Extra dict keys are ignored, wherever they stand. */
  lemma ObjectPairIgnoresOtherKeys(name: string, keys: seq<string>, es: seq<(string, Scalar)>, extra: seq<(string, Scalar)>)
    requires forall j :: 0 <= j < |extra| ==> extra[j].0 !in keys
    ensures ObjectPair(name, keys, Object(es + extra)) == ObjectPair(name, keys, Object(es))
    ensures ObjectPair(name, keys, Object(extra + es)) == ObjectPair(name, keys, Object(es))
  {
    forall k | k in keys ensures !HasKey(extra, k) {
      NoKeyOutside(extra, k);
    }
    forall k | k in keys ensures HasKey(es + extra, k) == HasKey(es, k) && HasKey(extra + es, k) == HasKey(es, k) {
      LookupConcat(es, extra, k);
      LookupConcat(extra, es, k);
    }
    assert AgreeOn(es + extra, es, keys) by {
      forall k | k in keys ensures HasKey(es + extra, k) ==> Lookup(es + extra, k) == Lookup(es, k) {
        LookupConcat(es, extra, k);
      }
    }
    assert AgreeOn(extra + es, es, keys) by {
      forall k | k in keys ensures HasKey(extra + es, k) ==> Lookup(extra + es, k) == Lookup(es, k) {
        LookupConcat(extra, es, k);
      }
    }
    ObjectPairReadsOnlyTableKeys(name, keys, es + extra, es);
    ObjectPairReadsOnlyTableKeys(name, keys, extra + es, es);
  }

  lemma {:induction false} NoKeyOutside(es: seq<(string, Scalar)>, k: string)
    requires forall j :: 0 <= j < |es| ==> es[j].0 != k
    ensures !HasKey(es, k)
    decreases |es|
  {
    if es != [] {
      assert es[0].0 != k;
      NoKeyOutside(es[1..], k);
    }
  }

  lemma TupleFormShape(name: string, items: seq<Item>)
    ensures Occurrences(Flag(name), 2, Each(TupleStep(name), items).tokens)
  {
    forall j | 0 <= j < |items| ensures Occurrences(Flag(name), 2, TupleStep(name)(items[j]).tokens) {
      assert TuplePair(name, items[j]).tokens == [] || |TuplePair(name, items[j]).tokens| == 3;
    }
    EachOccurrences(TupleStep(name), items, Flag(name), 2);
  }

  lemma ObjectFormShape(name: string, keys: seq<string>, items: seq<Item>)
    requires |keys| == 2
    ensures Occurrences(Flag(name), 2, Each(ObjectStep(name, keys), items).tokens)
  {
    forall j | 0 <= j < |items| ensures Occurrences(Flag(name), 2, ObjectStep(name, keys)(items[j]).tokens) {
      var t := ObjectPair(name, keys, items[j]).tokens;
      GetStrsSpec(items[j], keys);
      assert t == [] || (|t| == 3 && t[0] == Flag(name));
      if t != [] { assert t[3..] == []; }
    }
    EachOccurrences(ObjectStep(name, keys), items, Flag(name), 2);
  }

  /** Whatever the input, what is appended is whole occurrences of
      `--flag a b`. */
  lemma PairArgsShape(name: string, value: Value)
    ensures Occurrences(Flag(name), 2, PairArgs(name, value).tokens)
  {
    if !Truthy(value) {
    } else if FirstIsSeq(value) {
      TupleFormShape(name, value.items);
    } else if FirstIsDict(value) {
      if name in PairKeyMap {
        PairKeyMapShape(name);
        ObjectFormShape(name, PairKeyMap[name], value.items);
      }
    } else if FlatStrs(value).Ok? && |FlatStrs(value).value| % 2 == 0 {
      RunsOccurrences(Flag(name), FlatStrs(value).value, 2);
    }
  }

  // ----- examples of the test suite -----

  /** A list of pairs: `--exif Make Apple --exif Model iPhone`. */
  lemma ExifPairsExample()
    ensures PairArgs("exif", List([Items([Str("Make"), Str("Apple")]), Items([Str("Model"), Str("iPhone")])]))
         == Done(["--exif", "Make", "Apple", "--exif", "Model", "iPhone"])
  {
    var exif := [(Str("Make"), Str("Apple")), (Str("Model"), Str("iPhone"))];
    TupleFormTokens("exif", exif);
    assert AsTuples(exif) == [Items([Str("Make"), Str("Apple")]), Items([Str("Model"), Str("iPhone")])];
    FlagOfPlainName("exif");
    assert Flag("exif") == "--exif";
    assert exif[1..] == [(Str("Model"), Str("iPhone"))] && exif[1..][1..] == [];
    assert PairTokens("--exif", exif[1..]) == ["--exif", "Model", "iPhone"];
    assert PairTokens("--exif", exif) == ["--exif", "Make", "Apple", "--exif", "Model", "iPhone"];
  }

  /** A dict of the object form may list its keys in any order. */
  lemma ExifObjectExample()
    ensures PairArgs("exif", List([Object([("value", Str("Apple")), ("tag", Str("Make"))])]))
         == Done(["--exif", "Make", "Apple"])
  {
    var keys := PairKeyMap["exif"];
    var es := [("value", Str("Apple")), ("tag", Str("Make"))];
    var ordered := [("tag", Str("Make")), ("value", Str("Apple"))];
    assert keys == ["tag", "value"];
    assert AgreeOn(es, ordered, keys);
    ObjectPairReadsOnlyTableKeys("exif", keys, es, ordered);
    ObjectPairOfTwoKeys("exif", keys, Str("Make"), Str("Apple"));
    FlagOfPlainName("exif");
    assert Flag("exif") == "--exif";
    assert [Object(es)][1..] == [];
    assert Each(ObjectStep("exif", keys), [Object(es)]) == Then(ObjectPair("exif", keys, Object(es)), Done([]));
    assert PairTokens("--exif", [(Str("Make"), Str("Apple"))]) == ["--exif", "Make", "Apple"];
  }

  /** One flat value is an odd count. */
  lemma OddFlatExample()
    ensures PairArgs("regex", List([Atom(Str("a"))])) == Fail(PairOddCount("regex", 1))
  {
    FlatOddCountRejected("regex", [], Str("a"));
    assert AsFlat([]) + [Atom(Str("a"))] == [Atom(Str("a"))];
  }

  /** A triple where a pair is expected. */
  lemma TripleExample()
    ensures PairArgs("regex", List([Items([Str("a"), Str("b"), Str("c")])]))
         == Fail(PairLength("regex", Items([Str("a"), Str("b"), Str("c")])))
  {
    TuplePairsKeepEarlierEntries("regex", [], [Str("a"), Str("b"), Str("c")], []);
    assert AsTuples([]) + [Items([Str("a"), Str("b"), Str("c")])] + [] == [Items([Str("a"), Str("b"), Str("c")])];
  }

  /** "keyword" has no object form. */
  lemma KeywordObjectExample()
    ensures PairArgs("keyword", List([Object([])])) == Fail(NoObjectForm("keyword"))
  {
  }
}
