/** Options that take a fixed number of arguments per occurrence
    (`--sidecar-template MAKO_TEMPLATE_FILE SIDECAR_FILENAME_TEMPLATE OPTIONS`),
    given as a list of groups, a list of dicts, or a flat list. */
module Groups {
  import opened PyModel
  import opened Flags
  import opened Emit

  /** The only option with an object form, and the dict keys of that form in
      the order their values are emitted. */
  const SidecarName := "sidecar_template"
  const SidecarKeys: seq<string> := ["mako_template", "filename_template", "options"]

  lemma SidecarKeysDistinct()
    ensures |SidecarKeys| == 3
    ensures SidecarKeys[0] != SidecarKeys[1] && SidecarKeys[0] != SidecarKeys[2] && SidecarKeys[1] != SidecarKeys[2]
  {
    assert SidecarKeys[0][0] == 'm' && SidecarKeys[1][0] == 'f' && SidecarKeys[2][0] == 'o';
  }

  /** One element of the list-of-groups form: its length must be the arity.
      The flag is appended before the values are converted. */
  function TupleGroup(name: string, arity: nat, group: Item): Emission {
    match Len(group)
    case None => Fail(TypeError)
    case Some(n) =>
      if n != arity then Fail(GroupLength(name, arity, group, n))
      else
        match IterStr(group)
        case Err(e) => Emission([Flag(name)], Some(e))
        case Ok(vs) => Done([Flag(name)] + vs)
  }

  function TupleGroupStep(name: string, arity: nat): Item -> Emission {
    group => TupleGroup(name, arity, group)
  }

  /** One element of the list-of-dicts form: all three keys must be present.
      The flag is appended before the values are looked up, so a value that
      answers `in` but cannot be indexed by a string leaves the flag behind. */
  function ObjectGroup(name: string, obj: Item): Emission {
    match MissingKeys(SidecarKeys, obj)
    case Err(e) => Fail(e)
    case Ok(missing) =>
      if missing != [] then Fail(GroupMissingKeys(missing))
      else
        match GetStrs(obj, SidecarKeys)
        case Err(e) => Emission([Flag(name)], Some(e))
        case Ok(vs) => Done([Flag(name)] + vs)
  }

  function ObjectGroupStep(name: string): Item -> Emission {
    obj => ObjectGroup(name, obj)
  }

  /** The flat form: a number of values that is a multiple of the arity,
      taken arity at a time. An arity of zero fails on the modulo. */
  function FlatGroups(name: string, arity: nat, value: Value): Emission {
    match FlatStrs(value)
    case Err(e) => Fail(e)
    case Ok(flat) =>
      if arity == 0 then Fail(ZeroDivision)
      else if |flat| % arity != 0 then Fail(GroupCount(name, arity, |flat|))
      else Done(Runs(Flag(name), flat, arity))
  }

  /** What `_append_multi_arg_group(cmd, name, value, arity)` appends to cmd,
      and the exception it raises, if any. */
  function GroupArgs(name: string, arity: nat, value: Value): Emission {
    if !Truthy(value) then Done([])
    else if FirstIsSeq(value) then Each(TupleGroupStep(name, arity), value.items)
    else if FirstIsDict(value) then
      if name != SidecarName then Fail(NoObjectForm(name))
      else Each(ObjectGroupStep(name), value.items)
    else FlatGroups(name, arity, value)
  }

  /** `_append_multi_arg_group`: extends cmd in place. */
  method AppendMultiArgGroup(cmd: Argv, name: string, value: Value, arity: nat) returns (err: Option<Error>)
    modifies cmd
    ensures cmd.tokens == old(cmd.tokens) + GroupArgs(name, arity, value).tokens
    ensures err == GroupArgs(name, arity, value).error
  {
    if !Truthy(value) {
      return None;
    }
    if FirstIsSeq(value) {
      var appended;
      appended, err := TupleGroupsLoop(name, arity, value.items);
      cmd.Extend(appended);
    } else if FirstIsDict(value) {
      if name != SidecarName {
        return Some(NoObjectForm(name));
      }
      var appended;
      appended, err := ObjectGroupsLoop(name, value.items);
      cmd.Extend(appended);
    } else {
      err := AppendGroupFlat(cmd, name, arity, value);
    }
  }

  /** The loop over a list of groups: what it appends, group after group, up
      to and including the group that raises. */
  method TupleGroupsLoop(name: string, arity: nat, groups: seq<Item>) returns (appended: seq<string>, err: Option<Error>)
    ensures appended == Each(TupleGroupStep(name, arity), groups).tokens
    ensures err == Each(TupleGroupStep(name, arity), groups).error
  {
    ghost var step := TupleGroupStep(name, arity);
    appended := [];
    var i := 0;
    while i < |groups|
      invariant 0 <= i <= |groups|
      invariant Each(step, groups) == Then(Done(appended), Each(step, groups[i..]))
    {
      EachAdvance(step, groups, i, appended);
      var here := TupleGroup(name, arity, groups[i]);
      appended := appended + here.tokens;
      if here.error.Some? {
        return appended, here.error;
      }
      i := i + 1;
    }
    EachEnd(step, groups);
    return appended, None;
  }

  /** The loop over a list of dicts. */
  method ObjectGroupsLoop(name: string, objs: seq<Item>) returns (appended: seq<string>, err: Option<Error>)
    ensures appended == Each(ObjectGroupStep(name), objs).tokens
    ensures err == Each(ObjectGroupStep(name), objs).error
  {
    ghost var step := ObjectGroupStep(name);
    appended := [];
    var i := 0;
    while i < |objs|
      invariant 0 <= i <= |objs|
      invariant Each(step, objs) == Then(Done(appended), Each(step, objs[i..]))
    {
      EachAdvance(step, objs, i, appended);
      var here := ObjectGroup(name, objs[i]);
      appended := appended + here.tokens;
      if here.error.Some? {
        return appended, here.error;
      }
      i := i + 1;
    }
    EachEnd(step, objs);
    return appended, None;
  }

  /** The flat form: the count check comes before the loop. */
  method AppendGroupFlat(cmd: Argv, name: string, arity: nat, value: Value) returns (err: Option<Error>)
    modifies cmd
    ensures cmd.tokens == old(cmd.tokens) + FlatGroups(name, arity, value).tokens
    ensures err == FlatGroups(name, arity, value).error
  {
    var strs := FlatStrs(value);
    if strs.Err? {
      return Some(strs.error);
    }
    var flat := strs.value;
    if arity == 0 {
      return Some(ZeroDivision);
    }
    if |flat| % arity != 0 {
      return Some(GroupCount(name, arity, |flat|));
    }
    cmd.AppendRuns(Flag(name), flat, arity);
    return None;
  }

  // ----- the three input forms, built from the same groups -----

  /** The tokens for a sequence of groups: the flag, then the values of the
      group as str() prints them, once per group in order. */
  function GroupTokens(flag: string, groups: seq<seq<Scalar>>): seq<string>
    decreases |groups|
  {
    if groups == [] then []
    else [flag] + ScalarStrs(groups[0]) + GroupTokens(flag, groups[1..])
  }

  predicate AllOfArity(groups: seq<seq<Scalar>>, arity: nat) {
    forall j :: 0 <= j < |groups| ==> |groups[j]| == arity
  }

  /** [[a, b, c], ...] */
  function AsGroupLists(groups: seq<seq<Scalar>>): seq<Item> {
    seq(|groups|, i requires 0 <= i < |groups| => Items(groups[i]))
  }

  function Atoms(xs: seq<Scalar>): (r: seq<Item>)
    ensures |r| == |xs|
  {
    seq(|xs|, i requires 0 <= i < |xs| => Atom(xs[i]))
  }

  /** [a, b, c, ...] */
  function AsGroupFlat(groups: seq<seq<Scalar>>): seq<Item>
    decreases |groups|
  {
    if groups == [] then [] else Atoms(groups[0]) + AsGroupFlat(groups[1..])
  }

  /** [{mako_template: a, filename_template: b, options: c}, ...] */
  function AsSidecarObjects(triples: seq<(Scalar, Scalar, Scalar)>): seq<Item> {
    seq(|triples|, i requires 0 <= i < |triples| =>
      Object([(SidecarKeys[0], triples[i].0), (SidecarKeys[1], triples[i].1), (SidecarKeys[2], triples[i].2)]))
  }

  function TripleGroups(triples: seq<(Scalar, Scalar, Scalar)>): seq<seq<Scalar>> {
    seq(|triples|, i requires 0 <= i < |triples| => [triples[i].0, triples[i].1, triples[i].2])
  }

  lemma {:induction false} EachTupleGroups(name: string, arity: nat, groups: seq<seq<Scalar>>)
    requires AllOfArity(groups, arity)
    ensures Each(TupleGroupStep(name, arity), AsGroupLists(groups)) == Done(GroupTokens(Flag(name), groups))
    decreases |groups|
  {
    if groups != [] {
      assert AsGroupLists(groups)[0] == Items(groups[0]);
      assert AsGroupLists(groups)[1..] == AsGroupLists(groups[1..]);
      assert AllOfArity(groups[1..], arity) by {
        forall j | 0 <= j < |groups[1..]| ensures |groups[1..][j]| == arity {
          assert groups[1..][j] == groups[j + 1];
        }
      }
      EachTupleGroups(name, arity, groups[1..]);
    }
  }

  lemma ItemStrsConcat(a: seq<Item>, b: seq<Item>)
    ensures ItemStrs(a + b) == ItemStrs(a) + ItemStrs(b)
  {
    var l, r := ItemStrs(a + b), ItemStrs(a) + ItemStrs(b);
    forall j | 0 <= j < |l| ensures l[j] == r[j] {
      if j < |a| { assert (a + b)[j] == a[j]; } else { assert (a + b)[j] == b[j - |a|]; }
    }
  }

  lemma AtomsStrs(xs: seq<Scalar>)
    ensures ItemStrs(Atoms(xs)) == ScalarStrs(xs)
  {
    var l, r := ItemStrs(Atoms(xs)), ScalarStrs(xs);
    forall j | 0 <= j < |l| ensures l[j] == r[j] {
      assert Atoms(xs)[j] == Atom(xs[j]);
    }
  }

  lemma {:induction false} FlatGroupTokens(flag: string, arity: nat, groups: seq<seq<Scalar>>)
    requires arity > 0 && AllOfArity(groups, arity)
    ensures |ItemStrs(AsGroupFlat(groups))| == arity * |groups|
    ensures Runs(flag, ItemStrs(AsGroupFlat(groups)), arity) == GroupTokens(flag, groups)
    decreases |groups|
  {
    if groups != [] {
      assert AllOfArity(groups[1..], arity) by {
        forall j | 0 <= j < |groups[1..]| ensures |groups[1..][j]| == arity {
          assert groups[1..][j] == groups[j + 1];
        }
      }
      FlatGroupTokens(flag, arity, groups[1..]);
      ItemStrsConcat(Atoms(groups[0]), AsGroupFlat(groups[1..]));
      AtomsStrs(groups[0]);
      var head, rest := ScalarStrs(groups[0]), ItemStrs(AsGroupFlat(groups[1..]));
      assert ItemStrs(AsGroupFlat(groups)) == head + rest;
      assert arity * |groups| == arity * |groups[1..]| + arity;
      RunsCons(flag, head, rest, arity);
    }
  }

  lemma AsGroupFlatFirst(groups: seq<seq<Scalar>>, arity: nat)
    requires arity > 0 && AllOfArity(groups, arity) && groups != []
    ensures AsGroupFlat(groups)[0].Atom?
  {
    assert |groups[0]| == arity;
    assert AsGroupFlat(groups)[0] == Atoms(groups[0])[0];
  }

  /** A dict with the three keys gives `--flag a b c`. */
  lemma ObjectGroupOfThreeKeys(name: string, a: Scalar, b: Scalar, c: Scalar)
    ensures ObjectGroup(name, Object([(SidecarKeys[0], a), (SidecarKeys[1], b), (SidecarKeys[2], c)]))
         == Done([Flag(name), ScalarStr(a), ScalarStr(b), ScalarStr(c)])
  {
    var es := [(SidecarKeys[0], a), (SidecarKeys[1], b), (SidecarKeys[2], c)];
    var obj := Object(es);
    var ks := SidecarKeys;
    assert es[1..] == [(ks[1], b), (ks[2], c)] && es[1..][1..] == [(ks[2], c)] && es[1..][1..][1..] == [];
    SidecarKeysDistinct();
    assert HasKey(es, ks[0]) && Lookup(es, ks[0]) == a;
    assert HasKey(es[1..], ks[1]) && Lookup(es[1..], ks[1]) == b;
    assert HasKey(es, ks[1]) && Lookup(es, ks[1]) == b;
    assert HasKey(es[1..][1..], ks[2]) && Lookup(es[1..][1..], ks[2]) == c;
    assert HasKey(es[1..], ks[2]) && Lookup(es[1..], ks[2]) == c;
    assert HasKey(es, ks[2]) && Lookup(es, ks[2]) == c;
    assert MissingKeys(ks, obj) == Ok([]);
    GetStrsSpec(obj, ks);
    var vs := GetStrs(obj, ks).value;
    assert vs == [ScalarStr(a), ScalarStr(b), ScalarStr(c)] by {
      assert GetStr(obj, ks[0]) == Ok(vs[0]);
      assert GetStr(obj, ks[1]) == Ok(vs[1]);
      assert GetStr(obj, ks[2]) == Ok(vs[2]);
    }
  }

  lemma {:induction false} EachSidecarObjects(name: string, triples: seq<(Scalar, Scalar, Scalar)>)
    ensures Each(ObjectGroupStep(name), AsSidecarObjects(triples)) == Done(GroupTokens(Flag(name), TripleGroups(triples)))
    decreases |triples|
  {
    if triples != [] {
      var t := triples[0];
      assert AsSidecarObjects(triples)[0] == Object([(SidecarKeys[0], t.0), (SidecarKeys[1], t.1), (SidecarKeys[2], t.2)]);
      ObjectGroupOfThreeKeys(name, t.0, t.1, t.2);
      assert AsSidecarObjects(triples)[1..] == AsSidecarObjects(triples[1..]);
      assert TripleGroups(triples)[0] == [t.0, t.1, t.2];
      assert TripleGroups(triples)[1..] == TripleGroups(triples[1..]);
      assert ScalarStrs([t.0, t.1, t.2]) == [ScalarStr(t.0), ScalarStr(t.1), ScalarStr(t.2)];
      EachSidecarObjects(name, triples[1..]);
    }
  }

  lemma TupleGroupFormTokens(name: string, arity: nat, groups: seq<seq<Scalar>>)
    requires AllOfArity(groups, arity)
    ensures GroupArgs(name, arity, List(AsGroupLists(groups))) == Done(GroupTokens(Flag(name), groups))
  {
    EachTupleGroups(name, arity, groups);
  }

  lemma FlatGroupFormTokens(name: string, arity: nat, groups: seq<seq<Scalar>>)
    requires arity > 0 && AllOfArity(groups, arity)
    ensures GroupArgs(name, arity, List(AsGroupFlat(groups))) == Done(GroupTokens(Flag(name), groups))
  {
    var v := List(AsGroupFlat(groups));
    FlatGroupTokens(Flag(name), arity, groups);
    if groups != [] {
      AsGroupFlatFirst(groups, arity);
    }
    ModUnique(arity * |groups|, arity, |groups|, 0);
    assert FlatGroups(name, arity, v) == Done(GroupTokens(Flag(name), groups));
  }

  lemma SidecarObjectFormTokens(arity: nat, triples: seq<(Scalar, Scalar, Scalar)>)
    ensures GroupArgs(SidecarName, arity, List(AsSidecarObjects(triples))) == Done(GroupTokens(Flag(SidecarName), TripleGroups(triples)))
  {
    EachSidecarObjects(SidecarName, triples);
  }

  /** The list of groups and the flat list holding the same values give the
      same tokens, `--flag v1 ... vN` once per group in order; for
      "sidecar_template" the list of dicts does too. */
  lemma GroupFormsAgree(name: string, arity: nat, groups: seq<seq<Scalar>>, triples: seq<(Scalar, Scalar, Scalar)>)
    requires arity > 0 && AllOfArity(groups, arity)
    ensures GroupArgs(name, arity, List(AsGroupLists(groups))) == Done(GroupTokens(Flag(name), groups))
    ensures GroupArgs(name, arity, List(AsGroupFlat(groups))) == Done(GroupTokens(Flag(name), groups))
    ensures GroupArgs(SidecarName, 3, List(AsSidecarObjects(triples))) == Done(GroupTokens(Flag(SidecarName), TripleGroups(triples)))
    ensures GroupArgs(SidecarName, 3, List(AsSidecarObjects(triples))) == GroupArgs(SidecarName, 3, List(AsGroupLists(TripleGroups(triples))))
  {
    TupleGroupFormTokens(name, arity, groups);
    FlatGroupFormTokens(name, arity, groups);
    SidecarObjectFormTokens(3, triples);
    TupleGroupFormTokens(SidecarName, 3, TripleGroups(triples));
  }

  // ----- errors -----

  /** A group of the wrong length raises, after the groups before it have
      been appended. */
  lemma TupleGroupsKeepEarlierEntries(name: string, arity: nat, good: seq<seq<Scalar>>, bad: seq<Scalar>, rest: seq<Item>)
    requires AllOfArity(good, arity) && |bad| != arity
    ensures GroupArgs(name, arity, List(AsGroupLists(good) + [Items(bad)] + rest))
         == Emission(GroupTokens(Flag(name), good), Some(GroupLength(name, arity, Items(bad), |bad|)))
  {
    var lists := AsGroupLists(good);
    var items := lists + [Items(bad)] + rest;
    assert items[0].Items? by {
      if good == [] { assert items[0] == Items(bad); } else { assert items[0] == lists[0]; }
    }
    EachTupleGroups(name, arity, good);
    assert items == lists + ([Items(bad)] + rest);
    EachConcat(TupleGroupStep(name, arity), lists, [Items(bad)] + rest);
    EachStep(TupleGroupStep(name, arity), [Items(bad)] + rest, 0);
    assert ([Items(bad)] + rest)[0] == Items(bad);
  }

  /** A dict that lacks some of the three keys raises before anything of it
      is appended, naming exactly the keys it lacks, in key order. */
  lemma ObjectGroupMissingKeys(name: string, es: seq<(string, Scalar)>)
    requires exists k :: k in SidecarKeys && !HasKey(es, k)
    ensures var r := ObjectGroup(name, Object(es));
      && r.tokens == [] && r.error.Some? && r.error.value.GroupMissingKeys?
      && IsSubsequence(r.error.value.missing, SidecarKeys)
      && forall k :: k in r.error.value.missing <==> k in SidecarKeys && !HasKey(es, k)
  {
    MissingKeysSpec(SidecarKeys, Object(es));
    var k :| k in SidecarKeys && !HasKey(es, k);
    assert k in MissingKeys(SidecarKeys, Object(es)).value;
  }

  lemma ObjectGroupLoopStops(good: seq<(Scalar, Scalar, Scalar)>, es: seq<(string, Scalar)>, rest: seq<Item>)
    requires ObjectGroup(SidecarName, Object(es)).error.Some?
    ensures Each(ObjectGroupStep(SidecarName), AsSidecarObjects(good) + [Object(es)] + rest)
         == Emission(GroupTokens(Flag(SidecarName), TripleGroups(good)) + ObjectGroup(SidecarName, Object(es)).tokens,
                     ObjectGroup(SidecarName, Object(es)).error)
  {
    var objs := AsSidecarObjects(good);
    EachSidecarObjects(SidecarName, good);
    assert objs + [Object(es)] + rest == objs + ([Object(es)] + rest);
    EachConcat(ObjectGroupStep(SidecarName), objs, [Object(es)] + rest);
    EachStep(ObjectGroupStep(SidecarName), [Object(es)] + rest, 0);
    assert ([Object(es)] + rest)[0] == Object(es);
  }

  /** In the list-of-dicts form, a dict that lacks keys raises after the
      dicts before it have been appended. */
  lemma ObjectGroupsReportMissingKeys(arity: nat, good: seq<(Scalar, Scalar, Scalar)>, es: seq<(string, Scalar)>, rest: seq<Item>)
    requires exists k :: k in SidecarKeys && !HasKey(es, k)
    ensures var r := GroupArgs(SidecarName, arity, List(AsSidecarObjects(good) + [Object(es)] + rest));
      && r.tokens == GroupTokens(Flag(SidecarName), TripleGroups(good))
      && r.error.Some? && r.error.value.GroupMissingKeys?
      && IsSubsequence(r.error.value.missing, SidecarKeys)
      && forall k :: k in r.error.value.missing <==> k in SidecarKeys && !HasKey(es, k)
  {
    var items := AsSidecarObjects(good) + [Object(es)] + rest;
    SidecarObjectsFirstIsDict(good, es, rest);
    assert GroupArgs(SidecarName, arity, List(items)) == Each(ObjectGroupStep(SidecarName), items);
    ObjectGroupMissingKeys(SidecarName, es);
    ObjectGroupLoopStops(good, es, rest);
    assert GroupTokens(Flag(SidecarName), TripleGroups(good)) + [] == GroupTokens(Flag(SidecarName), TripleGroups(good));
  }

  lemma SidecarObjectsFirstIsDict(good: seq<(Scalar, Scalar, Scalar)>, es: seq<(string, Scalar)>, rest: seq<Item>)
    ensures FirstIsDict(List(AsSidecarObjects(good) + [Object(es)] + rest))
  {
    var objs := AsSidecarObjects(good);
    var items := objs + [Object(es)] + rest;
    if good == [] { assert items[0] == Object(es); } else { assert items[0] == objs[0]; }
  }

  /** A str that contains each key as a substring passes the `in` test, so
      the flag is appended; looking a key up in it then raises TypeError. */
  lemma StrObjectLeavesFlag(name: string, s: string)
    requires forall k :: k in SidecarKeys ==> Contains(s, k)
    ensures ObjectGroup(name, Atom(Str(s))) == Emission([Flag(name)], Some(TypeError))
  {
    var ks := SidecarKeys;
    assert Contains(s, ks[0]) && Contains(s, ks[1]) && Contains(s, ks[2]);
    assert ks[1..][1..][1..] == [];
    assert MissingKeys(ks[1..][1..], Atom(Str(s))) == Ok([]);
    assert MissingKeys(ks[1..], Atom(Str(s))) == Ok([]);
    assert MissingKeys(ks, Atom(Str(s))) == Ok([]);
  }

  /** Such a str exists: the three keys written one after the other. After a
      valid dict, it leaves that dict's tokens and one more flag on cmd. */
  lemma StrObjectExample(arity: nat, t: (Scalar, Scalar, Scalar))
    ensures var s := SidecarKeys[0] + SidecarKeys[1] + SidecarKeys[2];
      GroupArgs(SidecarName, arity, List(AsSidecarObjects([t]) + [Atom(Str(s))]))
        == Emission(GroupTokens(Flag(SidecarName), TripleGroups([t])) + [Flag(SidecarName)], Some(TypeError))
  {
    var ks := SidecarKeys;
    var s := ks[0] + ks[1] + ks[2];
    ContainsInfix([], ks[0], ks[1] + ks[2]);
    assert [] + ks[0] + (ks[1] + ks[2]) == s;
    ContainsInfix(ks[0], ks[1], ks[2]);
    ContainsInfix(ks[0] + ks[1], ks[2], []);
    assert ks[0] + ks[1] + ks[2] + [] == s;
    assert forall k :: k in ks ==> Contains(s, k);
    StrObjectLeavesFlag(SidecarName, s);
    var objs := AsSidecarObjects([t]);
    var items := objs + [Atom(Str(s))];
    assert items[0] == objs[0];
    EachSidecarObjects(SidecarName, [t]);
    EachConcat(ObjectGroupStep(SidecarName), objs, [Atom(Str(s))]);
    EachStep(ObjectGroupStep(SidecarName), [Atom(Str(s))], 0);
    assert [Atom(Str(s))][1..] == [];
  }

  /** Only "sidecar_template" accepts the list-of-dicts form; any other name
      raises "does not support object form", and it never raises that. */
  lemma GroupObjectFormOnlyForSidecar(name: string, arity: nat, value: Value)
    requires FirstIsDict(value)
    ensures GroupArgs(name, arity, value).error == Some(NoObjectForm(name)) <==> name != SidecarName
  {
    if name == SidecarName {
      var step := ObjectGroupStep(name);
      if Each(step, value.items).error.Some? {
        EachErrorFromElement(step, value.items);
        var j :| 0 <= j < |value.items| && step(value.items[j]).error == Each(step, value.items).error;
        MissingKeysSpec(SidecarKeys, value.items[j]);
        GetStrsSpec(value.items[j], SidecarKeys);
      }
    }
  }

  /** The list-of-dicts form always emits three values per dict, whatever the
      arity asked for. */
  lemma ObjectFormIgnoresArity(a1: nat, a2: nat, value: Value)
    requires FirstIsDict(value)
    ensures GroupArgs(SidecarName, a1, value) == GroupArgs(SidecarName, a2, value)
  {
  }

  /** A flat count that is not a multiple of the arity raises before anything
      is appended; an arity of zero raises ZeroDivisionError instead. */
  lemma FlatCountRejected(name: string, arity: nat, value: Value)
    requires Truthy(value) && !FirstIsSeq(value) && !FirstIsDict(value) && FlatStrs(value).Ok?
    ensures arity == 0 ==> GroupArgs(name, arity, value) == Fail(ZeroDivision)
    ensures arity > 0 && |FlatStrs(value).value| % arity != 0 ==>
      GroupArgs(name, arity, value) == Fail(GroupCount(name, arity, |FlatStrs(value).value|))
  {
  }

  /** Whatever the input, what a call that raises nothing appends is whole
      occurrences of the flag with its values: arity values each, or three
      in the list-of-dicts form. */
  lemma GroupArgsShape(name: string, arity: nat, value: Value)
    ensures var r := GroupArgs(name, arity, value);
      r.error.None? ==> Occurrences(Flag(name), if FirstIsDict(value) then 3 else arity, r.tokens)
  {
    if !Truthy(value) {
    } else if FirstIsSeq(value) {
      var step := TupleGroupStep(name, arity);
      forall j | 0 <= j < |value.items| && step(value.items[j]).error.None?
        ensures Occurrences(Flag(name), arity, step(value.items[j]).tokens)
      {
        var g := value.items[j];
        var t := TupleGroup(name, arity, g).tokens;
        IterStrLength(g);
        assert |t| == arity + 1 && t[0] == Flag(name);
        assert t[arity + 1..] == [];
      }
      EachOccurrencesOnSuccess(step, value.items, Flag(name), arity);
    } else if FirstIsDict(value) {
      if name == SidecarName {
        var step := ObjectGroupStep(name);
        forall j | 0 <= j < |value.items| && step(value.items[j]).error.None?
          ensures Occurrences(Flag(name), 3, step(value.items[j]).tokens)
        {
          var t := ObjectGroup(name, value.items[j]).tokens;
          GetStrsSpec(value.items[j], SidecarKeys);
          assert |t| == 4 && t[0] == Flag(name);
          assert t[4..] == [];
        }
        EachOccurrencesOnSuccess(step, value.items, Flag(name), 3);
      }
    } else if FlatStrs(value).Ok? && arity > 0 && |FlatStrs(value).value| % arity == 0 {
      RunsOccurrences(Flag(name), FlatStrs(value).value, arity);
    }
  }

  // ----- examples of the test suite -----

  /** The flag of `sidecar_template`. */
  lemma SidecarFlag()
    ensures Flag(SidecarName) == "--sidecar-template"
  {
    FlagConcat("sidecar", "_template");
    FlagOfPlainName("sidecar");
    assert Hyphenate("_template") == "-template";
  }

  lemma OneGroupTokens(flag: string, g: seq<Scalar>)
    ensures GroupTokens(flag, [g]) == [flag] + ScalarStrs(g)
  {
    assert [g][1..] == [];
  }

  lemma TwoGroupTokens(flag: string, g: seq<Scalar>, h: seq<Scalar>)
    ensures GroupTokens(flag, [g, h]) == [flag] + ScalarStrs(g) + [flag] + ScalarStrs(h)
  {
    assert [g, h][1..] == [h];
    OneGroupTokens(flag, h);
  }

  /** One string triple after the flag. */
  lemma OneSidecarTriple(a: string, b: string, c: string)
    ensures GroupArgs(SidecarName, 3, List([Items([Str(a), Str(b), Str(c)])]))
         == Done([Flag(SidecarName), a, b, c])
  {
    var g := [Str(a), Str(b), Str(c)];
    TupleGroupFormTokens(SidecarName, 3, [g]);
    assert AsGroupLists([g]) == [Items(g)];
    OneGroupTokens(Flag(SidecarName), g);
    assert ScalarStrs(g) == [a, b, c];
  }

  /** Two string triples, each after its own flag. */
  lemma TwoSidecarTriples(a: string, b: string, c: string, d: string, e: string, f: string)
    ensures GroupArgs(SidecarName, 3, List([Items([Str(a), Str(b), Str(c)]), Items([Str(d), Str(e), Str(f)])]))
         == Done([Flag(SidecarName), a, b, c, Flag(SidecarName), d, e, f])
  {
    var g := [Str(a), Str(b), Str(c)];
    var h := [Str(d), Str(e), Str(f)];
    TupleGroupFormTokens(SidecarName, 3, [g, h]);
    assert AsGroupLists([g, h]) == [Items(g), Items(h)];
    TwoGroupTokens(Flag(SidecarName), g, h);
    assert ScalarStrs(g) == [a, b, c];
    assert ScalarStrs(h) == [d, e, f];
  }

  /** The triples of the source's own tuple-form example. */
  lemma SidecarGroupExample()
    ensures GroupArgs(SidecarName, 3, List([
              Items([Str("tmpl.mako"), Str("{name}.json"), Str("--foo=1")]),
              Items([Str("t2.mako"), Str("{uuid}.json"), Str("--bar")])]))
         == Done(["--sidecar-template", "tmpl.mako", "{name}.json", "--foo=1",
                  "--sidecar-template", "t2.mako", "{uuid}.json", "--bar"])
  {
    TwoSidecarTriples("tmpl.mako", "{name}.json", "--foo=1", "t2.mako", "{uuid}.json", "--bar");
    SidecarFlag();
  }

  /** Two values where triples are expected. */
  lemma ShortFlatExample()
    ensures GroupArgs(SidecarName, 3, List([Atom(Str("a")), Atom(Str("b"))])) == Fail(GroupCount(SidecarName, 3, 2))
  {
    var v := List([Atom(Str("a")), Atom(Str("b"))]);
    assert |FlatStrs(v).value| == 2;
  }

  /** A pair where a triple is expected. */
  lemma ShortGroupExample()
    ensures GroupArgs(SidecarName, 3, List([Items([Str("a"), Str("b")])]))
         == Fail(GroupLength(SidecarName, 3, Items([Str("a"), Str("b")]), 2))
  {
    TupleGroupsKeepEarlierEntries(SidecarName, 3, [], [Str("a"), Str("b")], []);
    assert AsGroupLists([]) + [Items([Str("a"), Str("b")])] + [] == [Items([Str("a"), Str("b")])];
  }

  /** A dict with only "mako_template" lacks the other two keys. */
  lemma MissingKeysExample()
    ensures GroupArgs(SidecarName, 3, List([Object([("mako_template", Str("t.mako"))])]))
         == Fail(GroupMissingKeys(["filename_template", "options"]))
  {
    var es := [("mako_template", Str("t.mako"))];
    SidecarKeysDistinct();
    assert HasKey(es, SidecarKeys[0]);
    assert !HasKey(es, SidecarKeys[1]) && !HasKey(es, SidecarKeys[2]);
    var ks := SidecarKeys;
    assert ks[1..][1..][1..] == [] && ks[1..][1..][0] == "options" && ks[1..][0] == "filename_template";
    assert MissingKeys(ks[1..][1..][1..], Object(es)) == Ok([]);
    assert In(Object(es), ks[1..][1..][0]) == Ok(false) && In(Object(es), ks[1..][0]) == Ok(false);
    assert ["options"] + [] == ["options"] && ["filename_template"] + ["options"] == ["filename_template", "options"];
    assert MissingKeys(ks[1..][1..], Object(es)) == Ok(["options"]);
    assert MissingKeys(ks[1..], Object(es)) == Ok(["filename_template", "options"]);
    assert MissingKeys(ks, Object(es)) == Ok(["filename_template", "options"]);
    assert [Object(es)][1..] == [];
  }
}
