/** The tool functions whose command is built by a loop over their parameters
    (`for key, value in locals().items()`): the prefix
    `osxphotos <subcommand> <positional values>`, then each parameter in
    declaration order. */
module Tools {
  import opened PyModel
  import opened Flags
  import opened Emit
  import opened Pairs
  import opened Groups
  import opened Location

  /** What distinguishes one tool's loop from another's. */
  datatype Tool = Tool(
    subcommand: string,
    /** the parameters whose values make up the prefix, in order; the loop
        skips them by name */
    positional: seq<string>,
    /** parameters handed to `_append_multi_arg_pairs` */
    pairKeys: set<string>,
    /** parameters handed to `_append_multi_arg_group`, with their arity */
    groups: map<string, nat>,
    /** parameters handed to `_append_location_pair` first */
    locationKeys: set<string>,
    /** whether a list value gives the flag once per element; the tools
        without this branch print the whole list with str() */
    listBranch: bool)

  const Executable := "osxphotos"

  /** What the value of a positional parameter adds to the prefix: a string
      itself (`compare`'s libraries, `export`'s destination), a list its
      elements spliced in (`import`'s `files_or_dirs`). */
  function PositionalText(v: Value): seq<string> {
    match v
    case Absent => []
    case Atomic(a) => [ScalarStr(a)]
    case List(items) => ItemStrs(items)
  }

  /** The value bound to `name` among the parameters; a name that is not
      bound has no value. */
  function Binding(params: seq<(string, Value)>, name: string): Value
    decreases |params|
  {
    if params == [] then Absent
    else if params[0].0 == name then params[0].1
    else Binding(params[1..], name)
  }

  /** The values of the named parameters, one after the other. */
  function PositionalValues(names: seq<string>, params: seq<(string, Value)>): seq<string>
    decreases |names|
  {
    if names == [] then []
    else PositionalText(Binding(params, names[0])) + PositionalValues(names[1..], params)
  }

  /** `cmd = ["osxphotos", <subcommand>, <positional values>...]`, built
      from the call's own parameters. */
  function Prefix(tool: Tool, params: seq<(string, Value)>): seq<string> {
    [Executable, tool.subcommand] + PositionalValues(tool.positional, params)
  }

  /** A list of strings as a parameter value (the local `cmd`). */
  function StrList(ts: seq<string>): Value {
    List(seq(|ts|, i requires 0 <= i < |ts| => Atom(Str(ts[i]))))
  }

  /** What `locals()` holds when the loop starts: the parameters in
      declaration order, then the local `cmd`, which is the prefix by then. */
  function Locals(params: seq<(string, Value)>, prefix: seq<string>): seq<(string, Value)> {
    params + [("cmd", StrList(prefix))]
  }

  /** The rule for a parameter no helper takes: a bool gives its flag alone,
      a list (where the tool has that branch) gives the flag before each
      element, anything else gives the flag and str(value). */
  function BaselineArgs(listBranch: bool, key: string, value: Value): seq<string> {
    if value.Atomic? && value.a.Bool? then [Flag(key)]
    else if listBranch && value.List? then Runs(Flag(key), ItemStrs(value.items), 1)
    else [Flag(key), ValueStr(value)]
  }

  /** One turn of the loop, for the parameter `key` with value `value`. */
  function ParamArgs(tool: Tool, key: string, value: Value): Emission {
    if key in tool.positional || key == "cmd" || !Truthy(value) then Done([])
    else if key in tool.pairKeys then PairArgs(key, value)
    else if key in tool.groups then GroupArgs(key, tool.groups[key], value)
    else if key in tool.locationKeys then
      match LocationPair(key, value)
      case Err(e) => Fail(e)
      case Ok(Some(ts)) => Done(ts)
      case Ok(None) => Done(BaselineArgs(tool.listBranch, key, value))
    else Done(BaselineArgs(tool.listBranch, key, value))
  }

  function ParamStep(tool: Tool): ((string, Value)) -> Emission {
    (p: (string, Value)) => ParamArgs(tool, p.0, p.1)
  }

  /** The whole loop over the given bindings: each parameter in turn, up to
      the first exception. */
  function Options(tool: Tool, locals: seq<(string, Value)>): Emission
    decreases |locals|
  {
    if locals == [] then Done([])
    else Then(ParamArgs(tool, locals[0].0, locals[0].1), Options(tool, locals[1..]))
  }

  /** The loop is an instance of the general loop over a list, so the facts
      about that loop apply to it. */
  lemma {:induction false} OptionsIsEach(tool: Tool, locals: seq<(string, Value)>)
    ensures Options(tool, locals) == Each(ParamStep(tool), locals)
    decreases |locals|
  {
    if locals != [] {
      OptionsIsEach(tool, locals[1..]);
    }
  }

  /** One more turn of the loop from position i. */
  lemma OptionsAdvance(tool: Tool, locals: seq<(string, Value)>, i: nat, done: seq<string>)
    requires i < |locals|
    requires Options(tool, locals) == Then(Done(done), Options(tool, locals[i..]))
    ensures var here := ParamArgs(tool, locals[i].0, locals[i].1);
      && (here.error.None? ==> Options(tool, locals) == Then(Done(done + here.tokens), Options(tool, locals[i + 1..])))
      && (here.error.Some? ==> Options(tool, locals) == Emission(done + here.tokens, here.error))
  {
    var here := ParamArgs(tool, locals[i].0, locals[i].1);
    assert locals[i..][1..] == locals[i + 1..];
    assert Options(tool, locals[i..]) == Then(here, Options(tool, locals[i + 1..]));
    ThenStep(done, here, Options(tool, locals[i + 1..]));
  }

  /** The list the tool hands to `run_osxphotos_command`, or the exception
      that its loop raises instead (the partly built list is then lost). */
  function ToolCommand(tool: Tool, params: seq<(string, Value)>): (r: Result<seq<string>>)
    ensures r.Ok? ==> |r.value| >= 2 && r.value[0] == Executable && r.value[1] == tool.subcommand
  {
    var prefix := Prefix(tool, params);
    var o := Options(tool, Locals(params, prefix));
    if o.error.Some? then Err(o.error.value) else Ok(prefix + o.tokens)
  }

  // ----- the loop, step by step -----

  /** The baseline branches of the loop body. */
  method AppendBaseline(cmd: Argv, listBranch: bool, key: string, value: Value)
    modifies cmd
    ensures cmd.tokens == old(cmd.tokens) + BaselineArgs(listBranch, key, value)
  {
    if value.Atomic? && value.a.Bool? {
      cmd.Append(Flag(key));
    } else if listBranch && value.List? {
      cmd.AppendRuns(Flag(key), ItemStrs(value.items), 1);
    } else {
      cmd.Extend([Flag(key), ValueStr(value)]);
    }
  }

  /** The loop body for one parameter. */
  method AppendParam(cmd: Argv, tool: Tool, key: string, value: Value) returns (err: Option<Error>)
    modifies cmd
    ensures cmd.tokens == old(cmd.tokens) + ParamArgs(tool, key, value).tokens
    ensures err == ParamArgs(tool, key, value).error
  {
    if key in tool.positional || key == "cmd" || !Truthy(value) {
      return None;
    }
    if key in tool.pairKeys {
      err := AppendMultiArgPairs(cmd, key, value);
      return;
    }
    if key in tool.groups {
      err := AppendMultiArgGroup(cmd, key, value, tool.groups[key]);
      return;
    }
    if key in tool.locationKeys {
      var handled;
      handled, err := AppendLocationPair(cmd, key, value);
      if err.Some? || handled {
        return;
      }
    }
    AppendBaseline(cmd, tool.listBranch, key, value);
    return None;
  }

  /** The tool body: builds the prefix, runs the loop over `locals()` and
      returns the finished list, or the exception the loop raised. */
  method BuildCommand(tool: Tool, params: seq<(string, Value)>) returns (r: Result<seq<string>>)
    ensures r == ToolCommand(tool, params)
  {
    var prefix := Prefix(tool, params);
    var cmd := new Argv(prefix);
    var locals := Locals(params, prefix);
    ghost var done: seq<string> := [];
    var i := 0;
    while i < |locals|
      invariant 0 <= i <= |locals|
      invariant cmd.tokens == prefix + done
      invariant Options(tool, locals) == Then(Done(done), Options(tool, locals[i..]))
    {
      OptionsAdvance(tool, locals, i, done);
      var key, value := locals[i].0, locals[i].1;
      ghost var before := done;
      ghost var here := ParamArgs(tool, key, value).tokens;
      var err := AppendParam(cmd, tool, key, value);
      done := done + here;
      ConcatAssoc(prefix, before, here);
      if err.Some? {
        return Err(err.value);
      }
      i := i + 1;
    }
    assert locals[|locals|..] == [];
    assert Options(tool, locals) == Done(done);
    return Ok(cmd.tokens);
  }

  // ----- what the loop promises -----

  /** The facts of the general loop, for this loop: the options of two runs
      of parameters are those of the first, then those of the second. */
  lemma OptionsConcat(tool: Tool, a: seq<(string, Value)>, b: seq<(string, Value)>)
    ensures Options(tool, a + b) == Then(Options(tool, a), Options(tool, b))
  {
    OptionsIsEach(tool, a + b);
    OptionsIsEach(tool, a);
    OptionsIsEach(tool, b);
    EachConcat(ParamStep(tool), a, b);
  }

  /** A parameter that is skipped by name, or whose value is falsy. */
  predicate Silent(tool: Tool, key: string, value: Value) {
    key in tool.positional || key == "cmd" || !Truthy(value)
  }

  /** Removing a silent parameter changes nothing, wherever it stands. */
  lemma SilentParameterIgnored(tool: Tool, a: seq<(string, Value)>, key: string, value: Value, b: seq<(string, Value)>)
    requires Silent(tool, key, value)
    ensures Options(tool, a + [(key, value)] + b) == Options(tool, a + b)
  {
    var x := [(key, value)];
    OptionsConcat(tool, a + x, b);
    OptionsConcat(tool, a, x);
    OptionsConcat(tool, a, b);
    assert Options(tool, x) == Done([]) by {
      assert x[1..] == [];
    }
    assert Then(Options(tool, a), Done([])) == Options(tool, a);
  }

  /** The local `cmd` that `locals()` also holds is never turned into an
      option, and the positional parameters are never emitted as options:
      the command is the prefix, then the options of the parameters. */
  lemma ToolCommandOfParams(tool: Tool, params: seq<(string, Value)>)
    ensures var o := Options(tool, params);
      ToolCommand(tool, params) ==
        if o.error.Some? then Err(o.error.value) else Ok(Prefix(tool, params) + o.tokens)
  {
    var prefix := Prefix(tool, params);
    SilentParameterIgnored(tool, params, "cmd", StrList(prefix), []);
    assert params + [("cmd", StrList(prefix))] + [] == Locals(params, prefix);
    assert params + [] == params;
  }

  /** Declaration order: the options of earlier parameters come first, and
      the command succeeds exactly when both runs of parameters do. */
  lemma ToolCommandInOrder(tool: Tool, a: seq<(string, Value)>, b: seq<(string, Value)>)
    ensures ToolCommand(tool, a + b).Ok? <==> Options(tool, a).error.None? && Options(tool, b).error.None?
    ensures ToolCommand(tool, a + b).Ok? ==>
      ToolCommand(tool, a + b).value == Prefix(tool, a + b) + Options(tool, a).tokens + Options(tool, b).tokens
  {
    var oa, ob := Options(tool, a), Options(tool, b);
    ToolCommandOfParams(tool, a + b);
    OptionsConcat(tool, a, b);
    if oa.error.None? && ob.error.None? {
      assert Options(tool, a + b) == Emission(oa.tokens + ob.tokens, None);
      ConcatAssoc(Prefix(tool, a + b), oa.tokens, ob.tokens);
    }
  }

  /** The tool raises exactly when some parameter raises. */
  lemma ToolCommandOkIff(tool: Tool, params: seq<(string, Value)>)
    ensures ToolCommand(tool, params).Ok? <==>
      forall j :: 0 <= j < |params| ==> ParamArgs(tool, params[j].0, params[j].1).error.None?
  {
    ToolCommandOfParams(tool, params);
    OptionsIsEach(tool, params);
    var step := ParamStep(tool);
    if forall j :: 0 <= j < |params| ==> ParamArgs(tool, params[j].0, params[j].1).error.None? {
      forall j | 0 <= j < |params| ensures step(params[j]).error.None? {
      }
      EachAllOk(step, params);
    } else if Each(step, params).error.Some? {
    } else {
      var k :| 0 <= k < |params| && ParamArgs(tool, params[k].0, params[k].1).error.Some?;
      var first := FirstFailure(tool, params, k);
      assert step(params[first]).error.Some?;
      EachFirstError(step, params, first);
    }
  }

  /** The position of the first parameter that raises, given one that does. */
  function FirstFailure(tool: Tool, params: seq<(string, Value)>, k: nat): (first: nat)
    requires k < |params| && ParamArgs(tool, params[k].0, params[k].1).error.Some?
    ensures first <= k && ParamArgs(tool, params[first].0, params[first].1).error.Some?
    ensures forall j :: 0 <= j < first ==> ParamArgs(tool, params[j].0, params[j].1).error.None?
  {
    if exists j :: 0 <= j < k && ParamArgs(tool, params[j].0, params[j].1).error.Some? then
      var j :| 0 <= j < k && ParamArgs(tool, params[j].0, params[j].1).error.Some?;
      FirstFailure(tool, params, j)
    else k
  }

  /** The exception the tool raises is that of the first parameter that
      raises. */
  lemma ToolCommandFirstError(tool: Tool, params: seq<(string, Value)>, k: nat)
    requires k < |params| && ParamArgs(tool, params[k].0, params[k].1).error.Some?
    requires forall j :: 0 <= j < k ==> ParamArgs(tool, params[j].0, params[j].1).error.None?
    ensures ToolCommand(tool, params) == Err(ParamArgs(tool, params[k].0, params[k].1).error.value)
  {
    ToolCommandOfParams(tool, params);
    OptionsIsEach(tool, params);
    var step := ParamStep(tool);
    forall j | 0 <= j < k ensures step(params[j]).error.None? {
    }
    EachFirstError(step, params, k);
  }

  /** A parameter no helper takes never raises: True gives exactly its flag,
      a list gives the flag before each element (in the tools with that
      branch), and anything else gives the flag and str(value). */
  lemma BaselineShape(tool: Tool, key: string, value: Value)
    requires !Silent(tool, key, value)
    requires key !in tool.pairKeys && key !in tool.groups && key !in tool.locationKeys
    ensures var r := ParamArgs(tool, key, value);
      && r.error.None?
      && (value.Atomic? && value.a.Bool? ==> value.a.b && r.tokens == [Flag(key)])
      && (tool.listBranch && value.List? ==>
            && |r.tokens| == 2 * |value.items|
            && forall j :: 0 <= j < |value.items| ==>
                 r.tokens[2 * j] == Flag(key) && r.tokens[2 * j + 1] == ItemStr(value.items[j]))
      && (!(value.Atomic? && value.a.Bool?) && !(tool.listBranch && value.List?) ==>
            r.tokens == [Flag(key), ValueStr(value)])
  {
    if tool.listBranch && value.List? {
      RunsOfOne(Flag(key), ItemStrs(value.items));
    }
  }

  /** A location option inside a loop has a truthy value, which is never
      None, so `_append_location_pair` either handles it or raises: the
      fall-through to the baseline rule after it is never taken. */
  lemma LocationFallThroughUnused(tool: Tool, key: string, value: Value)
    requires !Silent(tool, key, value)
    requires key !in tool.pairKeys && key !in tool.groups && key in tool.locationKeys
    ensures LocationPair(key, value) != Ok(None)
    ensures var r := ParamArgs(tool, key, value);
      && (r.error.Some? <==> !(value.List? && |value.items| == 2))
      && (r.error.None? ==> r.tokens == [Flag(key)] + ItemStrs(value.items))
  {
    LocationPairCases(key, value);
  }

  /** How many values follow each flag a parameter emits. */
  function ValuesPerFlag(tool: Tool, key: string, value: Value): nat {
    if key in tool.pairKeys then 2
    else if key in tool.groups then (if FirstIsDict(value) then 3 else tool.groups[key])
    else if key in tool.locationKeys then 2
    else if value.Atomic? && value.a.Bool? then 0
    else 1
  }

  /** Every parameter that does not raise emits only its own flag, each time
      followed by the same number of values. */
  lemma ParamOccurrences(tool: Tool, key: string, value: Value)
    ensures var r := ParamArgs(tool, key, value);
      r.error.None? ==> Occurrences(Flag(key), ValuesPerFlag(tool, key, value), r.tokens)
  {
    var r := ParamArgs(tool, key, value);
    var flag := Flag(key);
    if Silent(tool, key, value) {
    } else if key in tool.pairKeys {
      PairArgsShape(key, value);
    } else if key in tool.groups {
      GroupArgsShape(key, tool.groups[key], value);
    } else if key in tool.locationKeys {
      LocationPairCases(key, value);
    } else if value.Atomic? && value.a.Bool? {
      assert r.tokens[1..] == [];
    } else if tool.listBranch && value.List? {
      RunsOccurrences(flag, ItemStrs(value.items), 1);
    } else {
      assert r.tokens[2..] == [];
    }
  }

  // ----- the prefix -----

  /** A parameter bound before the others is found first. */
  lemma BindingOfFirst(name: string, v: Value, rest: seq<(string, Value)>)
    ensures Binding([(name, v)] + rest, name) == v
  {
  }

  /** A tool with one positional parameter bound first (exiftool, export,
      exportdb, import, push-exif): the prefix is the subcommand and that
      parameter's value. */
  lemma SinglePositionalPrefix(tool: Tool, name: string, v: Value, rest: seq<(string, Value)>)
    requires tool.positional == [name]
    ensures Prefix(tool, [(name, v)] + rest) == [Executable, tool.subcommand] + PositionalText(v)
  {
    var params := [(name, v)] + rest;
    BindingOfFirst(name, v, rest);
    assert tool.positional[1..] == [];
    assert PositionalValues(tool.positional[1..], params) == [];
    assert PositionalValues(tool.positional, params) == PositionalText(v) + [];
  }

  /** `compare(library_a, library_b, ...)`: both libraries, in this order,
      follow the subcommand. */
  lemma ComparePrefix(a: string, b: string, rest: seq<(string, Value)>)
    ensures Prefix(Compare, [("library_a", Atomic(Str(a))), ("library_b", Atomic(Str(b)))] + rest)
         == [Executable, "compare", a, b]
  {
    var params := [("library_a", Atomic(Str(a))), ("library_b", Atomic(Str(b)))] + rest;
    var names := Compare.positional;
    assert Binding(params, names[0]) == Atomic(Str(a));
    assert params[1..] == [("library_b", Atomic(Str(b)))] + rest;
    assert Binding(params, names[1]) == Atomic(Str(b));
    assert names[1..][1..] == [];
    assert PositionalValues(names, params) == [a] + ([b] + []);
  }

  /** `import_photos(files_or_dirs, ...)`: the files are spliced in after
      the subcommand. */
  lemma ImportPrefix(files: seq<string>, rest: seq<(string, Value)>)
    ensures Prefix(Import, [("files_or_dirs", StrList(files))] + rest) == [Executable, "import"] + files
  {
    SinglePositionalPrefix(Import, "files_or_dirs", StrList(files), rest);
    assert ItemStrs(StrList(files).items) == files;
  }

  // ----- the tools -----

  const AddLocations := Tool("add-locations", [], {"regex", "exif"}, map[], {}, true)
  const BatchEdit := Tool("batch-edit", [], {}, map[], {"location"}, true)
  const Compare := Tool("compare", ["library_a", "library_b"], {}, map[], {}, false)
  const Dump := Tool("dump", [], {"field"}, map[], {}, true)
  const ExifTool := Tool("exiftool", ["export_directory"], {}, map[], {}, true)
  const Export := Tool("export", ["dest"], {"xattr_template", "post_command", "regex", "exif"}, map[SidecarName := 3], {}, true)
  const ExportDb := Tool("exportdb", ["export_database"], {}, map[], {}, true)
  const Import := Tool("import", ["files_or_dirs"], {}, map[], {"location"}, true)
  const Info := Tool("info", [], {}, map[], {}, false)
  const Keywords := Tool("keywords", [], {}, map[], {}, false)
  const Labels := Tool("labels", [], {}, map[], {}, false)
  const Orphans := Tool("orphans", [], {}, map[], {}, false)
  const Persons := Tool("persons", [], {}, map[], {}, false)
  const Places := Tool("places", [], {}, map[], {}, false)
  const PushExif := Tool("push-exif", ["metadata"], {"regex", "exif"}, map[], {}, true)
  const Query := Tool("query", [], {"field", "regex", "exif"}, map[], {}, true)
  const Sync := Tool("sync", [], {"regex", "exif"}, map[], {}, true)
  const Timewarp := Tool("timewarp", [], {}, map[], {}, true)

  /** The name sets of a tool agree with the helpers' own tables: every
      pair option has keys for the dict form, the only group option is
      `sidecar_template` with three values, the only location option is
      `location`, and no name is claimed twice. */
  predicate TableAgrees(t: Tool) {
    && t.pairKeys <= PairKeyMap.Keys
    && (forall k :: k in t.groups ==> k == SidecarName && t.groups[k] == |SidecarKeys|)
    && t.locationKeys <= {"location"}
    && t.pairKeys !! t.groups.Keys && t.pairKeys !! t.locationKeys && t.groups.Keys !! t.locationKeys
    && (forall k :: k in t.positional ==> k != "cmd" && k !in t.pairKeys && k !in t.groups && k !in t.locationKeys)
    && "cmd" !in t.pairKeys + t.groups.Keys + t.locationKeys
  }

  /** A tool that hands nothing to a helper agrees with the tables as long
      as no positional parameter is called `cmd`. */
  lemma PlainTableAgrees(t: Tool)
    requires t.pairKeys == {} && t.groups == map[] && t.locationKeys == {}
    requires "cmd" !in t.positional
    ensures TableAgrees(t)
  {
  }

  /** The tools that take no helper. */
  lemma PlainToolTablesAgree()
    ensures TableAgrees(Compare) && TableAgrees(ExifTool) && TableAgrees(ExportDb)
    ensures TableAgrees(Info) && TableAgrees(Keywords) && TableAgrees(Labels) && TableAgrees(Orphans)
    ensures TableAgrees(Persons) && TableAgrees(Places) && TableAgrees(Timewarp)
  {
    PlainTableAgrees(Compare);
    PlainTableAgrees(ExifTool);
    PlainTableAgrees(ExportDb);
    PlainTableAgrees(Info);
    PlainTableAgrees(Keywords);
    PlainTableAgrees(Labels);
    PlainTableAgrees(Orphans);
    PlainTableAgrees(Persons);
    PlainTableAgrees(Places);
    PlainTableAgrees(Timewarp);
  }

  /** The tools that take pair options. */
  lemma PairToolTablesAgree()
    ensures TableAgrees(AddLocations) && TableAgrees(Dump) && TableAgrees(PushExif)
    ensures TableAgrees(Query) && TableAgrees(Sync)
  {
    assert {"regex", "exif", "field"} <= PairKeyMap.Keys;
  }

  /** The tools that take a location, and export, the one tool with pair and
      group options. */
  lemma OtherToolTablesAgree()
    ensures TableAgrees(BatchEdit) && TableAgrees(Import) && TableAgrees(Export)
  {
    ExportTableAgrees();
  }

  lemma ExportTableAgrees()
    ensures TableAgrees(Export)
  {
    assert {"regex", "exif", "xattr_template", "post_command"} <= PairKeyMap.Keys;
    assert |SidecarKeys| == 3;
  }

  /** No tool whose tables agree (every tool, by the lemmas above) rejects
      the dict form of an option it hands to a helper. */
  lemma ToolsAcceptObjectForm(t: Tool, key: string, value: Value)
    requires TableAgrees(t)
    requires !Silent(t, key, value) && (key in t.pairKeys || key in t.groups)
    requires FirstIsDict(value)
    ensures ParamArgs(t, key, value).error != Some(NoObjectForm(key))
  {
    if key in t.pairKeys {
      PairObjectFormOnlyForTable(key, value);
    } else {
      GroupObjectFormOnlyForSidecar(key, t.groups[key], value);
    }
  }

  // ----- examples -----

  /** The loop over two parameters that both succeed. */
  lemma OptionsOfTwo(tool: Tool, p0: (string, Value), p1: (string, Value), t0: seq<string>, t1: seq<string>)
    requires ParamArgs(tool, p0.0, p0.1) == Done(t0) && ParamArgs(tool, p1.0, p1.1) == Done(t1)
    ensures Options(tool, [p0, p1]) == Done(t0 + t1)
  {
    assert [p0, p1][1..] == [p1] && [p1][1..] == [];
    assert Options(tool, [p1]) == Then(Done(t1), Options(tool, []));
    assert t1 + [] == t1;
    assert Options(tool, [p0, p1]) == Then(Done(t0), Options(tool, [p1]));
  }

  /** The loop over four parameters that all succeed. */
  lemma OptionsOfFour(tool: Tool, p0: (string, Value), p1: (string, Value), p2: (string, Value), p3: (string, Value),
                      t0: seq<string>, t1: seq<string>, t2: seq<string>, t3: seq<string>)
    requires ParamArgs(tool, p0.0, p0.1) == Done(t0) && ParamArgs(tool, p1.0, p1.1) == Done(t1)
    requires ParamArgs(tool, p2.0, p2.1) == Done(t2) && ParamArgs(tool, p3.0, p3.1) == Done(t3)
    ensures Options(tool, [p0, p1, p2, p3]) == Done(t0 + t1 + t2 + t3)
  {
    OptionsConcat(tool, [p0, p1], [p2, p3]);
    assert [p0, p1] + [p2, p3] == [p0, p1, p2, p3];
    OptionsOfTwo(tool, p0, p1, t0, t1);
    OptionsOfTwo(tool, p2, p3, t2, t3);
    ConcatAssoc(t0 + t1, t2, t3);
  }

  /** A loop that succeeds gives the prefix and its tokens. */
  lemma CommandOfOptions(tool: Tool, params: seq<(string, Value)>)
    requires Options(tool, params).error.None?
    ensures ToolCommand(tool, params) == Ok(Prefix(tool, params) + Options(tool, params).tokens)
  {
    ToolCommandOfParams(tool, params);
  }

  /** A truthy parameter that no helper takes gets the baseline rule. */
  lemma Plain(t: Tool, key: string, value: Value)
    requires !Silent(t, key, value)
    requires key !in t.pairKeys && key !in t.groups && key !in t.locationKeys
    ensures ParamArgs(t, key, value) == Done(BaselineArgs(t.listBranch, key, value))
  {
  }

  /** `add_locations(verbose=True, keyword=["a", "b"], exif=[("Make", "Apple"), ("Model", "iPhone")])`,
      with `title` left at None in between. */
  lemma AddLocationsExample()
    ensures ToolCommand(AddLocations, [
      ("verbose", Atomic(Bool(true))),
      ("keyword", List([Atom(Str("a")), Atom(Str("b"))])),
      ("title", Absent),
      ("exif", List([Items([Str("Make"), Str("Apple")]), Items([Str("Model"), Str("iPhone")])]))])
      == Ok(["osxphotos", "add-locations", "--verbose", "--keyword", "a", "--keyword", "b",
             "--exif", "Make", "Apple", "--exif", "Model", "iPhone"])
  {
    var t := AddLocations;
    var params := [
      ("verbose", Atomic(Bool(true))),
      ("keyword", List([Atom(Str("a")), Atom(Str("b"))])),
      ("title", Absent),
      ("exif", List([Items([Str("Make"), Str("Apple")]), Items([Str("Model"), Str("iPhone")])]))];
    var options := ["--verbose", "--keyword", "a", "--keyword", "b", "--exif", "Make", "Apple", "--exif", "Model", "iPhone"];
    AddLocationsOptions();
    CommandOfOptions(t, params);
    assert Prefix(t, params) == ["osxphotos", "add-locations"];
    AddLocationsTokens();
  }

  lemma AddLocationsOptions()
    ensures Options(AddLocations, [
      ("verbose", Atomic(Bool(true))),
      ("keyword", List([Atom(Str("a")), Atom(Str("b"))])),
      ("title", Absent),
      ("exif", List([Items([Str("Make"), Str("Apple")]), Items([Str("Model"), Str("iPhone")])]))])
      == Done(["--verbose", "--keyword", "a", "--keyword", "b", "--exif", "Make", "Apple", "--exif", "Model", "iPhone"])
  {
    var t := AddLocations;
    var p0 := ("verbose", Atomic(Bool(true)));
    var p1 := ("keyword", List([Atom(Str("a")), Atom(Str("b"))]));
    var p2 := ("title", Absent);
    var p3 := ("exif", List([Items([Str("Make"), Str("Apple")]), Items([Str("Model"), Str("iPhone")])]));
    TrueFlagExample(t, "verbose");
    assert "--" + "verbose" == "--verbose";
    KeywordListExample();
    assert ParamArgs(t, p2.0, p2.1) == Done([]);
    assert ParamArgs(t, p3.0, p3.1) == Done(["--exif", "Make", "Apple", "--exif", "Model", "iPhone"]) by {
      ExifPairsExample();
    }
    OptionsOfFour(t, p0, p1, p2, p3, ["--verbose"], ["--keyword", "a", "--keyword", "b"], [],
      ["--exif", "Make", "Apple", "--exif", "Model", "iPhone"]);
    AddLocationsTokens();
  }

  /** The pieces of the add_locations example, put together. */
  lemma AddLocationsTokens()
    ensures ["--verbose"] + ["--keyword", "a", "--keyword", "b"] + [] + ["--exif", "Make", "Apple", "--exif", "Model", "iPhone"]
      == ["--verbose", "--keyword", "a", "--keyword", "b", "--exif", "Make", "Apple", "--exif", "Model", "iPhone"]
    ensures ["osxphotos", "add-locations"] + ["--verbose", "--keyword", "a", "--keyword", "b", "--exif", "Make", "Apple", "--exif", "Model", "iPhone"]
      == ["osxphotos", "add-locations", "--verbose", "--keyword", "a", "--keyword", "b", "--exif", "Make", "Apple", "--exif", "Model", "iPhone"]
  {
  }

  /** A True option of a plain name is its flag alone. */
  lemma TrueFlagExample(t: Tool, key: string)
    requires key !in t.positional && key != "cmd" && '_' !in key
    requires key !in t.pairKeys && key !in t.groups && key !in t.locationKeys
    ensures ParamArgs(t, key, Atomic(Bool(true))) == Done(["--" + key])
  {
    Plain(t, key, Atomic(Bool(true)));
    FlagOfPlainName(key);
  }

  /** A list option gives its flag before each element. */
  lemma KeywordListExample()
    ensures ParamArgs(AddLocations, "keyword", List([Atom(Str("a")), Atom(Str("b"))])) == Done(["--keyword", "a", "--keyword", "b"])
  {
    var v := List([Atom(Str("a")), Atom(Str("b"))]);
    Plain(AddLocations, "keyword", v);
    FlagOfPlainName("keyword");
    assert Flag("keyword") == "--keyword";
    assert ItemStrs(v.items) == ["a", "b"];
    assert ["a", "b"][1..] == ["b"];
    assert Runs("--keyword", ["a", "b"], 1) == ["--keyword", "a"] + Runs("--keyword", ["b"], 1);
  }

  /** `compare("A", "B", json=True, output="out.txt")`: the two libraries
      follow the subcommand and are not repeated as options. */
  lemma CompareExample()
    ensures ToolCommand(Compare, [
      ("library_a", Atomic(Str("A"))), ("library_b", Atomic(Str("B"))),
      ("json", Atomic(Bool(true))), ("output", Atomic(Str("out.txt")))])
      == Ok(["osxphotos", "compare", "A", "B", "--json", "--output", "out.txt"])
  {
    var t := Compare;
    var params := [
      ("library_a", Atomic(Str("A"))), ("library_b", Atomic(Str("B"))),
      ("json", Atomic(Bool(true))), ("output", Atomic(Str("out.txt")))];
    CompareOptions();
    CommandOfOptions(t, params);
    ComparePrefix("A", "B", [("json", Atomic(Bool(true))), ("output", Atomic(Str("out.txt")))]);
    assert [("library_a", Atomic(Str("A"))), ("library_b", Atomic(Str("B")))]
      + [("json", Atomic(Bool(true))), ("output", Atomic(Str("out.txt")))] == params;
    CompareTokens();
  }

  lemma CompareTokens()
    ensures [] + [] + ["--json"] + ["--output", "out.txt"] == ["--json", "--output", "out.txt"]
    ensures ["osxphotos", "compare", "A", "B"] + ["--json", "--output", "out.txt"] == ["osxphotos", "compare", "A", "B", "--json", "--output", "out.txt"]
  {
  }

  lemma CompareOptions()
    ensures Options(Compare, [
      ("library_a", Atomic(Str("A"))), ("library_b", Atomic(Str("B"))),
      ("json", Atomic(Bool(true))), ("output", Atomic(Str("out.txt")))])
      == Done(["--json", "--output", "out.txt"])
  {
    var t := Compare;
    var p0 := ("library_a", Atomic(Str("A")));
    var p1 := ("library_b", Atomic(Str("B")));
    var p2 := ("json", Atomic(Bool(true)));
    var p3 := ("output", Atomic(Str("out.txt")));
    assert ParamArgs(t, p0.0, p0.1) == Done([]);
    assert ParamArgs(t, p1.0, p1.1) == Done([]);
    TrueFlagExample(t, "json");
    assert "--" + "json" == "--json";
    assert ParamArgs(t, p3.0, p3.1) == Done(["--output", "out.txt"]) by {
      Plain(t, p3.0, p3.1);
      FlagOfPlainName("output");
      assert Flag("output") == "--output";
    }
    OptionsOfFour(t, p0, p1, p2, p3, [], [], ["--json"], ["--output", "out.txt"]);
    CompareTokens();
  }

  /** `batch_edit(title="T", location=[10.5, 20.25])`. */
  lemma BatchEditExample()
    ensures ToolCommand(BatchEdit, [
      ("title", Atomic(Str("T"))), ("location", List([Atom(Float("10.5")), Atom(Float("20.25"))]))])
      == Ok(["osxphotos", "batch-edit", "--title", "T", "--location", "10.5", "20.25"])
  {
    var t := BatchEdit;
    var p0 := ("title", Atomic(Str("T")));
    var p1 := ("location", List([Atom(Float("10.5")), Atom(Float("20.25"))]));
    assert Options(t, [p0, p1]) == Done(["--title", "T", "--location", "10.5", "20.25"]) by {
      assert ParamArgs(t, p0.0, p0.1) == Done(["--title", "T"]) by {
        Plain(t, p0.0, p0.1);
        FlagOfPlainName("title");
        assert Flag("title") == "--title";
      }
      assert ParamArgs(t, p1.0, p1.1) == Done(["--location", "10.5", "20.25"]) by {
        LocationExamples();
      }
      OptionsOfTwo(t, p0, p1, ["--title", "T"], ["--location", "10.5", "20.25"]);
    }
    CommandOfOptions(t, [p0, p1]);
    assert Prefix(t, [p0, p1]) == ["osxphotos", "batch-edit"];
    assert ToolCommand(t, [p0, p1]) == Ok(["osxphotos", "batch-edit"] + ["--title", "T", "--location", "10.5", "20.25"]);
    assert ["osxphotos", "batch-edit"] + ["--title", "T", "--location", "10.5", "20.25"] == ["osxphotos", "batch-edit", "--title", "T", "--location", "10.5", "20.25"];
  }

  /** `import_photos(["a.jpg"], location=[10.0])` raises, so nothing runs. */
  lemma ImportBadLocationExample()
    ensures ToolCommand(Import, [
      ("files_or_dirs", List([Atom(Str("a.jpg"))])), ("location", List([Atom(Float("10.0"))]))])
      == Err(LocationShape("location"))
  {
    var params := [("files_or_dirs", List([Atom(Str("a.jpg"))])), ("location", List([Atom(Float("10.0"))]))];
    ToolCommandOfParams(Import, params);
    assert params[1..][1..] == [];
  }

  lemma ExportSidecarOptions(dest: string, a: string, b: string, c: string)
    ensures Options(Export, [("dest", Atomic(Str(dest))), (SidecarName, List([Items([Str(a), Str(b), Str(c)])]))])
         == Done([Flag(SidecarName), a, b, c])
  {
    var t := Export;
    var p0 := ("dest", Atomic(Str(dest)));
    var p1 := (SidecarName, List([Items([Str(a), Str(b), Str(c)])]));
    var tokens := [Flag(SidecarName), a, b, c];
    assert ParamArgs(t, p0.0, p0.1) == Done([]);
    assert ParamArgs(t, p1.0, p1.1) == Done(tokens) by {
      OneSidecarTriple(a, b, c);
    }
    OptionsOfTwo(t, p0, p1, [], tokens);
    assert [] + tokens == tokens;
  }

  /** `export_photos(dest, sidecar_template=[(a, b, c)])`. */
  lemma ExportSidecar(dest: string, a: string, b: string, c: string)
    ensures ToolCommand(Export, [
      ("dest", Atomic(Str(dest))),
      (SidecarName, List([Items([Str(a), Str(b), Str(c)])]))])
      == Ok([Executable, "export", dest, Flag(SidecarName), a, b, c])
  {
    var t := Export;
    var p0 := ("dest", Atomic(Str(dest)));
    var p1 := (SidecarName, List([Items([Str(a), Str(b), Str(c)])]));
    var tokens := [Flag(SidecarName), a, b, c];
    ExportSidecarOptions(dest, a, b, c);
    CommandOfOptions(t, [p0, p1]);
    SinglePositionalPrefix(t, "dest", p0.1, [p1]);
    assert [p0] + [p1] == [p0, p1];
    assert PositionalText(p0.1) == [dest];
    assert Prefix(t, [p0, p1]) == [Executable, "export", dest];
    assert [Executable, "export", dest] + tokens == [Executable, "export", dest, Flag(SidecarName), a, b, c];
  }

  /** `export_photos("/out", sidecar_template=[("t.mako", "{name}.json", "none")])`. */
  lemma ExportSidecarExample()
    ensures ToolCommand(Export, [
      ("dest", Atomic(Str("/out"))),
      ("sidecar_template", List([Items([Str("t.mako"), Str("{name}.json"), Str("none")])]))])
      == Ok(["osxphotos", "export", "/out", "--sidecar-template", "t.mako", "{name}.json", "none"])
  {
    ExportSidecar("/out", "t.mako", "{name}.json", "none");
    SidecarFlag();
  }
}
