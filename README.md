# osxphotos MCP server: the command-line argument builder

The MCP server for osxphotos exposes each `osxphotos` subcommand as a tool.
Every tool turns its typed parameters into a flat, ordered argv list of
strings, which is then handed to the `osxphotos` executable. This project
models how that argv list is built and proves properties of the model:

- `Flags`: the flag spelling of a parameter name (`_flag`).
- `Pairs`: options that take two values per occurrence. The table of
  dict keys per option (`_PAIR_KEY_MAP`) and `_append_multi_arg_pairs` live
  here. Such an option accepts three shapes: a list of 2-sequences, a list of
  dicts keyed by the table, and a flat even-length list.
- `Groups`: options that take N values per occurrence
  (`_append_multi_arg_group`). The dict form exists only for
  `sidecar_template` with N = 3.
- `Location`: the `--location LAT LON` option (`_append_location_pair`).
- `Tools`: the `for key, value in locals().items()` loop that every looping
  tool runs. Each tool names its positional parameters in order; the
  command starts with `osxphotos <subcommand>` followed by the values bound
  to them (a string as one token, the file list of `import` spliced in).
  Then comes one emission per parameter in declaration order. `cmd`, the
  positional parameters and falsy values are skipped. The tool table maps
  each tool to the helper its per-tool name sets choose.
- `FixedTools`: the tools whose bodies append their few options by hand
  (`albums`, `install`, `uninstall`, ...).
- `Messages`: the text of every `ValueError` the helpers raise.
- `Runner`: the copy of the command that `run_osxphotos_command` makes,
  with `cmd[0]` replaced by the resolved executable.
- `Emit`: the shared machinery. An emission is the tokens appended so far
  plus an optional exception. Python appends to `cmd` before it raises, so
  an exception in the middle of a list keeps the earlier entries. The
  module also holds the fold over a list, the `range(0, len(flat), n)`
  stepping loop, and the mutable argv (`class Argv`) that the helpers
  extend in place.
- `PyModel`: the Python values the builders see. A `Value` is missing, a
  scalar, or a list of items; an item is a scalar, a sequence or a dict.
  The module also models truthiness, `str()`, `repr()` of lists and dicts,
  `len`, `in`, and the behaviour of indexing and iterating items, including
  the `TypeError`/`KeyError` they raise.

The helpers are methods over an `Argv` object whose `tokens` field is the
caller's `cmd` list. Each method is proved against a function that gives
the tokens and the exception. The lemmas are stated about those functions.

The shape of a list is decided by its first element only, as in the source.
A `str` value that reaches a flat branch is iterated character by
character, as Python does.

## Model

| member | source | states |
|---|---|---|
| `Flags.FlagSpelling` | src/mcp_osxphotos/server.py:69-70 | the flag is `--` and then the name with every `_` turned into `-`: two characters longer than the name, no `_` after the dashes, every other character kept in place |
| `Flags.FlagInjective` | src/mcp_osxphotos/server.py:69-70 | two names without `-` that get the same flag are the same name |
| `Flags.FlagOfPlainName` | src/mcp_osxphotos/server.py:69-70 | a name without `_` is spelled `--name` |
| `Flags.FlagConcat` | src/mcp_osxphotos/server.py:69-70 | the flag of a concatenation is the flag of the first part, followed by the hyphenated second part |
| `Flags.NoFlagOverrides` | tests/test_arg_builders.py:160-162 | the code has no override table: `print_template` becomes `--print-template`, not `--print`, and `exiftool_flag` becomes `--exiftool-flag`, not `--exiftool` |
| `Pairs.PairKeyMapShape` | src/mcp_osxphotos/server.py:78-84 | every entry of the key table names two distinct keys |
| `Pairs.PairArgs` | src/mcp_osxphotos/server.py:94-172 | an empty or missing value emits nothing; a flat list that is rejected emits nothing before the exception |
| `Pairs.AppendMultiArgPairs` | src/mcp_osxphotos/server.py:87-174 | `cmd` is extended by exactly the tokens `PairArgs` gives, and the exception raised is the one it gives |
| `Pairs.TuplePairsLoop` | src/mcp_osxphotos/server.py:98-127 | the loop over 2-sequences appends exactly what the fold over the entries gives, up to the first bad entry |
| `Pairs.ObjectPairsLoop` | src/mcp_osxphotos/server.py:135-139 | the loop over dicts appends exactly what the fold over the entries gives, up to the first dict with missing keys |
| `Pairs.AppendPairFlat` | src/mcp_osxphotos/server.py:143-174 | the flat branch, including its stepping loop over `range(0, len(flat), 2)`, extends `cmd` by the tokens and the exception of the flat-form function |
| `Pairs.PairFormsAgree` | src/mcp_osxphotos/server.py:97-139 | for any list of pairs, the tuple form, the flat form and (for an option in the key table) the dict form all emit `--flag a b` once per pair, in input order |
| `Pairs.EachTuplePairs` | src/mcp_osxphotos/server.py:98-127 | a list of well-formed 2-sequences emits one `--flag a b` per pair |
| `Pairs.EachObjectPairs` | src/mcp_osxphotos/server.py:135-139 | a list of dicts with both table keys emits one `--flag a b` per dict, with the values taken in table key order |
| `Pairs.FlatPairTokens` | src/mcp_osxphotos/server.py:173-174 | the flat list of n pairs has 2n strings and the stepping loop regroups them into the same `--flag a b` runs |
| `Pairs.TuplePairsKeepEarlierEntries` | src/mcp_osxphotos/server.py:98-127 | a sub-sequence whose length is not 2 raises the pair-length error, and the pairs before it stay appended |
| `Pairs.ObjectPairMissingKeys` | src/mcp_osxphotos/server.py:136-138 | a dict missing a key emits nothing and raises an error that lists exactly the missing keys, in table order |
| `Pairs.ObjectPairsReportMissingKeys` | src/mcp_osxphotos/server.py:131-139 | in a list of dicts, the first dict that misses a key raises that error, listing exactly the missing keys in table order, after the earlier dicts have been appended |
| `Pairs.FlatOddCountRejected` | src/mcp_osxphotos/server.py:143-172 | a flat list of odd length raises the odd-count error carrying the length, and nothing is appended |
| `Pairs.PairObjectFormOnlyForTable` | src/mcp_osxphotos/server.py:131-134 | a list whose first element is a dict is refused as "does not support object form" exactly when the option is not in the key table |
| `Pairs.ObjectLoopNeverRejectsForm` | src/mcp_osxphotos/server.py:135-139 | once the dict branch is entered, later elements never raise the object-form error |
| `Pairs.ObjectPairReadsOnlyTableKeys` | src/mcp_osxphotos/server.py:136-139 | two dicts that agree on the table keys are treated alike |
| `Pairs.ObjectPairIgnoresOtherKeys` | src/mcp_osxphotos/server.py:136-139 | keys outside the table, placed before or after the others, change nothing |
| `Pairs.PairArgsShape` | src/mcp_osxphotos/server.py:127 | every token list the helper emits, complete or cut short by an exception, is a sequence of runs: the flag followed by two values |
| `Pairs.ExifPairsExample` | tests/test_arg_builders.py:20-31 | `[("Make","Apple"),("Model","iPhone")]` for `exif` gives `--exif Make Apple --exif Model iPhone` |
| `Pairs.ExifObjectExample` | tests/test_schema_shapes.py:40-55 | `[{"value": "Apple", "tag": "Make"}]` for `exif` gives `--exif Make Apple`: the values are taken in table key order, not dict order |
| `Pairs.OddFlatExample` | tests/test_arg_builders.py:38-40 | a one-element flat list for `regex` raises the odd-count error |
| `Pairs.TripleExample` | tests/test_arg_builders.py:42-44 | a 3-sequence for `regex` raises the pair-length error |
| `Pairs.KeywordObjectExample` | src/mcp_osxphotos/server.py:132-134 | the dict form for an option outside the table is refused |
| `Groups.SidecarKeysDistinct` | src/mcp_osxphotos/server.py:221 | the sidecar dict form reads three distinct keys |
| `Groups.AppendMultiArgGroup` | src/mcp_osxphotos/server.py:190-241 | `cmd` is extended by exactly the tokens `GroupArgs` gives, and the exception raised is the one it gives |
| `Groups.TupleGroupsLoop` | src/mcp_osxphotos/server.py:202-214 | the loop over sub-sequences appends exactly what the fold over the groups gives, up to the first bad group |
| `Groups.ObjectGroupsLoop` | src/mcp_osxphotos/server.py:222-230 | the loop over dicts appends exactly what the fold gives, up to the first dict with missing keys |
| `Groups.AppendGroupFlat` | src/mcp_osxphotos/server.py:234-241 | the flat branch, including its stepping loop over `range(0, len(flat), arity)`, extends `cmd` by the tokens and the exception of the flat-form function |
| `Groups.EachTupleGroups` | src/mcp_osxphotos/server.py:202-214 | sub-sequences of length N each emit the flag followed by their N values in order |
| `Groups.FlatGroupTokens` | src/mcp_osxphotos/server.py:239-241 | a flat list of k groups of N has kN strings and the stepping loop regroups them into the same runs |
| `Groups.ObjectGroupOfThreeKeys` | src/mcp_osxphotos/server.py:229-230 | a sidecar dict emits the flag and its three values in the order mako_template, filename_template, options |
| `Groups.EachSidecarObjects` | src/mcp_osxphotos/server.py:222-230 | a list of complete sidecar dicts emits one flag and three values per dict |
| `Groups.GroupFormsAgree` | src/mcp_osxphotos/server.py:201-241 | for arity N, the tuple form and the flat form emit the flag and N values per group, in order; the sidecar dict form emits the same as the triple tuple form |
| `Groups.TupleGroupsKeepEarlierEntries` | src/mcp_osxphotos/server.py:202-214 | a group of the wrong length raises the group-length error with its length, and the groups before it stay appended |
| `Groups.ObjectGroupsReportMissingKeys` | src/mcp_osxphotos/server.py:222-228 | the first sidecar dict with a missing key raises an error listing exactly the missing keys in order, after the earlier dicts have been appended |
| `Groups.StrObjectLeavesFlag` | src/mcp_osxphotos/server.py:229-230 | a string placed after a dict passes the `in` test but not the `[k]` lookup: the flag is already appended when the `TypeError` is raised |
| `Groups.StrObjectExample` | src/mcp_osxphotos/server.py:222-230 | a concrete list of a sidecar dict and then a string that contains every key: the dict's group and a lone flag are appended before the `TypeError` |
| `Groups.GroupObjectFormOnlyForSidecar` | src/mcp_osxphotos/server.py:218-220 | the dict form is refused exactly when the option is not `sidecar_template` |
| `Groups.ObjectFormIgnoresArity` | src/mcp_osxphotos/server.py:218-231 | the dict branch does not depend on the arity argument |
| `Groups.FlatCountRejected` | src/mcp_osxphotos/server.py:234-238 | a flat list whose length is not a multiple of N raises the count error with N and the length and appends nothing; an arity of 0 raises `ZeroDivisionError` |
| `Groups.GroupArgsShape` | src/mcp_osxphotos/server.py:213-214 | a successful emission is a sequence of runs of the flag and N values, or 3 values for the dict form |
| `Groups.TwoSidecarTriples` | src/mcp_osxphotos/server.py:199-207 | two string triples give the flag and the three values of the first, then the flag and the three values of the second |
| `Groups.SidecarGroupExample` | tests/test_arg_builders.py:46-53 | the triples `("tmpl.mako","{name}.json","--foo=1")` and `("t2.mako","{uuid}.json","--bar")` give `--sidecar-template tmpl.mako {name}.json --foo=1 --sidecar-template t2.mako {uuid}.json --bar` |
| `Groups.ShortFlatExample` | tests/test_arg_builders.py:64-66 | two flat values for a triple option raise the count error |
| `Groups.ShortGroupExample` | tests/test_arg_builders.py:67-68 | a 2-sequence for `sidecar_template` raises the group-length error with length 2 |
| `Groups.MissingKeysExample` | tests/test_arg_builders.py:151-158 | a sidecar dict with only `mako_template` lists `filename_template` and `options` as missing |
| `Location.AppendLocationPair` | src/mcp_osxphotos/server.py:177-188 | returns handled exactly when the pair was appended; a missing value leaves `cmd` unchanged and returns False; a bad shape raises and leaves `cmd` unchanged |
| `Location.LocationPairCases` | src/mcp_osxphotos/server.py:182-187 | a missing value is the only unhandled case; every value that is not a 2-element list raises the location error; a 2-element list appends the flag and both values in order |
| `Location.LocationOfTwoScalars` | src/mcp_osxphotos/server.py:186-187 | `[lat, lon]` gives `--flag str(lat) str(lon)` |
| `Location.LocationExamples` | tests/test_arg_builders.py:70-94 | a pair of floats is appended; `None` is not handled; one value, three values and the string `"10,20"` raise |
| `Emit.Argv.constructor` | src/mcp_osxphotos/server.py:373 | the command list starts with the given prefix |
| `Emit.Argv.Append` | src/mcp_osxphotos/server.py:213 | `cmd.append` adds one token at the end and changes nothing else |
| `Emit.Argv.Extend` | src/mcp_osxphotos/server.py:127 | `cmd.extend` adds the tokens at the end, in order |
| `Emit.Argv.AppendRuns` | src/mcp_osxphotos/server.py:239-241 | the stepping loop appends the flag before each slice of n flat values; a short last slice is appended as it is |
| `Emit.EachFirstError` | src/mcp_osxphotos/server.py:98-127 | a loop that raises at entry k keeps exactly the tokens of the entries before k and those of entry k itself |
| `Emit.EachErrorFromElement` | src/mcp_osxphotos/server.py:98-127 | an exception out of a loop is the exception of one of its entries |
| `Emit.EachConcat` | src/mcp_osxphotos/server.py:98-127 | looping over a concatenation is looping over the first part, then over the second unless the first raised |
| `Emit.RunsOfOne` | src/mcp_osxphotos/server.py:383-384 | the list branch emits `2n` tokens: the flag, then each element's text |
| `Emit.RunsOccurrences` | src/mcp_osxphotos/server.py:173-174 | a flat list whose length is a multiple of n becomes runs of the flag and n values |
| `PyModel.MissingKeysSpec` | src/mcp_osxphotos/server.py:136 | the missing-key list of a dict holds exactly the required keys the dict lacks, in table order; a str or list entry answers `in` without raising, and any exception is `TypeError` |
| `PyModel.GetStrsSpec` | src/mcp_osxphotos/server.py:230 | reading the keys gives one string per key; a dict that has every key cannot fail |
| `PyModel.IterStrLength` | src/mcp_osxphotos/server.py:214 | an item can be iterated exactly when it has a length, and it gives that many strings |
| `Tools.OptionsIsEach` | src/mcp_osxphotos/server.py:374-386 | the loop over the parameters is the general loop over a list, so the facts proved of that loop apply |
| `Tools.AppendBaseline` | src/mcp_osxphotos/server.py:380-386 | `True` appends the lone flag, a list appends the flag before each element, anything else appends the flag and `str(value)` |
| `Tools.AppendParam` | src/mcp_osxphotos/server.py:375-386 | one turn of the loop extends `cmd` by that parameter's tokens and raises its exception |
| `Tools.ToolCommand` | src/mcp_osxphotos/server.py:373-387 | a built command starts with `osxphotos` and the tool's subcommand |
| `Tools.BuildCommand` | src/mcp_osxphotos/server.py:373-387 | the built argv is the prefix taken from the positional parameters' values, then the parameters' emissions in declaration order; it is an error exactly when a parameter raised |
| `Tools.SinglePositionalPrefix` | src/mcp_osxphotos/server.py:713 | a tool with one positional parameter puts that parameter's value right after the subcommand |
| `Tools.ComparePrefix` | src/mcp_osxphotos/server.py:438-450 | `compare` puts `library_a` and then `library_b` after the subcommand |
| `Tools.ImportPrefix` | src/mcp_osxphotos/server.py:794-843 | `import` splices the list `files_or_dirs` in after the subcommand |
| `Tools.OptionsConcat` | src/mcp_osxphotos/server.py:374-386 | parameters split in two are handled as the first part, then the second |
| `Tools.SilentParameterIgnored` | src/mcp_osxphotos/server.py:375-377 | a binding of `cmd`, of a positional parameter or with a falsy value can be removed from the list the loop walks without changing what the loop appends (the prefix still reads the positional bindings) |
| `Tools.ToolCommandOfParams` | src/mcp_osxphotos/server.py:373-387 | the local `cmd` that `locals()` yields last is skipped: the command is the prefix followed by the parameters' tokens |
| `Tools.ToolCommandInOrder` | src/mcp_osxphotos/server.py:374-386 | the command succeeds exactly when both halves of the parameters do, and then their tokens follow each other in declaration order |
| `Tools.ToolCommandOkIff` | src/mcp_osxphotos/server.py:374-386 | the command is built exactly when no parameter raises |
| `Tools.FirstFailure` | src/mcp_osxphotos/server.py:374-386 | some first parameter raises whenever any does, and none before it raises |
| `Tools.ToolCommandFirstError` | src/mcp_osxphotos/server.py:374-386 | the exception of the first parameter that raises is the tool's exception |
| `Tools.BaselineShape` | src/mcp_osxphotos/server.py:380-386 | a truthy bool gives exactly one token, its flag; a list gives the flag before each element's text; any other value gives the flag and its text |
| `Tools.LocationFallThroughUnused` | src/mcp_osxphotos/server.py:424-428 | a truthy location value is never unhandled, so the fall-through to the baseline rule never runs: the value raises unless it has two elements |
| `Tools.ParamOccurrences` | src/mcp_osxphotos/server.py:374-386 | a parameter that does not raise emits runs of its own flag and the number of values its helper takes |
| `Tools.PlainTableAgrees` | src/mcp_osxphotos/server.py:450-460 | a tool that hands nothing to a helper agrees with the helpers' tables |
| `Tools.PlainToolTablesAgree` | src/mcp_osxphotos/server.py:438-1400 | the ten looping tools that send nothing to a helper, `compare` (438), `exiftool` (495), `exportdb` (735), `info` (864), `keywords` (882), `labels` (899), `orphans` (926), `persons` (946), `places` (963) and `timewarp` (1358), agree with the helpers' tables |
| `Tools.PairToolTablesAgree` | src/mcp_osxphotos/server.py:378 | every option the pair tools send to the pair helper has dict keys in the key table |
| `Tools.OtherToolTablesAgree` | src/mcp_osxphotos/server.py:713-731 | `export` sends `sidecar_template` with arity 3, and `batch_edit` and `import` send only `location` to the location helper |
| `Tools.ToolsAcceptObjectForm` | tests/test_schema_shapes.py:40-66 | no tool refuses the dict form for an option it sends to a helper |
| `Tools.Plain` | src/mcp_osxphotos/server.py:380-386 | a parameter that goes to no helper follows the baseline rule |
| `Tools.OptionsOfTwo` | src/mcp_osxphotos/server.py:374-386 | two parameters that do not raise emit their tokens one after the other |
| `Tools.OptionsOfFour` | src/mcp_osxphotos/server.py:374-386 | four parameters that do not raise emit their tokens in order |
| `Tools.AddLocationsExample` | src/mcp_osxphotos/server.py:373-387 | `add_locations(verbose=True, keyword=["a","b"], exif=[...])` gives `osxphotos add-locations --verbose --keyword a --keyword b --exif Make Apple --exif Model iPhone` |
| `Tools.TrueFlagExample` | src/mcp_osxphotos/server.py:380-381 | `True` for a plain name gives `--name` alone |
| `Tools.KeywordListExample` | src/mcp_osxphotos/server.py:382-384 | a list option gives its flag before each element |
| `Tools.CompareExample` | src/mcp_osxphotos/server.py:450-460 | the two libraries of `compare` follow the subcommand and are not repeated as options |
| `Tools.BatchEditExample` | src/mcp_osxphotos/server.py:419-435 | a location pair is appended by the location helper and not again by the baseline rule |
| `Tools.ImportBadLocationExample` | src/mcp_osxphotos/server.py:843-860 | a one-element location makes `import` raise, so no command is built |
| `Tools.ExportSidecar` | src/mcp_osxphotos/server.py:713-731 | `export(dest, sidecar_template=[(a, b, c)])` gives `osxphotos export dest --sidecar-template a b c` |
| `Tools.ExportSidecarExample` | src/mcp_osxphotos/server.py:713-731 | `export` sends a sidecar triple to the group helper after its destination |
| `FixedTools.AlbumsLayout` | src/mcp_osxphotos/server.py:390-401 | `albums`: `--library L` before `--json`, and an option not given adds nothing |
| `FixedTools.HelpLayout` | src/mcp_osxphotos/server.py:786-791 | `help`: a given command follows as a bare word |
| `FixedTools.ListLibrariesLayout` | src/mcp_osxphotos/server.py:916-923 | `list`: `--json` only when asked |
| `FixedTools.ShowLayout` | src/mcp_osxphotos/server.py:1231-1236 | `show`: the positional argument is third, and `--library L` follows it when given |
| `FixedTools.TutorialLayout` | src/mcp_osxphotos/server.py:1402-1407 | `tutorial`: a nonzero width is passed as its decimal text; 0 or none passes nothing |
| `FixedTools.UuidLayout` | src/mcp_osxphotos/server.py:1415-1420 | `uuid`: `--filename` only when asked |
| `FixedTools.VersionLayout` | src/mcp_osxphotos/server.py:1423-1428 | `version`: `--run R` only when given |
| `FixedTools.InstallLayout` | src/mcp_osxphotos/server.py:1432-1445 | `install`: `--upgrade`, then `-r FILE`, then the packages verbatim at the end |
| `FixedTools.RunLayout` | src/mcp_osxphotos/server.py:1449-1457 | `run`: the python file is third and the arguments follow verbatim |
| `FixedTools.UninstallLayout` | src/mcp_osxphotos/server.py:1461-1470 | `uninstall`: `--yes` first, and the packages always end the command |
| `FixedTools.InstallExample` | src/mcp_osxphotos/server.py:1438-1444 | `install(["a","b"], upgrade=True)` gives `osxphotos install --upgrade a b` |
| `Messages.Quoted` | src/mcp_osxphotos/server.py:138 | `repr` of a string list puts each element in single quotes, in place |
| `Messages.Message` | src/mcp_osxphotos/server.py:99-237 | there is a message exactly for the exceptions the helpers raise as `ValueError` |
| `Messages.PairGuidanceMatchesKeyMap` | src/mcp_osxphotos/server.py:100-125 | the options with tailored guidance are exactly those of the key table; each guidance names the two table keys in table order |
| `Messages.GuidanceMentions` | src/mcp_osxphotos/server.py:100-125 | a guidance text names the object form, both upper-case roles, and each `key: ROLE` pair |
| `Messages.PairLengthMessage` | src/mcp_osxphotos/server.py:99-126 | for an option in the table, the pair-length message gives the tailored guidance and ends with "invalid pair length"; for any other option, it is the generic text ending with the offending entry |
| `Messages.PairOddCountMessage` | src/mcp_osxphotos/server.py:144-172 | for an option in the table, the odd-count message gives the tailored guidance and ends with "odd-length list"; otherwise it ends with the count |
| `Messages.SidecarRolesTextMentions` | src/mcp_osxphotos/server.py:206 | the sidecar text names MAKO_TEMPLATE_FILE, SIDECAR_FILENAME_TEMPLATE and OPTIONS |
| `Messages.SidecarObjectTextSpellsKeys` | src/mcp_osxphotos/server.py:207 | the sidecar object-form text spells the three dict keys in the order the dict form reads them |
| `Messages.GroupLengthMessage` | src/mcp_osxphotos/server.py:203-212 | only `sidecar_template` with arity 3 gets the tailored text with the roles, the object form and the length; others get the generic text ending with the group |
| `Messages.SidecarGuidanceMentions` | src/mcp_osxphotos/server.py:205-208 | the sidecar guidance names the object form and all three roles |
| `Messages.MissingKeysMessages` | src/mcp_osxphotos/server.py:224-228 | each missing key appears quoted in the message; the sidecar message also lists the three required keys in braces |
| `Messages.MessageNamesOption` | src/mcp_osxphotos/server.py:99-237 | every message starts with `Option '<name>'` for the option that raised |
| `Messages.LocationMessage` | src/mcp_osxphotos/server.py:185 | the location message ends with `[LATITUDE, LONGITUDE]` |
| `Messages.GroupCountMessage` | src/mcp_osxphotos/server.py:236-237 | the count message names the arity and ends with the count |
| `Messages.OddFlatListMessage` | tests/test_arg_builders.py:100-140 | for each option in the table, an odd flat list raises a message with the object form and the roles that ends with "odd-length list" |
| `Runner.Resolved` | src/mcp_osxphotos/server.py:54-56 | only the first token changes, and only when it is `osxphotos`; the length is kept |
| `Runner.ResolveCommand` | src/mcp_osxphotos/server.py:54-56 | the new array holds the resolved command and the caller's array is left intact |
| `Runner.ToolCommandResolved` | src/mcp_osxphotos/server.py:54-56 | every command a tool builds starts with `osxphotos`, so it runs the resolved executable with the rest unchanged |

## Left out

- `resolve_osxphotos_path` and its process-wide cache (src/mcp_osxphotos/server.py:21-47) are not modelled. They read environment variables, the filesystem and PATH. The resolved path is a parameter of `Runner.Resolved`.
- The `subprocess.run` call and the conversion of its failures into `"Error: ..."` strings (src/mcp_osxphotos/server.py:57-65) are I/O.
- `osxphotos_health` and `python_version` (src/mcp_osxphotos/server.py:243-268) are left out because they run processes and print JSON.
- The FastMCP registration, the `@mcp.tool()` decorators, dotenv loading and the server launch (src/mcp_osxphotos/server.py:9-19, 1473-1477, src/mcp_osxphotos/__main__.py) are foreign library calls.
- Python's float printing is not modelled. A float is carried with its printed text (`Float(text)`), and `str()` of it is that text.
- `repr()` of a string inside a list or dict, as used in the generic messages, is modelled as the string in single quotes. Python's choice of quote and its escaping are not modelled.
- A tuple as the whole value is not modelled: the tools receive JSON, which has no tuples. In the code such a value fails `isinstance(value, list)` (src/mcp_osxphotos/server.py:97, 131, 201, 218) and reaches the flat branch, so `(("a", "b"),)` for a pair option raises the odd-count error, while the model's `List` takes the list branches.
- A tuple inside a list is treated as a list, which is what `isinstance(x, (list, tuple))` does. `str()` of a tuple prints round brackets, and so the generic "got: (...)" message of a tuple entry is not reproduced exactly.
- A positional parameter that is missing from the bindings contributes nothing to the prefix. The signatures make every positional parameter required, and their type annotations (a string, or for `import` a list of strings) are not checked.
- The keys of a dict are assumed distinct, as in a Python dict. `Lookup` takes the first entry for a key.
- The arity is a `nat`. A negative arity, which no tool passes, is not modelled.
- `locals()` reflection is replaced by an explicit, ordered list of `(name, value)` bindings, followed by the local `cmd`. Each tool's parameter list, defaults and type annotations are not modelled. Only the subcommand and the name sets that decide the helper are.
- The loops over the entries of a pair or group list accumulate their tokens locally, and `cmd` is extended once at the end. Nothing reads `cmd` during the loop, so the result, including the partial output on an exception, is the same.
- The messages of `TypeError`, `KeyError` and `ZeroDivisionError` are not modelled. Only which of the three is raised is modelled.
- `about`, `docs` and `update` (src/mcp_osxphotos/server.py:271-273, 464-466, 1410-1412) pass the fixed list `["osxphotos", <subcommand>]` and build nothing, so they have no member.
- The hand-ordered tools (`albums`, `install`, ...) are modelled as functions of their parameters, not as a local list appended in place. An `Optional[List[str]]` that is `None` is modelled as the empty list.
- `main.py` is a superseded copy of the tools with only the baseline rule, and its loops do not skip the local `cmd`. It is not part of this model.
- The tests for `batch_edit_by_uuid`, for docstring guidance and for type-annotation reflection (tests/test_batch_edit_by_uuid.py, tests/test_docs_guidance.py, tests/test_schema_shapes.py:18-38) target code that is not part of this model.

## Code and tests disagree

tests/test_arg_builders.py:160-162 expects `print_template` to become `--print` and `exiftool_flag` to become `--exiftool`. The `_flag` function has no override table, so the model follows the code. `Flags.NoFlagOverrides` states the flags the code produces.

In `batch_edit` and `import_photos` a location value that the helper does not handle falls through to the baseline rule (src/mcp_osxphotos/server.py:424-428). The helper leaves only `None` unhandled, and a `None` value never reaches it because falsy values are skipped first. `Tools.LocationFallThroughUnused` shows that this fall-through never runs.
