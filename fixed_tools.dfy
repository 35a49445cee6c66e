/** The tools whose bodies append their options by hand, in a fixed order,
    instead of looping over their parameters. */
module FixedTools {
  import opened PyModel
  import opened Tools

  /** `if s:` for an `Optional[str]`: given and not empty. */
  predicate Given(s: Option<string>) {
    s.Some? && s.value != ""
  }

  function Bit(b: bool): nat {
    if b then 1 else 0
  }

  /** `albums(library, json)` */
  function Albums(library: Option<string>, json: bool): seq<string> {
    [Executable, "albums"]
      + (if Given(library) then ["--library", library.value] else [])
      + (if json then ["--json"] else [])
  }

  /** `help_command(command)`: the command is passed without a flag. */
  function Help(command: Option<string>): seq<string> {
    [Executable, "help"] + (if Given(command) then [command.value] else [])
  }

  /** `list_libraries(json)` */
  function ListLibraries(json: bool): seq<string> {
    [Executable, "list"] + (if json then ["--json"] else [])
  }

  /** `show(uuid_or_name, library)` */
  function Show(uuidOrName: string, library: Option<string>): seq<string> {
    [Executable, "show", uuidOrName] + (if Given(library) then ["--library", library.value] else [])
  }

  /** `tutorial(width)`: a width of 0 counts as not given. */
  function Tutorial(width: Option<int>): seq<string> {
    [Executable, "tutorial"] + (if width.Some? && width.value != 0 then [IntDecimal(width.value)] else [])
  }

  /** `uuid(filename)` */
  function Uuid(filename: bool): seq<string> {
    [Executable, "uuid"] + (if filename then ["--filename"] else [])
  }

  /** `version(run)` */
  function Version(run: Option<string>): seq<string> {
    [Executable, "version"] + (if Given(run) then ["--run", run.value] else [])
  }

  /** `install(packages, upgrade, requirements_file)`; a missing list of
      packages is the empty list. */
  function Install(packages: seq<string>, upgrade: bool, requirementsFile: Option<string>): seq<string> {
    [Executable, "install"]
      + (if upgrade then ["--upgrade"] else [])
      + (if Given(requirementsFile) then ["-r", requirementsFile.value] else [])
      + packages
  }

  /** `run(python_file, args)`; missing args are the empty list. */
  function Run(pythonFile: string, args: seq<string>): seq<string> {
    [Executable, "run", pythonFile] + args
  }

  /** `uninstall(packages, yes)`: the packages are appended even when the
      list is empty. */
  function Uninstall(packages: seq<string>, yes: bool): seq<string> {
    [Executable, "uninstall"] + (if yes then ["--yes"] else []) + packages
  }

  // ----- layouts -----

  /** albums: the library option comes before --json, and an option not
      given contributes nothing. */
  lemma AlbumsLayout(library: Option<string>, json: bool)
    ensures var r := Albums(library, json);
      |r| == 2 + 2 * Bit(Given(library)) + Bit(json)
      && r[..2] == [Executable, "albums"]
      && (Given(library) ==> r[2] == "--library" && r[3] == library.value)
      && (json ==> r[|r| - 1] == "--json")
  {
  }

  /** help: a given command follows the subcommand as a bare word. */
  lemma HelpLayout(command: Option<string>)
    ensures var r := Help(command);
      |r| == 2 + Bit(Given(command)) && r[..2] == [Executable, "help"]
      && (Given(command) ==> r[2] == command.value)
  {
  }

  lemma ListLibrariesLayout(json: bool)
    ensures var r := ListLibraries(json);
      |r| == 2 + Bit(json) && r[..2] == [Executable, "list"] && (json ==> r[2] == "--json")
  {
  }

  /** show: the positional argument stays in third place, whether or not a
      library follows. */
  lemma ShowLayout(uuidOrName: string, library: Option<string>)
    ensures var r := Show(uuidOrName, library);
      |r| == 3 + 2 * Bit(Given(library)) && r[..3] == [Executable, "show", uuidOrName]
      && (Given(library) ==> r[3..] == ["--library", library.value])
  {
  }

  /** tutorial: a nonzero width is passed as its decimal text; zero or
      None passes nothing. */
  lemma TutorialLayout(width: Option<int>)
    ensures var r := Tutorial(width);
      r[..2] == [Executable, "tutorial"]
      && (width.Some? && width.value != 0 ==> |r| == 3 && r[2] == IntDecimal(width.value))
      && (width.None? || width.value == 0 ==> |r| == 2)
  {
  }

  lemma UuidLayout(filename: bool)
    ensures var r := Uuid(filename);
      |r| == 2 + Bit(filename) && r[..2] == [Executable, "uuid"] && (filename ==> r[2] == "--filename")
  {
  }

  lemma VersionLayout(run: Option<string>)
    ensures var r := Version(run);
      |r| == 2 + 2 * Bit(Given(run)) && r[..2] == [Executable, "version"]
      && (Given(run) ==> r[2..] == ["--run", run.value])
  {
  }

  /** install: --upgrade, then `-r FILE`, then the packages verbatim at the
      end; an option not given contributes nothing. */
  lemma InstallLayout(packages: seq<string>, upgrade: bool, requirementsFile: Option<string>)
    ensures var r := Install(packages, upgrade, requirementsFile);
      var k := 2 + Bit(upgrade);
      |r| == k + 2 * Bit(Given(requirementsFile)) + |packages|
      && r[..2] == [Executable, "install"]
      && (upgrade ==> r[2] == "--upgrade")
      && (Given(requirementsFile) ==> r[k] == "-r" && r[k + 1] == requirementsFile.value)
      && r[|r| - |packages|..] == packages
  {
    var r := Install(packages, upgrade, requirementsFile);
    var head := [Executable, "install"] + (if upgrade then ["--upgrade"] else [])
      + (if Given(requirementsFile) then ["-r", requirementsFile.value] else []);
    assert r == head + packages;
    assert r[|head|..] == packages;
  }

  /** run: the python file stays in third place and the arguments follow it
      verbatim. */
  lemma RunLayout(pythonFile: string, args: seq<string>)
    ensures var r := Run(pythonFile, args);
      |r| == 3 + |args| && r[..3] == [Executable, "run", pythonFile] && r[3..] == args
  {
  }

  /** uninstall: --yes comes first, and the packages always end the command. */
  lemma UninstallLayout(packages: seq<string>, yes: bool)
    ensures var r := Uninstall(packages, yes);
      |r| == 2 + Bit(yes) + |packages| && r[..2] == [Executable, "uninstall"]
      && (yes ==> r[2] == "--yes")
      && r[2 + Bit(yes)..] == packages
  {
    var head := [Executable, "uninstall"] + (if yes then ["--yes"] else []);
    assert Uninstall(packages, yes) == head + packages;
  }

  /** Unlike the looping tools, install passes its packages as bare words
      after the options: `install(["a", "b"], upgrade=True)`. */
  lemma InstallExample()
    ensures Install(["a", "b"], true, None) == ["osxphotos", "install", "--upgrade", "a", "b"]
  {
  }
}
