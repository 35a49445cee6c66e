/** The spelling of a command-line flag for a tool parameter name. */
module Flags {

  /** The name with every underscore replaced by a hyphen. */
  function Hyphenate(name: string): string {
    seq(|name|, i requires 0 <= i < |name| => if name[i] == '_' then '-' else name[i])
  }

  /** The flag for a parameter: two hyphens, then the hyphenated name.
      There is no table of exceptions: every name is spelled this way. */
  function Flag(name: string): string {
    "--" + Hyphenate(name)
  }

  /** What the spelling of a flag guarantees: it starts with "--", has no
      underscore after it, and keeps every other character of the name in
      place. */
  lemma FlagSpelling(name: string)
    ensures |Flag(name)| == |name| + 2
    ensures Flag(name)[..2] == "--"
    ensures forall i :: 2 <= i < |Flag(name)| ==> Flag(name)[i] != '_'
    ensures forall i :: 0 <= i < |name| ==>
      Flag(name)[i + 2] == (if name[i] == '_' then '-' else name[i])
  {
  }

  /** Two names that use no hyphens of their own have different flags. */
  lemma FlagInjective(a: string, b: string)
    requires '-' !in a && '-' !in b
    requires Flag(a) == Flag(b)
    ensures a == b
  {
    FlagSpelling(a);
    FlagSpelling(b);
    forall i | 0 <= i < |a| ensures a[i] == b[i] {
      assert Flag(a)[i + 2] == Flag(b)[i + 2];
      assert a[i] != '-' && b[i] != '-';
    }
  }

  /** A name without underscores is used verbatim after the two hyphens. */
  lemma FlagOfPlainName(name: string)
    requires '_' !in name
    ensures Flag(name) == "--" + name
  {
    assert Hyphenate(name) == name;
  }

  /** Hyphenation works piece by piece, so the flag of a name is the flag of
      its first part followed by the hyphenated rest. */
  lemma FlagConcat(a: string, b: string)
    ensures Flag(a + b) == Flag(a) + Hyphenate(b)
  {
    assert Hyphenate(a + b) == Hyphenate(a) + Hyphenate(b);
  }

  /** "print_template" and "exiftool_flag" get the general spelling, not the
      short spellings "--print" and "--exiftool" that the test suite expects
      for them. */
  lemma NoFlagOverrides()
    ensures Flag("print_template") == "--print-template" != "--print"
    ensures Flag("exiftool_flag") == "--exiftool-flag" != "--exiftool"
  {
  }
}
