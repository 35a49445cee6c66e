/** The text of each ValueError that the argument builder raises; the tool
    call reports it to the client as the reason it failed. */
module Messages {
  import opened PyModel
  import opened Pairs
  import opened Groups
  import opened Emit

  // ----- text helpers -----

  predicate EndsWith(s: string, t: string) {
    |t| <= |s| && s[|s| - |t|..] == t
  }

  /** Each string between single quotes, as repr() prints it. */
  function Quoted(xs: seq<string>): (r: seq<string>)
    ensures |r| == |xs|
    ensures forall i :: 0 <= i < |xs| ==> r[i] == "'" + xs[i] + "'"
    decreases |xs|
  {
    if xs == [] then [] else ["'" + xs[0] + "'"] + Quoted(xs[1..])
  }

  /** str() of a Python list of strings: "['a', 'b']". */
  function StrListRepr(xs: seq<string>): string {
    "[" + Join(Quoted(xs), ", ") + "]"
  }

  // ----- the pieces of the messages -----

  /** Every message opens by quoting its option: "Option 'exif'". */
  function Lead(name: string): string {
    "Option '" + name + "'"
  }

  const ObjectForm := "object form"
  const InvalidPairLength := "; got invalid pair length"
  const OddLengthList := "; got odd-length list"
  const PairsOfTwo := " requires pairs of two arguments, got: "
  const EvenNumber := " requires an even number of arguments (pairs), got "
  const NoObjectFormTail := " does not support object form"
  const MissingKeysTail := " missing keys: "
  const InvalidGroupLength := "; got invalid group length ("
  const GroupsOf := " requires groups of "
  const ArgumentsGot := " arguments, got: "
  const MultipleOf := " requires a number of arguments that is a multiple of "
  const CountGot := ", got "
  const SidecarMissing := "; missing keys: "
  const TwoValues := " requires exactly two values: "
  const LatLon := "[LATITUDE, LONGITUDE]"

  /** The role names of a pair: " requires pairs [FIELD, TEMPLATE]". */
  function PairRolesText(role0: string, role1: string): string {
    " requires pairs [" + role0 + ", " + role1 + "]"
  }

  /** The object form of a pair: "[{field: FIELD, template: TEMPLATE}]". */
  function PairKeysText(role0: string, role1: string, key0: string, key1: string): string {
    "[{" + key0 + ": " + role0 + ", " + key1 + ": " + role1 + "}]"
  }

  /** The guidance shared by the tailored pair messages: the two role names
      of a pair, then the object form with the dict key for each role. */
  function Guidance(name: string, role0: string, role1: string, key0: string, key1: string): string {
    Lead(name) + PairRolesText(role0, role1) + " or " + ObjectForm + " " + PairKeysText(role0, role1, key0, key1)
  }

  /** The options that get tailored guidance, with the role names and keys
      their messages spell out. Every other option gets a generic message. */
  function PairGuidance(name: string): Option<string> {
    if name == "field" then Some(Guidance("field", "FIELD", "TEMPLATE", "field", "template"))
    else if name == "regex" then Some(Guidance("regex", "REGEX", "TEMPLATE", "pattern", "template"))
    else if name == "exif" then Some(Guidance("exif", "EXIF_TAG", "VALUE", "tag", "value"))
    else if name == "xattr_template" then Some(Guidance("xattr_template", "ATTRIBUTE", "TEMPLATE", "attribute", "template"))
    else if name == "post_command" then Some(Guidance("post_command", "CATEGORY", "COMMAND", "category", "command"))
    else None
  }

  /** The upper-case names of the two arguments of each pair option. */
  const PairRoles: map<string, (string, string)> := map[
    "field" := ("FIELD", "TEMPLATE"),
    "regex" := ("REGEX", "TEMPLATE"),
    "exif" := ("EXIF_TAG", "VALUE"),
    "xattr_template" := ("ATTRIBUTE", "TEMPLATE"),
    "post_command" := ("CATEGORY", "COMMAND")
  ]

  const MakoRole := "MAKO_TEMPLATE_FILE"
  const FilenameRole := "SIDECAR_FILENAME_TEMPLATE"
  const OptionsRole := "OPTIONS"

  /** " requires triples [MAKO_TEMPLATE_FILE, SIDECAR_FILENAME_TEMPLATE, OPTIONS]" */
  function SidecarRolesText(): string {
    " requires triples [" + MakoRole + ", " + FilenameRole + ", " + OptionsRole + "]"
  }

  /** "[{mako_template: MAKO_TEMPLATE_FILE, filename_template: ..., options: OPTIONS}]" */
  function SidecarObjectText(): string {
    "[{" + "mako_template" + ": " + MakoRole + ", " + "filename_template" + ": " + FilenameRole
      + ", " + "options" + ": " + OptionsRole + "}]"
  }

  /** "{mako_template, filename_template, options}" */
  function SidecarKeysText(): string {
    "{" + "mako_template" + ", " + "filename_template" + ", " + "options" + "}"
  }

  /** The guidance of the tailored sidecar_template message. */
  function SidecarGuidance(): string {
    Lead(SidecarName) + SidecarRolesText() + " or " + ObjectForm + " " + SidecarObjectText()
  }

  // ----- the messages -----

  /** The option an error is about. */
  function Subject(e: Error): string {
    match e
    case PairLength(name, _) => name
    case PairOddCount(name, _) => name
    case NoObjectForm(name) => name
    case PairMissingKeys(name, _) => name
    case GroupLength(name, _, _, _) => name
    case GroupCount(name, _, _) => name
    case GroupMissingKeys(_) => SidecarName
    case LocationShape(name) => name
    case _ => ""
  }

  function PairLengthText(name: string, entry: Item): string {
    match PairGuidance(name)
    case Some(g) => g + InvalidPairLength
    case None => Lead(name) + PairsOfTwo + ItemStr(entry)
  }

  function PairOddCountText(name: string, count: nat): string {
    match PairGuidance(name)
    case Some(g) => g + OddLengthList
    case None => Lead(name) + EvenNumber + NatDecimal(count)
  }

  function NoObjectFormText(name: string): string {
    Lead(name) + NoObjectFormTail
  }

  function PairMissingKeysText(name: string, missing: seq<string>): string {
    Lead(name) + MissingKeysTail + StrListRepr(missing)
  }

  function GroupLengthText(name: string, arity: nat, entry: Item, length: nat): string {
    if name == SidecarName && arity == 3 then SidecarGuidance() + InvalidGroupLength + NatDecimal(length) + ")"
    else Lead(name) + GroupsOf + NatDecimal(arity) + ArgumentsGot + ItemStr(entry)
  }

  function GroupCountText(name: string, arity: nat, count: nat): string {
    Lead(name) + MultipleOf + NatDecimal(arity) + CountGot + NatDecimal(count)
  }

  function GroupMissingKeysText(missing: seq<string>): string {
    Lead(SidecarName) + " " + ObjectForm + " requires keys " + SidecarKeysText() + SidecarMissing + StrListRepr(missing)
  }

  function LocationShapeText(name: string): string {
    Lead(name) + TwoValues + LatLon
  }

  /** The message of a ValueError raised by the helpers; the errors Python
      raises on its own carry messages that are not modelled. */
  function Message(e: Error): (m: Option<string>)
    ensures m.Some? <==> e.IsValueError()
  {
    match e
    case PairLength(name, entry) => Some(PairLengthText(name, entry))
    case PairOddCount(name, count) => Some(PairOddCountText(name, count))
    case NoObjectForm(name) => Some(NoObjectFormText(name))
    case PairMissingKeys(name, missing) => Some(PairMissingKeysText(name, missing))
    case GroupLength(name, arity, entry, length) => Some(GroupLengthText(name, arity, entry, length))
    case GroupCount(name, arity, count) => Some(GroupCountText(name, arity, count))
    case GroupMissingKeys(missing) => Some(GroupMissingKeysText(missing))
    case LocationShape(name) => Some(LocationShapeText(name))
    case _ => None
  }

  // ----- substring lemmas -----

  lemma {:induction false} ContainsExtendRight(s: string, t: string, b: string)
    requires Contains(s, t)
    ensures Contains(s + b, t)
    decreases |s|
  {
    if t <= s {
      assert t <= s + b;
    } else {
      assert (s + b)[1..] == s[1..] + b;
      ContainsExtendRight(s[1..], t, b);
    }
  }

  lemma {:induction false} ContainsExtendLeft(a: string, s: string, t: string)
    requires Contains(s, t)
    ensures Contains(a + s, t)
    decreases |a|
  {
    if a == [] {
      assert a + s == s;
    } else {
      assert (a + s)[1..] == a[1..] + s;
      ContainsExtendLeft(a[1..], s, t);
    }
  }

  /** A piece of a string found inside a larger one is found in it too. */
  lemma ContainsWithin(a: string, s: string, b: string, t: string)
    requires Contains(s, t)
    ensures Contains(a + s + b, t)
  {
    ContainsExtendRight(s, t, b);
    ContainsExtendLeft(a, s + b, t);
    assert a + (s + b) == a + s + b;
  }

  lemma ContainsPiece(a: string, t: string, b: string)
    ensures Contains(a + t + b, t)
  {
    ContainsInfix(a, t, b);
  }

  /** Every part of a joined list appears in the joined text. */
  lemma {:induction false} JoinContainsPart(parts: seq<string>, sep: string, i: nat)
    requires i < |parts|
    ensures Contains(Join(parts, sep), parts[i])
    decreases |parts|
  {
    if |parts| == 1 {
      ContainsPiece("", parts[0], "");
      assert "" + parts[0] + "" == parts[0];
    } else if i == 0 {
      ContainsPiece("", parts[0], sep + Join(parts[1..], sep));
      assert "" + parts[0] + (sep + Join(parts[1..], sep)) == Join(parts, sep);
    } else {
      JoinContainsPart(parts[1..], sep, i - 1);
      ContainsWithin(parts[0] + sep, Join(parts[1..], sep), "", parts[i]);
      assert parts[0] + sep + Join(parts[1..], sep) + "" == Join(parts, sep);
    }
  }

  /** The printed list names each of its strings between quotes. */
  lemma StrListNamesEach(xs: seq<string>, i: nat)
    requires i < |xs|
    ensures Contains(StrListRepr(xs), "'" + xs[i] + "'")
  {
    JoinContainsPart(Quoted(xs), ", ", i);
    ContainsWithin("[", Join(Quoted(xs), ", "), "]", "'" + xs[i] + "'");
  }

  lemma EndsWithSuffix(a: string, t: string)
    ensures EndsWith(a + t, t)
  {
    assert (a + t)[|a + t| - |t|..] == t;
  }

  // ----- properties of the messages -----

  lemma ContainsSelf(t: string)
    ensures Contains(t, t)
  {
    assert t <= t;
  }

  /** Tailored guidance is given to exactly the options of the pair key
      table, and it names, for each role, the very dict key that the object
      form looks up for it. */
  lemma PairGuidanceMatchesKeyMap(name: string)
    ensures PairGuidance(name).Some? <==> name in PairKeyMap
    ensures PairRoles.Keys == PairKeyMap.Keys
    ensures name in PairKeyMap ==>
      PairGuidance(name) == Some(Guidance(name, PairRoles[name].0, PairRoles[name].1, PairKeyMap[name][0], PairKeyMap[name][1]))
  {
  }

  lemma PairRolesTextMentions(role0: string, role1: string)
    ensures Contains(PairRolesText(role0, role1), role0) && Contains(PairRolesText(role0, role1), role1)
  {
    var a := " requires pairs [";
    ContainsPiece(a, role0, ", " + role1 + "]");
    assert a + role0 + (", " + role1 + "]") == PairRolesText(role0, role1);
    ContainsPiece(a + role0 + ", ", role1, "]");
  }

  lemma PairKeysTextMentions(role0: string, role1: string, key0: string, key1: string)
    ensures Contains(PairKeysText(role0, role1, key0, key1), key0 + ": " + role0)
    ensures Contains(PairKeysText(role0, role1, key0, key1), key1 + ": " + role1)
  {
    var k := PairKeysText(role0, role1, key0, key1);
    var tail := ", " + key1 + ": " + role1 + "}]";
    ContainsPiece("[{", key0 + ": " + role0, tail);
    assert "[{" + (key0 + ": " + role0) + tail == k;
    var head := "[{" + key0 + ": " + role0 + ", ";
    ContainsPiece(head, key1 + ": " + role1, "}]");
    assert head + (key1 + ": " + role1) + "}]" == k;
  }

  /** What a guidance text mentions: the object form, both role names, and
      each dict key next to its role. */
  lemma GuidanceMentions(name: string, role0: string, role1: string, key0: string, key1: string)
    ensures var g := Guidance(name, role0, role1, key0, key1);
      Contains(g, ObjectForm) && Contains(g, role0) && Contains(g, role1)
      && Contains(g, key0 + ": " + role0) && Contains(g, key1 + ": " + role1)
  {
    var rt := PairRolesText(role0, role1);
    var kt := PairKeysText(role0, role1, key0, key1);
    var x1 := Lead(name) + rt;
    var x2 := x1 + " or ";
    var x3 := x2 + ObjectForm;
    var x4 := x3 + " ";
    assert Guidance(name, role0, role1, key0, key1) == x4 + kt;
    ContainsSelf(ObjectForm);
    ContainsExtendLeft(x2, ObjectForm, ObjectForm);
    ContainsExtendRight(x3, ObjectForm, " ");
    ContainsExtendRight(x4, ObjectForm, kt);
    PairRolesTextMentions(role0, role1);
    InGuidanceHead(x1, x2, x3, x4, kt, Lead(name), rt, role0);
    InGuidanceHead(x1, x2, x3, x4, kt, Lead(name), rt, role1);
    PairKeysTextMentions(role0, role1, key0, key1);
    ContainsExtendLeft(x4, kt, key0 + ": " + role0);
    ContainsExtendLeft(x4, kt, key1 + ": " + role1);
  }

  lemma InGuidanceHead(x1: string, x2: string, x3: string, x4: string, kt: string, lead: string, rt: string, t: string)
    requires Contains(rt, t) && x1 == lead + rt
    requires x2 == x1 + " or " && x3 == x2 + ObjectForm && x4 == x3 + " "
    ensures Contains(x4 + kt, t)
  {
    ContainsExtendLeft(lead, rt, t);
    ContainsExtendRight(x1, t, " or ");
    ContainsExtendRight(x2, t, ObjectForm);
    ContainsExtendRight(x3, t, " ");
    ContainsExtendRight(x4, t, kt);
  }

  lemma TailoredMentions(g: string, suffix: string, name: string, role0: string, role1: string, key0: string, key1: string)
    requires g == Guidance(name, role0, role1, key0, key1)
    ensures Contains(g + suffix, ObjectForm) && Contains(g + suffix, role0) && Contains(g + suffix, role1)
    ensures Contains(g + suffix, key0 + ": " + role0) && Contains(g + suffix, key1 + ": " + role1)
    ensures EndsWith(g + suffix, suffix)
  {
    GuidanceMentions(name, role0, role1, key0, key1);
    ContainsExtendRight(g, ObjectForm, suffix);
    ContainsExtendRight(g, role0, suffix);
    ContainsExtendRight(g, role1, suffix);
    ContainsExtendRight(g, key0 + ": " + role0, suffix);
    ContainsExtendRight(g, key1 + ": " + role1, suffix);
    EndsWithSuffix(g, suffix);
  }

  /** The pair options of the table and what their tailored guidance must
      name: the object form, both roles, and each key next to its role. */
  predicate NamesPairForm(m: string, name: string)
    requires name in PairKeyMap && name in PairRoles
  {
    Contains(m, ObjectForm) && Contains(m, PairRoles[name].0) && Contains(m, PairRoles[name].1)
    && Contains(m, PairKeyMap[name][0] + ": " + PairRoles[name].0)
    && Contains(m, PairKeyMap[name][1] + ": " + PairRoles[name].1)
  }

  /** A pair of the wrong length: an option of the table gets guidance
      naming its roles and object keys, any other option the generic message
      ending in the offending entry. */
  lemma PairLengthMessage(name: string, entry: Item)
    ensures name in PairKeyMap ==>
      name in PairRoles && NamesPairForm(PairLengthText(name, entry), name)
      && EndsWith(PairLengthText(name, entry), InvalidPairLength)
    ensures name !in PairKeyMap ==>
      PairLengthText(name, entry) == Lead(name) + PairsOfTwo + ItemStr(entry)
      && EndsWith(PairLengthText(name, entry), ItemStr(entry))
  {
    PairGuidanceMatchesKeyMap(name);
    if name in PairKeyMap {
      var r := PairRoles[name];
      var g := Guidance(name, r.0, r.1, PairKeyMap[name][0], PairKeyMap[name][1]);
      TailoredMentions(g, InvalidPairLength, name, r.0, r.1, PairKeyMap[name][0], PairKeyMap[name][1]);
    } else {
      EndsWithSuffix(Lead(name) + PairsOfTwo, ItemStr(entry));
    }
  }

  /** A flat list of odd length: the same guidance for an option of the
      table, and for any other option a message ending in the count. */
  lemma PairOddCountMessage(name: string, count: nat)
    ensures name in PairKeyMap ==>
      name in PairRoles && NamesPairForm(PairOddCountText(name, count), name)
      && EndsWith(PairOddCountText(name, count), OddLengthList)
    ensures name !in PairKeyMap ==>
      PairOddCountText(name, count) == Lead(name) + EvenNumber + NatDecimal(count)
      && EndsWith(PairOddCountText(name, count), NatDecimal(count))
  {
    PairGuidanceMatchesKeyMap(name);
    if name in PairKeyMap {
      var r := PairRoles[name];
      var g := Guidance(name, r.0, r.1, PairKeyMap[name][0], PairKeyMap[name][1]);
      TailoredMentions(g, OddLengthList, name, r.0, r.1, PairKeyMap[name][0], PairKeyMap[name][1]);
    } else {
      EndsWithSuffix(Lead(name) + EvenNumber, NatDecimal(count));
    }
  }

  lemma SidecarRolesTextMentions()
    ensures Contains(SidecarRolesText(), MakoRole)
    ensures Contains(SidecarRolesText(), FilenameRole)
    ensures Contains(SidecarRolesText(), OptionsRole)
  {
    var a := " requires triples [";
    ContainsPiece(a, MakoRole, ", " + FilenameRole + ", " + OptionsRole + "]");
    assert a + MakoRole + (", " + FilenameRole + ", " + OptionsRole + "]") == SidecarRolesText();
    var b := a + MakoRole + ", ";
    ContainsPiece(b, FilenameRole, ", " + OptionsRole + "]");
    assert b + FilenameRole + (", " + OptionsRole + "]") == SidecarRolesText();
    ContainsPiece(b + FilenameRole + ", ", OptionsRole, "]");
  }

  /** The object form in the sidecar guidance spells, in order, the three
      keys that the object form of sidecar_template requires, each with its
      role. */
  lemma SidecarObjectTextSpellsKeys()
    ensures SidecarObjectText() == "[{" + SidecarKeys[0] + ": " + MakoRole + ", " + SidecarKeys[1] + ": " + FilenameRole
      + ", " + SidecarKeys[2] + ": " + OptionsRole + "}]"
    ensures SidecarKeysText() == "{" + Join(SidecarKeys, ", ") + "}"
  {
    assert SidecarKeys[0] == "mako_template" && SidecarKeys[1] == "filename_template" && SidecarKeys[2] == "options";
    JoinOfThree(SidecarKeys[0], SidecarKeys[1], SidecarKeys[2], ", ");
    assert SidecarKeys == [SidecarKeys[0], SidecarKeys[1], SidecarKeys[2]];
    ConcatAssoc("{", SidecarKeys[0] + ", " + SidecarKeys[1] + ", ", SidecarKeys[2]);
    assert "{" + (SidecarKeys[0] + ", " + SidecarKeys[1] + ", " + SidecarKeys[2]) + "}" == SidecarKeysText() by {
      StringAssoc5("{", SidecarKeys[0], ", ", SidecarKeys[1], ", ");
    }
  }

  lemma StringAssoc5(a: string, b: string, c: string, d: string, e: string)
    ensures a + (b + c + d + e) == a + b + c + d + e
  {
  }

  /** A group of the wrong length: for sidecar_template with arity 3 the
      message names the three roles and the object form with its keys, and
      ends with the length in parentheses; otherwise it is the generic
      message ending in the entry. */
  lemma GroupLengthMessage(name: string, arity: nat, entry: Item, length: nat)
    ensures name == SidecarName && arity == 3 ==>
      var m := GroupLengthText(name, arity, entry, length);
      Contains(m, ObjectForm) && Contains(m, MakoRole) && Contains(m, FilenameRole) && Contains(m, OptionsRole)
      && Contains(m, SidecarObjectText()) && EndsWith(m, NatDecimal(length) + ")")
    ensures !(name == SidecarName && arity == 3) ==>
      var m := GroupLengthText(name, arity, entry, length);
      m == Lead(name) + GroupsOf + NatDecimal(arity) + ArgumentsGot + ItemStr(entry) && EndsWith(m, ItemStr(entry))
  {
    if name == SidecarName && arity == 3 {
      var g := SidecarGuidance();
      var n := NatDecimal(length);
      SidecarGuidanceMentions();
      forall t | t in [ObjectForm, MakoRole, FilenameRole, OptionsRole, SidecarObjectText()]
        ensures Contains(g + InvalidGroupLength + n + ")", t)
      {
        ContainsExtendRight(g, t, InvalidGroupLength);
        ContainsExtendRight(g + InvalidGroupLength, t, n);
        ContainsExtendRight(g + InvalidGroupLength + n, t, ")");
      }
      EndsWithSuffix(g + InvalidGroupLength, n + ")");
      ConcatAssoc(g + InvalidGroupLength, n, ")");
    } else {
      EndsWithSuffix(Lead(name) + GroupsOf + NatDecimal(arity) + ArgumentsGot, ItemStr(entry));
    }
  }

  /** The sidecar guidance names the object form, the three roles and the
      object form with its keys. */
  lemma SidecarGuidanceMentions()
    ensures var g := SidecarGuidance();
      Contains(g, ObjectForm) && Contains(g, MakoRole) && Contains(g, FilenameRole) && Contains(g, OptionsRole)
      && Contains(g, SidecarObjectText())
  {
    var rt := SidecarRolesText();
    var ot := SidecarObjectText();
    var x1 := Lead(SidecarName) + rt;
    var x2 := x1 + " or ";
    var x3 := x2 + ObjectForm;
    var x4 := x3 + " ";
    ContainsSelf(ObjectForm);
    ContainsExtendLeft(x2, ObjectForm, ObjectForm);
    ContainsExtendRight(x3, ObjectForm, " ");
    ContainsExtendRight(x4, ObjectForm, ot);
    SidecarRolesTextMentions();
    InGuidanceHead(x1, x2, x3, x4, ot, Lead(SidecarName), rt, MakoRole);
    InGuidanceHead(x1, x2, x3, x4, ot, Lead(SidecarName), rt, FilenameRole);
    InGuidanceHead(x1, x2, x3, x4, ot, Lead(SidecarName), rt, OptionsRole);
    ContainsSelf(ot);
    ContainsExtendLeft(x4, ot, ot);
  }

  lemma JoinOfThree(a: string, b: string, c: string, sep: string)
    ensures Join([a, b, c], sep) == a + sep + b + sep + c
  {
    assert [a, b, c][1..] == [b, c] && [b, c][1..] == [c];
    assert Join([b, c], sep) == b + sep + c;
    assert Join([a, b, c], sep) == a + sep + (b + sep + c);
  }

  /** A missing-keys message lists every missing key between quotes, and the
      sidecar one also names, in braces, the keys its object form requires. */
  lemma MissingKeysMessages(name: string, missing: seq<string>, i: nat)
    requires i < |missing|
    ensures Contains(PairMissingKeysText(name, missing), "'" + missing[i] + "'")
    ensures Contains(GroupMissingKeysText(missing), "'" + missing[i] + "'")
    ensures Contains(GroupMissingKeysText(missing), "{" + Join(SidecarKeys, ", ") + "}")
    ensures Contains(GroupMissingKeysText(missing), ObjectForm)
  {
    StrListNamesEach(missing, i);
    var q := "'" + missing[i] + "'";
    var r := StrListRepr(missing);
    var k := SidecarKeysText();
    ContainsExtendLeft(Lead(name) + MissingKeysTail, r, q);
    var x := Lead(SidecarName) + " " + ObjectForm + " requires keys ";
    ContainsExtendLeft(x + k + SidecarMissing, r, q);
    SidecarObjectTextSpellsKeys();
    ContainsSelf(k);
    ContainsExtendLeft(x, k, k);
    ContainsExtendRight(x + k, k, SidecarMissing);
    ContainsExtendRight(x + k + SidecarMissing, k, r);
    ContainsPiece(Lead(SidecarName) + " ", ObjectForm, " requires keys ");
    ContainsExtendRight(x, ObjectForm, k);
    ContainsExtendRight(x + k, ObjectForm, SidecarMissing);
    ContainsExtendRight(x + k + SidecarMissing, ObjectForm, r);
  }

  lemma PrefixExtend(p: string, s: string, y: string)
    requires p <= s
    ensures p <= s + y
  {
    assert (s + y)[..|p|] == s[..|p|];
  }

  /** Every message starts by quoting the option it is about. */
  lemma MessageNamesOption(e: Error)
    requires e.IsValueError()
    ensures Lead(Subject(e)) <= Message(e).value
  {
    match e
    case PairLength(name, entry) => PairTextsLead(name, entry, 0);
    case PairOddCount(name, count) => PairTextsLead(name, Atom(Int(0)), count);
    case NoObjectForm(name) => OtherTextsLead(name, []);
    case PairMissingKeys(name, missing) => OtherTextsLead(name, missing);
    case GroupLength(name, arity, entry, length) => GroupTextsLead(name, arity, entry, length, 0);
    case GroupCount(name, arity, count) => GroupTextsLead(name, arity, Atom(Int(0)), 0, count);
    case GroupMissingKeys(missing) => OtherTextsLead(SidecarName, missing);
    case LocationShape(name) => OtherTextsLead(name, []);
  }

  lemma PairTextsLead(name: string, entry: Item, count: nat)
    ensures Lead(name) <= PairLengthText(name, entry) && Lead(name) <= PairOddCountText(name, count)
  {
    var p := Lead(name);
    assert p <= p;
    PairGuidanceMatchesKeyMap(name);
    if name in PairKeyMap {
      GuidanceLead(name, PairRoles[name].0, PairRoles[name].1, PairKeyMap[name][0], PairKeyMap[name][1]);
      PrefixExtend(p, PairGuidance(name).value, InvalidPairLength);
      PrefixExtend(p, PairGuidance(name).value, OddLengthList);
    } else {
      PrefixExtend(p, p, PairsOfTwo);
      PrefixExtend(p, p + PairsOfTwo, ItemStr(entry));
      PrefixExtend(p, p, EvenNumber);
      PrefixExtend(p, p + EvenNumber, NatDecimal(count));
    }
  }

  lemma GroupTextsLead(name: string, arity: nat, entry: Item, length: nat, count: nat)
    ensures Lead(name) <= GroupLengthText(name, arity, entry, length)
    ensures Lead(name) <= GroupCountText(name, arity, count)
  {
    var p := Lead(name);
    assert p <= p;
    if name == SidecarName && arity == 3 {
      var g := SidecarGuidance();
      PrefixExtend(p, p, SidecarRolesText());
      PrefixExtend(p, p + SidecarRolesText(), " or ");
      PrefixExtend(p, p + SidecarRolesText() + " or ", ObjectForm);
      PrefixExtend(p, p + SidecarRolesText() + " or " + ObjectForm, " ");
      PrefixExtend(p, p + SidecarRolesText() + " or " + ObjectForm + " ", SidecarObjectText());
      PrefixExtend(p, g, InvalidGroupLength);
      PrefixExtend(p, g + InvalidGroupLength, NatDecimal(length));
      PrefixExtend(p, g + InvalidGroupLength + NatDecimal(length), ")");
    } else {
      PrefixExtend(p, p, GroupsOf);
      PrefixExtend(p, p + GroupsOf, NatDecimal(arity));
      PrefixExtend(p, p + GroupsOf + NatDecimal(arity), ArgumentsGot);
      PrefixExtend(p, p + GroupsOf + NatDecimal(arity) + ArgumentsGot, ItemStr(entry));
    }
    PrefixExtend(p, p, MultipleOf);
    PrefixExtend(p, p + MultipleOf, NatDecimal(arity));
    PrefixExtend(p, p + MultipleOf + NatDecimal(arity), CountGot);
    PrefixExtend(p, p + MultipleOf + NatDecimal(arity) + CountGot, NatDecimal(count));
  }

  lemma OtherTextsLead(name: string, missing: seq<string>)
    ensures Lead(name) <= NoObjectFormText(name)
    ensures Lead(name) <= PairMissingKeysText(name, missing)
    ensures Lead(name) <= LocationShapeText(name)
    ensures Lead(SidecarName) <= GroupMissingKeysText(missing)
  {
    var p := Lead(name);
    assert p <= p;
    PrefixExtend(p, p, NoObjectFormTail);
    PrefixExtend(p, p, MissingKeysTail);
    PrefixExtend(p, p + MissingKeysTail, StrListRepr(missing));
    PrefixExtend(p, p, TwoValues);
    PrefixExtend(p, p + TwoValues, LatLon);
    var q := Lead(SidecarName);
    assert q <= q;
    PrefixExtend(q, q, " ");
    PrefixExtend(q, q + " ", ObjectForm);
    PrefixExtend(q, q + " " + ObjectForm, " requires keys ");
    PrefixExtend(q, q + " " + ObjectForm + " requires keys ", SidecarKeysText());
    PrefixExtend(q, q + " " + ObjectForm + " requires keys " + SidecarKeysText(), SidecarMissing);
    PrefixExtend(q, q + " " + ObjectForm + " requires keys " + SidecarKeysText() + SidecarMissing, StrListRepr(missing));
  }

  lemma GuidanceLead(name: string, role0: string, role1: string, key0: string, key1: string)
    ensures Lead(name) <= Guidance(name, role0, role1, key0, key1)
  {
    var p := Lead(name);
    assert p <= p;
    PrefixExtend(p, p, PairRolesText(role0, role1));
    PrefixExtend(p, p + PairRolesText(role0, role1), " or ");
    PrefixExtend(p, p + PairRolesText(role0, role1) + " or ", ObjectForm);
    PrefixExtend(p, p + PairRolesText(role0, role1) + " or " + ObjectForm, " ");
    PrefixExtend(p, p + PairRolesText(role0, role1) + " or " + ObjectForm + " ", PairKeysText(role0, role1, key0, key1));
  }

  /** The location message asks for a latitude and a longitude whatever the
      value was. */
  lemma LocationMessage(name: string)
    ensures Contains(LocationShapeText(name), LatLon)
    ensures EndsWith(LocationShapeText(name), LatLon)
  {
    ContainsSelf(LatLon);
    ContainsExtendLeft(Lead(name) + TwoValues, LatLon, LatLon);
    EndsWithSuffix(Lead(name) + TwoValues, LatLon);
  }

  /** The message of a flat list whose length is not a multiple of the arity
      names the arity and ends with the count. */
  lemma GroupCountMessage(name: string, arity: nat, count: nat)
    ensures Contains(GroupCountText(name, arity, count), MultipleOf + NatDecimal(arity))
    ensures EndsWith(GroupCountText(name, arity, count), CountGot + NatDecimal(count))
  {
    var x := Lead(name) + MultipleOf + NatDecimal(arity);
    ConcatAssoc(Lead(name), MultipleOf, NatDecimal(arity));
    ContainsSelf(MultipleOf + NatDecimal(arity));
    ContainsExtendLeft(Lead(name), MultipleOf + NatDecimal(arity), MultipleOf + NatDecimal(arity));
    ContainsExtendRight(x, MultipleOf + NatDecimal(arity), CountGot);
    ContainsExtendRight(x + CountGot, MultipleOf + NatDecimal(arity), NatDecimal(count));
    EndsWithSuffix(x, CountGot + NatDecimal(count));
    ConcatAssoc(x, CountGot, NatDecimal(count));
  }

  /** An odd flat list for an option of the table raises the tailored
      guidance, which names the roles and the object keys of that option. */
  lemma OddFlatListMessage(name: string, pairs: seq<(Scalar, Scalar)>, last: Scalar)
    requires name in PairKeyMap
    ensures var r := PairArgs(name, List(AsFlat(pairs) + [Atom(last)]));
      r.error.Some? && Message(r.error.value).Some?
      && name in PairRoles && NamesPairForm(Message(r.error.value).value, name)
      && EndsWith(Message(r.error.value).value, OddLengthList)
  {
    FlatOddCountRejected(name, pairs, last);
    PairOddCountMessage(name, 2 * |pairs| + 1);
  }
}
