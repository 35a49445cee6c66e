/** Python values as the tool parameters of the server carry them, and the
    handful of built-in Python operations (truthiness, str(), len(), indexing,
    `in`, iteration) that the argument builder applies to them. */
module PyModel {

  datatype Option<+T> = None | Some(value: T)

  /** A scalar. A float is kept as the text that Python's str() prints for it
      ("10.5", "0.0"); float formatting itself is not modelled. */
  datatype Scalar =
    | Str(s: string)
    | Int(i: int)
    | Float(text: string)
    | Bool(b: bool)

  /** One element of a Python list: a scalar, a list or tuple of scalars, or a
      dict given by its (key, value) entries in insertion order. */
  datatype Item =
    | Atom(a: Scalar)
    | Items(xs: seq<Scalar>)
    | Object(entries: seq<(string, Scalar)>)

  /** The value of one tool parameter: None, a scalar, or a list of items. */
  datatype Value =
    | Absent
    | Atomic(a: Scalar)
    | List(items: seq<Item>)

  /** The exceptions the argument builder can raise. All but the last three
      are the ValueErrors raised by the helpers themselves; the last three are
      the errors Python raises on its own for inputs of an unexpected shape. */
  datatype Error =
    | PairLength(name: string, entry: Item)
    | PairOddCount(name: string, count: nat)
    | NoObjectForm(name: string)
    | PairMissingKeys(name: string, missing: seq<string>)
    | GroupLength(name: string, arity: nat, entry: Item, length: nat)
    | GroupCount(name: string, arity: nat, count: nat)
    | GroupMissingKeys(missing: seq<string>)
    | LocationShape(name: string)
    | TypeError
    | KeyError
    | ZeroDivision
  {
    predicate IsValueError() {
      !(TypeError? || KeyError? || ZeroDivision?)
    }
  }

  datatype Result<+T> = Ok(value: T) | Err(error: Error)

  // ----- truthiness (`if value:`) -----

  predicate ScalarTruthy(a: Scalar) {
    match a
    case Str(s) => s != ""
    case Int(i) => i != 0
    case Float(t) => t != "0.0" && t != "-0.0"
    case Bool(b) => b
  }

  predicate Truthy(v: Value) {
    match v
    case Absent => false
    case Atomic(a) => ScalarTruthy(a)
    case List(items) => items != []
  }

  // ----- str() and repr() -----

  function NatDecimal(n: nat): string
    decreases n
  {
    var d := "0123456789"[n % 10];
    if n < 10 then [d] else NatDecimal(n / 10) + [d]
  }

  function IntDecimal(i: int): string {
    if i < 0 then "-" + NatDecimal(-i) else NatDecimal(i)
  }

  function ScalarStr(a: Scalar): string {
    match a
    case Str(s) => s
    case Int(i) => IntDecimal(i)
    case Float(t) => t
    case Bool(b) => if b then "True" else "False"
  }

  /** repr() of a scalar; string quoting and escaping are simplified to a
      pair of single quotes. */
  function ScalarRepr(a: Scalar): string {
    match a
    case Str(s) => "'" + s + "'"
    case _ => ScalarStr(a)
  }

  function Join(parts: seq<string>, sep: string): string
    decreases |parts|
  {
    if |parts| == 0 then ""
    else if |parts| == 1 then parts[0]
    else parts[0] + sep + Join(parts[1..], sep)
  }

  function ScalarStrs(xs: seq<Scalar>): (r: seq<string>)
    ensures |r| == |xs|
    ensures forall i :: 0 <= i < |xs| ==> r[i] == ScalarStr(xs[i])
    decreases |xs|
  {
    if xs == [] then [] else [ScalarStr(xs[0])] + ScalarStrs(xs[1..])
  }

  function ScalarReprs(xs: seq<Scalar>): seq<string>
    decreases |xs|
  {
    if xs == [] then [] else [ScalarRepr(xs[0])] + ScalarReprs(xs[1..])
  }

  function EntryReprs(es: seq<(string, Scalar)>): seq<string>
    decreases |es|
  {
    if es == [] then [] else ["'" + es[0].0 + "': " + ScalarRepr(es[0].1)] + EntryReprs(es[1..])
  }

  function ItemRepr(it: Item): string {
    match it
    case Atom(a) => ScalarRepr(a)
    case Items(xs) => "[" + Join(ScalarReprs(xs), ", ") + "]"
    case Object(es) => "{" + Join(EntryReprs(es), ", ") + "}"
  }

  function ItemReprs(items: seq<Item>): seq<string>
    decreases |items|
  {
    if items == [] then [] else [ItemRepr(items[0])] + ItemReprs(items[1..])
  }

  /** str(item) */
  function ItemStr(it: Item): string {
    if it.Atom? then ScalarStr(it.a) else ItemRepr(it)
  }

  /** [str(v) for v in items] */
  function ItemStrs(items: seq<Item>): (r: seq<string>)
    ensures |r| == |items|
    ensures forall i :: 0 <= i < |items| ==> r[i] == ItemStr(items[i])
    decreases |items|
  {
    if items == [] then [] else [ItemStr(items[0])] + ItemStrs(items[1..])
  }

  /** str(value) for the value of a parameter. */
  function ValueStr(v: Value): string {
    match v
    case Absent => "None"
    case Atomic(a) => ScalarStr(a)
    case List(items) => "[" + Join(ItemReprs(items), ", ") + "]"
  }

  /** The one-character strings of s, as iterating over a Python str gives them. */
  function Chars(s: string): (r: seq<string>)
    ensures |r| == |s|
    ensures forall i :: 0 <= i < |s| ==> r[i] == [s[i]]
    decreases |s|
  {
    if s == [] then [] else [[s[0]]] + Chars(s[1..])
  }

  // ----- substring test, dict lookup -----

  /** `t in s` for two Python strings. */
  predicate Contains(s: string, t: string)
    decreases |s|
  {
    t <= s || (|s| > 0 && Contains(s[1..], t))
  }

  lemma {:induction false} ContainsInfix(a: string, t: string, b: string)
    ensures Contains(a + t + b, t)
    decreases |a|
  {
    if a == [] {
      assert a + t + b == t + b;
    } else {
      assert (a + t + b)[1..] == a[1..] + t + b;
      ContainsInfix(a[1..], t, b);
    }
  }

  predicate HasKey(es: seq<(string, Scalar)>, k: string)
    decreases |es|
  {
    |es| > 0 && (es[0].0 == k || HasKey(es[1..], k))
  }

  function Lookup(es: seq<(string, Scalar)>, k: string): Scalar
    requires HasKey(es, k)
    decreases |es|
  {
    if es[0].0 == k then es[0].1 else Lookup(es[1..], k)
  }

  function KeysOf(es: seq<(string, Scalar)>): (r: seq<string>)
    ensures |r| == |es|
    decreases |es|
  {
    if es == [] then [] else [es[0].0] + KeysOf(es[1..])
  }

  /** The helpers decide the form of a list by its first element alone:
      a list or tuple, a dict, or anything else. */
  predicate FirstIsSeq(v: Value) {
    v.List? && |v.items| > 0 && v.items[0].Items?
  }

  predicate FirstIsDict(v: Value) {
    v.List? && |v.items| > 0 && v.items[0].Object?
  }

  // ----- operations on one list element -----

  /** len(it); None where Python raises TypeError (a number has no length). */
  function Len(it: Item): Option<nat> {
    match it
    case Atom(Str(s)) => Some(|s|)
    case Atom(_) => None
    case Items(xs) => Some(|xs|)
    case Object(es) => Some(|es|)
  }

  /** str(it[i]) for an integer position below len(it); a dict has no
      integer keys, so indexing it raises KeyError. */
  function IndexStr(it: Item, i: nat): Result<string>
    requires Len(it).Some? ==> i < Len(it).value
  {
    match it
    case Atom(Str(s)) => Ok([s[i]])
    case Atom(_) => Err(TypeError)
    case Items(xs) => Ok(ScalarStr(xs[i]))
    case Object(_) => Err(KeyError)
  }

  /** `k in it` for a string k: substring test on a str, element test on a
      list, key test on a dict. */
  function In(it: Item, k: string): Result<bool> {
    match it
    case Atom(Str(s)) => Ok(Contains(s, k))
    case Atom(_) => Err(TypeError)
    case Items(xs) => Ok(Str(k) in xs)
    case Object(es) => Ok(HasKey(es, k))
  }

  /** str(it[k]) for a string key k. */
  function GetStr(it: Item, k: string): Result<string> {
    match it
    case Object(es) => if HasKey(es, k) then Ok(ScalarStr(Lookup(es, k))) else Err(KeyError)
    case _ => Err(TypeError)
  }

  /** [str(v) for v in it]: the characters of a str, the elements of a list,
      the keys of a dict. */
  function IterStr(it: Item): Result<seq<string>> {
    match it
    case Atom(Str(s)) => Ok(Chars(s))
    case Atom(_) => Err(TypeError)
    case Items(xs) => Ok(ScalarStrs(xs))
    case Object(es) => Ok(KeysOf(es))
  }

  /** Whatever has a length can be iterated, into as many strings. */
  lemma IterStrLength(it: Item)
    ensures Len(it).Some? <==> IterStr(it).Ok?
    ensures Len(it).Some? ==> |IterStr(it).value| == Len(it).value
  {
    if it.Object? {
      assert |KeysOf(it.entries)| == |it.entries|;
    }
  }

  /** [str(v) for v in value] for the value of a parameter. */
  function FlatStrs(v: Value): Result<seq<string>> {
    match v
    case List(items) => Ok(ItemStrs(items))
    case Atomic(Str(s)) => Ok(Chars(s))
    case _ => Err(TypeError)
  }

  /** `[k for k in keys if k not in it]`: for a dict, exactly the keys of the
      table that the dict lacks, in table order. */
  function MissingKeys(keys: seq<string>, it: Item): Result<seq<string>>
    decreases |keys|
  {
    if keys == [] then Ok([])
    else
      match In(it, keys[0])
      case Err(e) => Err(e)
      case Ok(found) =>
        match MissingKeys(keys[1..], it)
        case Err(e) => Err(e)
        case Ok(rest) => Ok(if found then rest else [keys[0]] + rest)
  }

  /** [str(it[k]) for k in keys] */
  function GetStrs(it: Item, keys: seq<string>): Result<seq<string>>
    decreases |keys|
  {
    if keys == [] then Ok([])
    else
      match GetStr(it, keys[0])
      case Err(e) => Err(e)
      case Ok(v) =>
        match GetStrs(it, keys[1..])
        case Err(e) => Err(e)
        case Ok(rest) => Ok([v] + rest)
  }

  /** For a dict, the missing keys are exactly the keys of the table that the
      dict lacks, in table order; anything else than a dict can only raise
      TypeError (a list or a str answers `in` without raising). */
  lemma {:induction false} MissingKeysSpec(keys: seq<string>, it: Item)
    ensures it.Object? ==> MissingKeys(keys, it).Ok?
    ensures it.Object? ==> forall k :: k in MissingKeys(keys, it).value <==> k in keys && !HasKey(it.entries, k)
    ensures MissingKeys(keys, it).Ok? ==> IsSubsequence(MissingKeys(keys, it).value, keys)
    ensures MissingKeys(keys, it).Err? ==> MissingKeys(keys, it).error == TypeError
    decreases |keys|
  {
    if keys != [] {
      MissingKeysSpec(keys[1..], it);
      var r := MissingKeys(keys, it);
      if it.Object? {
        forall k ensures k in r.value <==> k in keys && !HasKey(it.entries, k) {
          assert k in keys <==> k == keys[0] || k in keys[1..];
        }
      }
      if r.Ok? && In(it, keys[0]) == Ok(false) {
        assert r.value[0] == keys[0] && r.value[1..] == MissingKeys(keys[1..], it).value;
      }
    }
  }

  /** On success, one value per key, each as `str(it[k])` gives it; a dict
      that holds every key succeeds; the only exceptions are TypeError and
      KeyError. */
  lemma {:induction false} GetStrsSpec(it: Item, keys: seq<string>)
    ensures GetStrs(it, keys).Ok? ==> |GetStrs(it, keys).value| == |keys|
    ensures GetStrs(it, keys).Ok? ==> forall j :: 0 <= j < |keys| ==> GetStr(it, keys[j]) == Ok(GetStrs(it, keys).value[j])
    ensures it.Object? && (forall k :: k in keys ==> HasKey(it.entries, k)) ==> GetStrs(it, keys).Ok?
    ensures GetStrs(it, keys).Err? ==> GetStrs(it, keys).error == TypeError || GetStrs(it, keys).error == KeyError
    decreases |keys|
  {
    if keys != [] {
      GetStrsSpec(it, keys[1..]);
      var r := GetStrs(it, keys);
      if r.Ok? {
        forall j | 0 <= j < |keys| ensures GetStr(it, keys[j]) == Ok(r.value[j]) {
          if j > 0 {
            assert keys[j] == keys[1..][j - 1];
          }
        }
      }
      if it.Object? && (forall k :: k in keys ==> HasKey(it.entries, k)) {
        assert keys[0] in keys;
        forall k | k in keys[1..] ensures HasKey(it.entries, k) {
          assert k in keys;
        }
      }
    }
  }

  /** The entries of a + b hold a key when a or b does, and a's entry wins. */
  lemma {:induction false} LookupConcat(a: seq<(string, Scalar)>, b: seq<(string, Scalar)>, k: string)
    ensures HasKey(a + b, k) <==> HasKey(a, k) || HasKey(b, k)
    ensures HasKey(a, k) ==> Lookup(a + b, k) == Lookup(a, k)
    ensures !HasKey(a, k) && HasKey(b, k) ==> Lookup(a + b, k) == Lookup(b, k)
    decreases |a|
  {
    if a == [] {
      assert a + b == b;
    } else {
      assert (a + b)[0] == a[0] && (a + b)[1..] == a[1..] + b;
      LookupConcat(a[1..], b, k);
    }
  }

  /** `in` and lookup on two dicts that agree on the keys asked for give the
      same answers. */
  predicate AgreeOn(es1: seq<(string, Scalar)>, es2: seq<(string, Scalar)>, keys: seq<string>) {
    forall k :: k in keys ==>
      HasKey(es1, k) == HasKey(es2, k) && (HasKey(es1, k) ==> Lookup(es1, k) == Lookup(es2, k))
  }

  lemma {:induction false} MissingKeysAgree(keys: seq<string>, es1: seq<(string, Scalar)>, es2: seq<(string, Scalar)>)
    requires AgreeOn(es1, es2, keys)
    ensures MissingKeys(keys, Object(es1)) == MissingKeys(keys, Object(es2))
    ensures GetStrs(Object(es1), keys) == GetStrs(Object(es2), keys)
    decreases |keys|
  {
    if keys != [] {
      assert keys[0] in keys;
      assert AgreeOn(es1, es2, keys[1..]) by {
        forall k | k in keys[1..] ensures k in keys { }
      }
      MissingKeysAgree(keys[1..], es1, es2);
    }
  }

  /** xs is xs' elements taken from ys in order, possibly skipping some. */
  predicate IsSubsequence(xs: seq<string>, ys: seq<string>)
    decreases |ys|
  {
    if xs == [] then true
    else if ys == [] then false
    else (xs[0] == ys[0] && IsSubsequence(xs[1..], ys[1..])) || IsSubsequence(xs, ys[1..])
  }
}
