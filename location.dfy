/** Options that take a latitude and a longitude (`--location LAT LON`). */
module Location {
  import opened PyModel
  import opened Flags
  import opened Emit

  /** What `_append_location_pair(cmd, name, value)` does: Ok(None) when the
      value is None and nothing is appended (the helper returns False),
      Ok(Some(tokens)) when it appends tokens (it returns True), and the
      ValueError it raises for anything but a list or tuple of two. */
  function LocationPair(name: string, value: Value): Result<Option<seq<string>>> {
    if value.Absent? then Ok(None)
    else if !value.List? || |value.items| != 2 then Err(LocationShape(name))
    else Ok(Some([Flag(name), ItemStr(value.items[0]), ItemStr(value.items[1])]))
  }

  /** `_append_location_pair`: handled is the helper's return value. */
  method AppendLocationPair(cmd: Argv, name: string, value: Value) returns (handled: bool, err: Option<Error>)
    modifies cmd
    ensures var r := LocationPair(name, value);
      && (r.Ok? && r.value.Some? ==> cmd.tokens == old(cmd.tokens) + r.value.value)
      && (r.Err? || r.value.None? ==> cmd.tokens == old(cmd.tokens))
      && handled == (r.Ok? && r.value.Some?)
      && err == (if r.Err? then Some(r.error) else None)
  {
    if value.Absent? {
      return false, None;
    }
    if !value.List? || |value.items| != 2 {
      return false, Some(LocationShape(name));
    }
    var lat, lon := value.items[0], value.items[1];
    cmd.Extend([Flag(name), ItemStr(lat), ItemStr(lon)]);
    return true, None;
  }

  /** The helper appends nothing exactly when the value is None, raises
      exactly when the value is something other than two values, and
      otherwise appends one occurrence of the flag followed by the two values
      as str() prints them, in order. */
  lemma LocationPairCases(name: string, value: Value)
    ensures LocationPair(name, value) == Ok(None) <==> value.Absent?
    ensures LocationPair(name, value).Err? <==> !value.Absent? && !(value.List? && |value.items| == 2)
    ensures LocationPair(name, value).Err? ==> LocationPair(name, value).error == LocationShape(name)
    ensures var r := LocationPair(name, value);
      r.Ok? && r.value.Some? ==>
        && r.value.value == [Flag(name)] + ItemStrs(value.items)
        && Occurrences(Flag(name), 2, r.value.value)
  {
    var r := LocationPair(name, value);
    if r.Ok? && r.value.Some? {
      var ts := r.value.value;
      assert ItemStrs(value.items) == [ItemStr(value.items[0]), ItemStr(value.items[1])];
      assert ts[3..] == [];
    }
  }

  /** A latitude and a longitude, as a list or a tuple, give
      `--flag LAT LON`. */
  lemma LocationOfTwoScalars(name: string, lat: Scalar, lon: Scalar)
    ensures LocationPair(name, List([Atom(lat), Atom(lon)])) == Ok(Some([Flag(name), ScalarStr(lat), ScalarStr(lon)]))
  {
  }

  // ----- examples of the test suite -----

  lemma LocationExamples()
    ensures LocationPair("location", List([Atom(Float("10.5")), Atom(Float("20.25"))])) == Ok(Some(["--location", "10.5", "20.25"]))
    ensures LocationPair("location", Absent) == Ok(None)
    ensures LocationPair("location", List([Atom(Float("10.0"))])) == Err(LocationShape("location"))
    ensures LocationPair("location", List([Atom(Float("10.0")), Atom(Float("20.0")), Atom(Float("30.0"))])) == Err(LocationShape("location"))
    ensures LocationPair("location", Atomic(Str("10,20"))) == Err(LocationShape("location"))
  {
    FlagOfPlainName("location");
    assert Flag("location") == "--location";
  }
}
