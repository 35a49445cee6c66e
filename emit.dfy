/** What an argument helper leaves behind: the tokens it appended to the
    command and the exception, if any, that stopped it. The helpers append as
    they go and never take tokens back, so an exception can follow tokens
    already appended. */
module Emit {
  import opened PyModel

  datatype Emission = Emission(tokens: seq<string>, error: Option<Error>)

  function Done(tokens: seq<string>): Emission {
    Emission(tokens, None)
  }

  function Fail(e: Error): Emission {
    Emission([], Some(e))
  }

  /** Run x, then y unless x raised. */
  function Then(x: Emission, y: Emission): Emission {
    if x.error.Some? then x else Emission(x.tokens + y.tokens, y.error)
  }

  /** A `for` loop over xs that runs f on each element and stops at the first
      exception. */
  function Each<T>(f: T -> Emission, xs: seq<T>): Emission
    decreases |xs|
  {
    if xs == [] then Done([]) else Then(f(xs[0]), Each(f, xs[1..]))
  }

  /** The flag once before each consecutive run of n values, as the loop over
      `range(0, len(flat), n)` appends them; a last run shorter than n is
      taken as Python's slice gives it. */
  function Runs(flag: string, flat: seq<string>, n: nat): seq<string>
    requires n > 0
    decreases |flat|
  {
    if flat == [] then []
    else if |flat| <= n then [flag] + flat
    else [flag] + flat[..n] + Runs(flag, flat[n..], n)
  }

  /** Appending in two steps or in one gives the same list. */
  lemma ConcatAssoc<T>(a: seq<T>, b: seq<T>, c: seq<T>)
    ensures (a + b) + c == a + (b + c)
  {
  }

  /** One more turn of the loop over xs from position i. */
  lemma EachStep<T>(f: T -> Emission, xs: seq<T>, i: nat)
    requires i < |xs|
    ensures Each(f, xs[i..]) == Then(f(xs[i]), Each(f, xs[i + 1..]))
  {
    assert xs[i..][0] == xs[i] && xs[i..][1..] == xs[i + 1..];
  }

  /** One more turn of the loop over range(0, len(flat), n): the flag, then
      the slice flat[i:i + n], which Python cuts short at the end of flat. */
  lemma RunsStep(flag: string, flat: seq<string>, n: nat, i: nat)
    requires n > 0 && i < |flat|
    ensures var j := if i + n <= |flat| then i + n else |flat|;
      && (i + n <= |flat| ==> Runs(flag, flat[i..], n) == [flag] + flat[i..j] + Runs(flag, flat[j..], n))
      && (i + n > |flat| ==> Runs(flag, flat[i..], n) == [flag] + flat[i..j])
  {
    if |flat[i..]| <= n {
      assert flat[i..] == flat[i..if i + n <= |flat| then i + n else |flat|];
      if i + n <= |flat| {
        assert flat[i + n..] == [];
      }
    } else {
      assert flat[i..][..n] == flat[i..i + n];
      assert flat[i..][n..] == flat[i + n..];
    }
  }

  /** A first run of exactly n values, then the rest. */
  lemma RunsCons(flag: string, head: seq<string>, rest: seq<string>, n: nat)
    requires n > 0 && |head| == n
    ensures Runs(flag, head + rest, n) == [flag] + head + Runs(flag, rest, n)
  {
    var flat := head + rest;
    assert flat[..n] == head && flat[n..] == rest;
    if rest == [] {
      assert flat == head;
    }
  }

  /** The loop invariant of AppendRuns, carried over one turn. */
  lemma RunsAdvance(flag: string, flat: seq<string>, n: nat, i: nat, j: nat, done: seq<string>)
    requires n > 0 && i < |flat| && j == (if i + n <= |flat| then i + n else |flat|)
    requires Runs(flag, flat, n) == done + Runs(flag, flat[i..], n)
    ensures Runs(flag, flat, n) == (done + [flag] + flat[i..j]) + Runs(flag, flat[j..], n)
  {
    RunsStep(flag, flat, n, i);
    if j == |flat| {
      assert flat[j..] == [];
    }
  }

  /** The invariant of a loop over xs, carried over the turn at i: an
      element that raises ends the loop with its own tokens appended. */
  lemma EachAdvance<T>(f: T -> Emission, xs: seq<T>, i: nat, done: seq<string>)
    requires i < |xs|
    requires Each(f, xs) == Then(Done(done), Each(f, xs[i..]))
    ensures f(xs[i]).error.None? ==> Each(f, xs) == Then(Done(done + f(xs[i]).tokens), Each(f, xs[i + 1..]))
    ensures f(xs[i]).error.Some? ==> Each(f, xs) == Emission(done + f(xs[i]).tokens, f(xs[i]).error)
  {
    EachStep(f, xs, i);
    ThenStep(done, f(xs[i]), Each(f, xs[i + 1..]));
  }

  /** A loop with nothing left to run. */
  lemma EachEnd<T>(f: T -> Emission, xs: seq<T>)
    ensures Each(f, xs[|xs|..]) == Done([])
  {
    assert xs[|xs|..] == [];
  }

  /** After the tokens done so far, one more step x and then the rest. */
  lemma ThenStep(done: seq<string>, x: Emission, rest: Emission)
    ensures x.error.None? ==> Then(Done(done), Then(x, rest)) == Then(Done(done + x.tokens), rest)
    ensures x.error.Some? ==> Then(Done(done), Then(x, rest)) == Emission(done + x.tokens, x.error)
  {
    if x.error.None? {
      assert done + (x.tokens + rest.tokens) == (done + x.tokens) + rest.tokens;
    }
  }

  lemma ThenAssoc(x: Emission, y: Emission, z: Emission)
    ensures Then(Then(x, y), z) == Then(x, Then(y, z))
  {
  }

  /** Looping over a + b is looping over a, then over b if a raised nothing. */
  lemma {:induction false} EachConcat<T>(f: T -> Emission, a: seq<T>, b: seq<T>)
    ensures Each(f, a + b) == Then(Each(f, a), Each(f, b))
    decreases |a|
  {
    if a == [] {
      assert a + b == b;
    } else {
      assert (a + b)[0] == a[0] && (a + b)[1..] == a[1..] + b;
      EachConcat(f, a[1..], b);
      ThenAssoc(f(a[0]), Each(f, a[1..]), Each(f, b));
    }
  }

  /** The loop raises exactly when some element raises; the exception it
      raises is the one of the first element that does, and the tokens are
      those of the elements before it followed by that element's own. */
  lemma {:induction false} EachFirstError<T>(f: T -> Emission, xs: seq<T>, k: nat)
    requires k < |xs|
    requires f(xs[k]).error.Some?
    requires forall j :: 0 <= j < k ==> f(xs[j]).error.None?
    ensures Each(f, xs).error == f(xs[k]).error
    ensures Each(f, xs).tokens == Each(f, xs[..k]).tokens + f(xs[k]).tokens
    ensures Each(f, xs[..k]).error.None?
  {
    EachAllOk(f, xs[..k]);
    assert xs == xs[..k] + xs[k..];
    EachConcat(f, xs[..k], xs[k..]);
    assert xs[k..][0] == xs[k];
  }

  /** When no element raises, the loop raises nothing. */
  lemma {:induction false} EachAllOk<T>(f: T -> Emission, xs: seq<T>)
    requires forall j :: 0 <= j < |xs| ==> f(xs[j]).error.None?
    ensures Each(f, xs).error.None?
    decreases |xs|
  {
    if xs != [] {
      assert f(xs[0]).error.None?;
      EachAllOk(f, xs[1..]);
    }
  }

  /** An exception from the loop is one that some element raised. */
  lemma {:induction false} EachErrorFromElement<T>(f: T -> Emission, xs: seq<T>)
    requires Each(f, xs).error.Some?
    ensures exists j :: 0 <= j < |xs| && f(xs[j]).error == Each(f, xs).error
    decreases |xs|
  {
    if f(xs[0]).error.None? {
      EachErrorFromElement(f, xs[1..]);
      var j :| 0 <= j < |xs[1..]| && f(xs[1..][j]).error == Each(f, xs[1..]).error;
      assert f(xs[j + 1]).error == Each(f, xs).error;
    } else {
      assert f(xs[0]).error == Each(f, xs).error;
    }
  }

  /** With runs of one value, the flag precedes every value. */
  lemma {:induction false} RunsOfOne(flag: string, flat: seq<string>)
    ensures |Runs(flag, flat, 1)| == 2 * |flat|
    ensures forall j :: 0 <= j < |flat| ==> Runs(flag, flat, 1)[2 * j] == flag && Runs(flag, flat, 1)[2 * j + 1] == flat[j]
    decreases |flat|
  {
    if flat != [] {
      RunsCons(flag, [flat[0]], flat[1..], 1);
      assert [flat[0]] + flat[1..] == flat;
      RunsOfOne(flag, flat[1..]);
      var rest := Runs(flag, flat[1..], 1);
      assert Runs(flag, flat, 1) == [flag, flat[0]] + rest;
      forall j | 0 <= j < |flat|
        ensures Runs(flag, flat, 1)[2 * j] == flag && Runs(flag, flat, 1)[2 * j + 1] == flat[j]
      {
        if j > 0 {
          assert Runs(flag, flat, 1)[2 * j] == rest[2 * (j - 1)];
          assert Runs(flag, flat, 1)[2 * j + 1] == rest[2 * (j - 1) + 1];
          assert flat[j] == flat[1..][j - 1];
        }
      }
    }
  }

  /** ts is whole occurrences of flag, each followed by n values. */
  predicate Occurrences(flag: string, n: nat, ts: seq<string>)
    decreases |ts|
  {
    ts == [] || (|ts| > n && ts[0] == flag && Occurrences(flag, n, ts[n + 1..]))
  }

  lemma {:induction false} OccurrencesConcat(flag: string, n: nat, a: seq<string>, b: seq<string>)
    requires Occurrences(flag, n, a) && Occurrences(flag, n, b)
    ensures Occurrences(flag, n, a + b)
    decreases |a|
  {
    if a == [] {
      assert a + b == b;
    } else {
      assert (a + b)[0] == a[0] && (a + b)[n + 1..] == a[n + 1..] + b;
      OccurrencesConcat(flag, n, a[n + 1..], b);
    }
  }

  /** If every element emits whole occurrences, so does the loop. */
  lemma {:induction false} EachOccurrences<T>(f: T -> Emission, xs: seq<T>, flag: string, n: nat)
    requires forall j :: 0 <= j < |xs| ==> Occurrences(flag, n, f(xs[j]).tokens)
    ensures Occurrences(flag, n, Each(f, xs).tokens)
    decreases |xs|
  {
    if xs != [] {
      assert Occurrences(flag, n, f(xs[0]).tokens);
      EachOccurrences(f, xs[1..], flag, n);
      if f(xs[0]).error.None? {
        OccurrencesConcat(flag, n, f(xs[0]).tokens, Each(f, xs[1..]).tokens);
      }
    }
  }

  /** If every element that raises nothing emits whole occurrences, so does
      a loop that raises nothing. */
  lemma {:induction false} EachOccurrencesOnSuccess<T>(f: T -> Emission, xs: seq<T>, flag: string, n: nat)
    requires forall j :: 0 <= j < |xs| && f(xs[j]).error.None? ==> Occurrences(flag, n, f(xs[j]).tokens)
    ensures Each(f, xs).error.None? ==> Occurrences(flag, n, Each(f, xs).tokens)
    decreases |xs|
  {
    if xs != [] && f(xs[0]).error.None? {
      assert Occurrences(flag, n, f(xs[0]).tokens);
      EachOccurrencesOnSuccess(f, xs[1..], flag, n);
      if Each(f, xs[1..]).error.None? {
        OccurrencesConcat(flag, n, f(xs[0]).tokens, Each(f, xs[1..]).tokens);
      }
    }
  }

  lemma MulNonNegative(d: int, n: int)
    requires d >= 0 && n > 0
    ensures d * n >= 0
  {
  }

  lemma MulAwayFromZero(d: int, n: int)
    requires n > 0
    ensures d >= 1 ==> d * n >= n
    ensures d <= -1 ==> d * n <= -n
  {
    if d >= 1 {
      MulNonNegative(d - 1, n);
      assert d * n == (d - 1) * n + n;
    }
    if d <= -1 {
      MulNonNegative(-d - 1, n);
      assert -d * n == (-d - 1) * n + n;
    }
  }

  /** Euclidean division has one quotient and remainder. */
  lemma ModUnique(a: int, n: int, q: int, r: int)
    requires n > 0 && 0 <= r < n && a == q * n + r
    ensures a % n == r
  {
    var q', r' := a / n, a % n;
    assert a == q' * n + r';
    var d := q - q';
    assert d * n == r' - r;
    MulAwayFromZero(d, n);
  }

  lemma ModOfDifference(m: nat, n: nat)
    requires 0 < n <= m
    ensures (m - n) % n == m % n
  {
    ModUnique(m - n, n, m / n - 1, m % n);
  }

  /** When the values come in whole runs, the runs are whole occurrences. */
  lemma {:induction false} RunsOccurrences(flag: string, flat: seq<string>, n: nat)
    requires n > 0 && |flat| % n == 0
    ensures Occurrences(flag, n, Runs(flag, flat, n))
    decreases |flat|
  {
    if |flat| > n {
      ModOfDifference(|flat|, n);
      RunsOccurrences(flag, flat[n..], n);
      var rest := Runs(flag, flat[n..], n);
      assert Runs(flag, flat, n) == [flag] + flat[..n] + rest;
      assert ([flag] + flat[..n] + rest)[n + 1..] == rest;
    } else if flat != [] {
      assert |flat| == n;
      assert ([flag] + flat)[n + 1..] == [];
    }
  }

  /** The command line being built: a list the helpers extend in place. */
  class Argv {
    var tokens: seq<string>

    constructor (init: seq<string>)
      ensures tokens == init
    {
      tokens := init;
    }

    /** `cmd.append(t)` */
    method Append(t: string)
      modifies this
      ensures tokens == old(tokens) + [t]
    {
      tokens := tokens + [t];
    }

    /** `cmd.extend(ts)` */
    method Extend(ts: seq<string>)
      modifies this
      ensures tokens == old(tokens) + ts
    {
      tokens := tokens + ts;
    }

    /** `for i in range(0, len(flat), n): cmd.append(flag); cmd.extend(flat[i:i + n])`;
        the slice, and so the step, stops at the end of flat. */
    method AppendRuns(flag: string, flat: seq<string>, n: nat)
      requires n > 0
      modifies this
      ensures tokens == old(tokens) + Runs(flag, flat, n)
    {
      ghost var done: seq<string> := [];
      var i := 0;
      while i < |flat|
        invariant 0 <= i <= |flat|
        invariant tokens == old(tokens) + done
        invariant Runs(flag, flat, n) == done + Runs(flag, flat[i..], n)
      {
        var j := if i + n <= |flat| then i + n else |flat|;
        RunsAdvance(flag, flat, n, i, j, done);
        Append(flag);
        Extend(flat[i..j]);
        done := done + [flag] + flat[i..j];
        i := j;
      }
    }
  }
}
