/** The pieces of Python's `str` and `list` behaviour that the engine relies on:
    `sep.join(parts)`, `str.find`/`str.split`, printf-style `template % args`
    and `list.remove(x)`. */
module PyText {
  import opened Wrappers
  import opened Errors

  // ---------------------------------------------------------------------------
  // sep.join(parts)

  /** The first part opens the joined text and the last part closes it. */
  function Join(sep: string, parts: seq<string>): (r: string)
    ensures |parts| == 0 ==> r == ""
    ensures |parts| > 0 ==> parts[0] <= r
    ensures |parts| > 0 ==> |parts[|parts| - 1]| <= |r| && r[|r| - |parts[|parts| - 1]|..] == parts[|parts| - 1]
  {
    if |parts| == 0 then ""
    else if |parts| == 1 then parts[0]
    else
      var rest := Join(sep, parts[1..]);
      assert parts[1..][|parts| - 2] == parts[|parts| - 1];
      assert (parts[0] + sep + rest)[|parts[0] + sep + rest| - |rest|..] == rest;
      parts[0] + sep + rest
  }

  // ---------------------------------------------------------------------------
  // str.find(sep) and str.split(sep)

  /** `sep` occurs in `s` at index `i`. */
  predicate OccursAt(s: string, sep: string, i: nat)
  {
    i + |sep| <= |s| && s[i..i + |sep|] == sep
  }

  /** Dropping the first character shifts every occurrence one place left. */
  lemma OccursShift(s: string, sep: string, i: nat)
    requires |s| > 0 && i >= 1
    ensures OccursAt(s, sep, i) <==> OccursAt(s[1..], sep, i - 1)
  {
    if i + |sep| <= |s| {
      var a, b := s[i..i + |sep|], s[1..][i - 1..i - 1 + |sep|];
      forall t | 0 <= t < |sep| ensures a[t] == b[t] {
        assert a[t] == s[i + t] && b[t] == s[1..][i - 1 + t];
      }
      assert a == b;
    }
  }

  /** Python's `s.find(sep)`: the leftmost index where `sep` occurs, or None. */
  function Find(s: string, sep: string): (r: Option<nat>)
    requires |sep| > 0
    ensures r.Some? ==> OccursAt(s, sep, r.value)
    ensures r.Some? ==> forall i :: 0 <= i < r.value ==> !OccursAt(s, sep, i)
    ensures r.None? ==> forall i :: 0 <= i <= |s| ==> !OccursAt(s, sep, i)
    decreases |s|
  {
    if |s| < |sep| then None
    else if s[..|sep|] == sep then Some(0)
    else
      match Find(s[1..], sep)
      case None =>
        assert forall i :: 1 <= i <= |s| ==> !OccursAt(s, sep, i) by {
          forall i | 1 <= i <= |s| ensures !OccursAt(s, sep, i) { OccursShift(s, sep, i); }
        }
        None
      case Some(j) =>
        assert forall i :: 1 <= i <= j ==> !OccursAt(s, sep, i) by {
          forall i | 1 <= i <= j ensures !OccursAt(s, sep, i) { OccursShift(s, sep, i); }
        }
        OccursShift(s, sep, j + 1);
        Some(j + 1)
  }

  /** A first occurrence with nothing earlier is what Find returns. */
  lemma FindIs(s: string, sep: string, m: nat)
    requires |sep| > 0
    requires OccursAt(s, sep, m)
    requires forall i :: 0 <= i < m ==> !OccursAt(s, sep, i)
    ensures Find(s, sep) == Some(m)
  {
  }

  /** Python's `s.split(sep)`: the pieces between leftmost, non-overlapping occurrences. */
  function Split(s: string, sep: string): (r: seq<string>)
    requires |sep| > 0
    ensures |r| > 0
    decreases |s|
  {
    match Find(s, sep)
    case None => [s]
    case Some(i) => [s[..i]] + Split(s[i + |sep|..], sep)
  }

  /** Text after a first occurrence does not change where that occurrence is found. */
  lemma FindKeepsFirst(x: string, sep: string, rest: string)
    requires |sep| > 0
    requires Find(x + sep, sep) == Some(|x|)
    ensures Find(x + sep + rest, sep) == Some(|x|)
  {
    var s := x + sep + rest;
    forall i | 0 <= i < |x|
      ensures !OccursAt(s, sep, i)
    {
      assert !OccursAt(x + sep, sep, i);
      assert s[i..i + |sep|] == (x + sep)[i..i + |sep|];
    }
    assert s[|x|..|x| + |sep|] == sep;
    FindIs(s, sep, |x|);
  }

  /** Joining and then splitting gives the parts back, provided that in every
      part followed by `sep` the first occurrence of `sep` is that separator,
      and that `sep` does not occur in the last part. */
  lemma {:induction false} SplitJoin(sep: string, parts: seq<string>)
    requires |sep| > 0 && |parts| > 0
    requires forall k :: 0 <= k < |parts| - 1 ==> Find(parts[k] + sep, sep) == Some(|parts[k]|)
    requires Find(parts[|parts| - 1], sep).None?
    ensures Split(Join(sep, parts), sep) == parts
  {
    if |parts| > 1 {
      var x, rest := parts[0], Join(sep, parts[1..]);
      assert Join(sep, parts) == x + sep + rest;
      FindKeepsFirst(x, sep, rest);
      assert (x + sep + rest)[..|x|] == x;
      assert (x + sep + rest)[|x| + |sep|..] == rest;
      assert Split(Join(sep, parts), sep) == [x] + Split(rest, sep);
      assert forall k :: 0 <= k < |parts| - 2 ==> parts[1..][k] == parts[k + 1];
      assert parts[1..][|parts| - 2] == parts[|parts| - 1];
      SplitJoin(sep, parts[1..]);
      assert parts == [x] + parts[1..];
    }
  }

  // ---------------------------------------------------------------------------
  // printf-style formatting `template % args`, for the conversions %s and %%

  /** The number of %s conversions in `t`, or None when `t` holds any other
      conversion or ends in a lone '%'. */
  function Conversions(t: string): Option<nat>
    decreases |t|
  {
    if t == [] then Some(0)
    else if t[0] != '%' then Conversions(t[1..])
    else if |t| == 1 then None
    else if t[1] == '%' then Conversions(t[2..])
    else if t[1] == 's' then
      match Conversions(t[2..])
      case None => None
      case Some(n) => Some(n + 1)
    else None
  }

  function Prepend(s: string, r: Result<string, FormatError>): Result<string, FormatError>
  {
    match r
    case Ok(v) => Ok(s + v)
    case Err(e) => Err(e)
  }

  /** `t % tuple(args)`: each %s takes the next argument, %% is a literal '%';
      errors arise left to right, and unused arguments are reported at the end. */
  function Format(t: string, args: seq<string>): (r: Result<string, FormatError>)
    ensures r.Ok? ==> Conversions(t) == Some(|args|)
    decreases |t|
  {
    if t == [] then (if args == [] then Ok("") else Err(TooManyArgs))
    else if t[0] != '%' then Prepend([t[0]], Format(t[1..], args))
    else if |t| == 1 then Err(Incomplete)
    else if t[1] == '%' then Prepend("%", Format(t[2..], args))
    else if t[1] == 's' then
      (if args == [] then Err(NotEnoughArgs) else Prepend(args[0], Format(t[2..], args[1..])))
    else Err(Unsupported(t[1]))
  }

  /** Formatting succeeds exactly when the template is well formed and has one
      %s per argument. */
  lemma {:induction false} FormatSucceedsIff(t: string, args: seq<string>)
    ensures Format(t, args).Ok? <==> Conversions(t) == Some(|args|)
    decreases |t|
  {
    if t == [] {
    } else if t[0] != '%' {
      FormatSucceedsIff(t[1..], args);
    } else if |t| == 1 {
    } else if t[1] == '%' {
      FormatSucceedsIff(t[2..], args);
    } else if t[1] == 's' {
      if args != [] {
        FormatSucceedsIff(t[2..], args[1..]);
      }
    }
  }

  /** A prefix without '%' is copied through unchanged. */
  lemma {:induction false} FormatLiteralPrefix(a: string, rest: string, args: seq<string>)
    requires '%' !in a
    ensures Format(a + rest, args) == Prepend(a, Format(rest, args))
    ensures Conversions(a + rest) == Conversions(rest)
    decreases |a|
  {
    if a != [] {
      assert (a + rest)[0] == a[0];
      assert (a + rest)[1..] == a[1..] + rest;
      FormatLiteralPrefix(a[1..], rest, args);
      match Format(rest, args)
      case Ok(v) => assert [a[0]] + (a[1..] + v) == a + v;
      case Err(_) =>
    } else {
      assert a + rest == rest;
      match Format(rest, args)
      case Ok(v) => assert a + v == v;
      case Err(_) =>
    }
  }

  /** A template `a + "%s" + b` with no other '%' puts its one argument between a and b. */
  lemma SubstituteOnce(a: string, b: string, x: string)
    requires '%' !in a && '%' !in b
    ensures Format(a + "%s" + b, [x]) == Ok(a + x + b)
    ensures Conversions(a + "%s" + b) == Some(1)
  {
    var t := "%s" + b;
    assert a + "%s" + b == a + t;
    FormatLiteralPrefix(a, t, [x]);
    assert t[0] == '%' && t[1] == 's' && t[2..] == b && [x][1..] == [];
    assert Format(t, [x]) == Prepend(x, Format(b, []));
    FormatLiteralPrefix(b, "", []);
    assert b + "" == b;
    assert Format(b, []) == Ok(b);
    assert a + (x + b) == a + x + b;
  }

  // ---------------------------------------------------------------------------
  // list.remove(x): delete the first occurrence

  /** The index of the first occurrence of x. */
  function IndexOf<T(==)>(s: seq<T>, x: T): (i: nat)
    requires x in s
    ensures i < |s| && s[i] == x && x !in s[..i]
  {
    if s[0] == x then 0
    else
      var j := IndexOf(s[1..], x);
      assert s[..j + 1] == [s[0]] + s[1..][..j];
      j + 1
  }

  function RemoveFirst<T(==)>(s: seq<T>, x: T): (r: seq<T>)
    requires x in s
    ensures |r| == |s| - 1
    ensures multiset(r) == multiset(s) - multiset{x}
  {
    if s[0] == x then
      assert s == [s[0]] + s[1..];
      s[1..]
    else
      assert s == [s[0]] + s[1..];
      [s[0]] + RemoveFirst(s[1..], x)
  }

  /** What list.remove deletes is exactly the element at the first occurrence. */
  lemma {:induction false} RemoveFirstAt<T>(s: seq<T>, x: T)
    requires x in s
    ensures RemoveFirst(s, x) == s[..IndexOf(s, x)] + s[IndexOf(s, x) + 1..]
  {
    if s[0] != x {
      RemoveFirstAt(s[1..], x);
      var j := IndexOf(s[1..], x);
      assert IndexOf(s, x) == j + 1;
      assert s == [s[0]] + s[1..];
      ConsCut(s[0], s[1..], j);
    }
  }

  /** Cutting out index j of t, then putting h in front, cuts index j + 1 out of [h] + t. */
  lemma ConsCut<T>(h: T, t: seq<T>, j: nat)
    requires j < |t|
    ensures [h] + (t[..j] + t[j + 1..]) == ([h] + t)[..j + 1] + ([h] + t)[j + 2..]
  {
    var s := [h] + t;
    assert s[..j + 1] == [h] + t[..j];
    assert s[j + 2..] == t[j + 1..];
  }
}
