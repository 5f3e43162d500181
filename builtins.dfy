/** The few Python built-ins the card model relies on, stated over Dafny values:
    the exceptions it can raise, `str(n)` for naturals, `list.index`,
    `str.replace` with a one-character pattern, `sep.join` and `str.split`. */
module Builtins {

  /** The two exceptions construction of a card can raise. */
  datatype Exception = ValueError | AttributeError

  datatype Option<+T> = None | Some(value: T)

  /** A value, or the exception that Python would have raised instead. */
  datatype Result<+T> = Ok(value: T) | Err(error: Exception)

  /** A step that returns nothing, or the exception it raised. */
  datatype Outcome = Pass | Fail(error: Exception)

  // ---------------------------------------------------------------------------
  // str(n) for a natural number

  function Digit(d: nat): (c: char)
    requires d < 10
    ensures '0' <= c <= '9'
  {
    ('0' as int + d) as char
  }

  /** Python's `str(n)`: the decimal digits of `n`, most significant first, without leading zeros. */
  function DecimalString(n: nat): (s: string)
    ensures 1 <= |s|
    ensures n < 10 <==> |s| == 1
    ensures forall i :: 0 <= i < |s| ==> '0' <= s[i] <= '9'
    ensures s[|s| - 1] == Digit(n % 10)
    decreases n
  {
    if n < 10 then [Digit(n)] else DecimalString(n / 10) + [Digit(n % 10)]
  }

  /** Distinct naturals have distinct decimal spellings. */
  lemma {:induction false} DecimalStringInjective(a: nat, b: nat)
    requires DecimalString(a) == DecimalString(b)
    ensures a == b
  {
    var sa, sb := DecimalString(a), DecimalString(b);
    assert Digit(a % 10) == sa[|sa| - 1] == sb[|sb| - 1] == Digit(b % 10);
    if a >= 10 && b >= 10 {
      assert DecimalString(a / 10) == sa[..|sa| - 1];
      assert DecimalString(b / 10) == sb[..|sb| - 1];
      DecimalStringInjective(a / 10, b / 10);
    }
  }

  // ---------------------------------------------------------------------------
  // list.index

  /** Python's `s.index(x)`: the first position holding `x`; `ValueError` when there is none. */
  function IndexOf<T(==)>(s: seq<T>, x: T): (r: Result<nat>)
  {
    if s == [] then Err(ValueError)
    else if s[0] == x then Ok(0)
    else match IndexOf(s[1..], x)
      case Ok(i) => Ok(i + 1)
      case Err(e) => Err(e)
  }

  /** `index` succeeds exactly for members, with the first position holding `x`; otherwise it raises `ValueError`. */
  lemma {:induction false} IndexOfSpec<T>(s: seq<T>, x: T)
    ensures IndexOf(s, x).Ok? <==> x in s
    ensures IndexOf(s, x).Err? ==> IndexOf(s, x).error == ValueError
    ensures IndexOf(s, x).Ok? ==> var i := IndexOf(s, x).value;
      i < |s| && s[i] == x && forall j :: 0 <= j < i ==> s[j] != x
  {
    if s != [] && s[0] != x {
      IndexOfSpec(s[1..], x);
      assert x in s <==> x in s[1..];
    }
  }

  /** In a list without repetitions, `index` finds every element at its own position. */
  lemma IndexOfDistinct<T>(s: seq<T>, i: nat)
    requires i < |s|
    requires forall j, k :: 0 <= j < k < |s| ==> s[j] != s[k]
    ensures IndexOf(s, s[i]) == Ok(i)
  {
    IndexOfSpec(s, s[i]);
  }

  // ---------------------------------------------------------------------------
  // str.replace with a one-character pattern

  /** Python's `s.replace(pat, rep)` for a one-character `pat`: every occurrence, left to right. */
  function Replace(s: string, pat: char, rep: string): (r: string)
  {
    if s == [] then [] else (if s[0] == pat then rep else [s[0]]) + Replace(s[1..], pat, rep)
  }

  lemma {:induction false} ReplaceAppend(a: string, b: string, pat: char, rep: string)
    ensures Replace(a + b, pat, rep) == Replace(a, pat, rep) + Replace(b, pat, rep)
  {
    if a != [] {
      assert (a + b)[1..] == a[1..] + b;
      ReplaceAppend(a[1..], b, pat, rep);
    } else {
      assert a + b == b;
    }
  }

  /** Replacing a character that does not occur changes nothing. */
  lemma {:induction false} ReplaceAbsent(s: string, pat: char, rep: string)
    requires pat !in s
    ensures Replace(s, pat, rep) == s
  {
    if s != [] {
      ReplaceAbsent(s[1..], pat, rep);
      assert s == [s[0]] + s[1..];
    }
  }

  /** Python's `s.count(c)` for one character. */
  function Count(s: string, c: char): (n: nat)
    ensures n == 0 <==> c !in s
  {
    if s == [] then 0 else (if s[0] == c then 1 else 0) + Count(s[1..], c)
  }

  lemma {:induction false} CountAppend(a: string, b: string, c: char)
    ensures Count(a + b, c) == Count(a, c) + Count(b, c)
  {
    if a != [] {
      assert (a + b)[1..] == a[1..] + b;
      CountAppend(a[1..], b, c);
    } else {
      assert a + b == b;
    }
  }

  // ---------------------------------------------------------------------------
  // sep.join and str.split with a one-character separator

  /** Python's `sep.join(parts)` for a one-character separator. */
  function Join(sep: char, parts: seq<string>): (r: string)
    decreases |parts|
  {
    if parts == [] then ""
    else if |parts| == 1 then parts[0]
    else parts[0] + [sep] + Join(sep, parts[1..])
  }

  /** A join of four parts, written out. */
  lemma JoinFour(sep: char, parts: seq<string>)
    requires |parts| == 4
    ensures Join(sep, parts) == parts[0] + [sep] + parts[1] + [sep] + parts[2] + [sep] + parts[3]
  {
    assert parts[1..][1..] == parts[2..] && parts[2..][1..] == parts[3..];
    assert Join(sep, parts[3..]) == parts[3];
    assert Join(sep, parts[2..]) == parts[2] + [sep] + parts[3];
    assert Join(sep, parts[1..]) == parts[1] + [sep] + (parts[2] + [sep] + parts[3]);
  }

  /** Python's `s.split(sep)` for a one-character separator: the pieces between separators,
      including empty ones; never an empty list. */
  function Split(s: string, sep: char): (r: seq<string>)
    ensures |r| >= 1
    decreases |s|
  {
    if s == [] then [""]
    else
      var rest := Split(s[1..], sep);
      if s[0] == sep then [""] + rest else [[s[0]] + rest[0]] + rest[1..]
  }

  lemma {:induction false} SplitPrefix(a: string, b: string, sep: char)
    requires sep !in a
    ensures Split(a + b, sep) == [a + Split(b, sep)[0]] + Split(b, sep)[1..]
    decreases |a|
  {
    if a == [] {
      assert a + b == b && a + Split(b, sep)[0] == Split(b, sep)[0];
      assert Split(b, sep) == [Split(b, sep)[0]] + Split(b, sep)[1..];
    } else {
      assert (a + b)[1..] == a[1..] + b;
      SplitPrefix(a[1..], b, sep);
      var rest := Split(a[1..] + b, sep);
      assert (a + b)[0] == a[0] != sep;
      assert Split(a + b, sep) == [[a[0]] + rest[0]] + rest[1..];
      assert [a[0]] + (a[1..] + Split(b, sep)[0]) == a + Split(b, sep)[0];
    }
  }

  /** Splitting a join gives the parts back, when no part contains the separator. */
  lemma {:induction false} SplitJoin(sep: char, parts: seq<string>)
    requires |parts| >= 1
    requires forall i :: 0 <= i < |parts| ==> sep !in parts[i]
    ensures Split(Join(sep, parts), sep) == parts
    decreases |parts|
  {
    if |parts| == 1 {
      SplitPrefix(parts[0], "", sep);
      assert parts[0] + "" == parts[0];
    } else {
      var rest := Join(sep, parts[1..]);
      SplitJoin(sep, parts[1..]);
      assert Join(sep, parts) == parts[0] + ([sep] + rest);
      SplitPrefix(parts[0], [sep] + rest, sep);
      assert ([sep] + rest)[1..] == rest;
      assert parts[0] + "" == parts[0];
      assert parts == [parts[0]] + parts[1..];
    }
  }
}
