/**
 * The few pieces of Python's `str` behaviour that the autoscaler relies on:
 * substring membership (`needle in haystack`), `str.split` on one separator
 * character, and `int(text)` for base-10 text.
 */
module PyStr {
  import opened Wrappers

  // ---------------------------------------------------------------------
  // Substring membership: `needle in haystack`
  // ---------------------------------------------------------------------

  predicate StartsWith(s: string, prefix: string) {
    |prefix| <= |s| && s[..|prefix|] == prefix
  }

  /** Python's `needle in haystack` on strings. */
  predicate Contains(haystack: string, needle: string)
    decreases |haystack|
  {
    StartsWith(haystack, needle) || (|haystack| > 0 && Contains(haystack[1..], needle))
  }

  /** An occurrence of `needle` at any offset makes `needle in haystack` true. */
  lemma {:induction false} ContainsAt(haystack: string, needle: string, i: nat)
    requires i + |needle| <= |haystack|
    requires haystack[i..i + |needle|] == needle
    ensures Contains(haystack, needle)
    decreases i
  {
    if i > 0 {
      assert haystack[1..][i - 1..i - 1 + |needle|] == haystack[i..i + |needle|];
      ContainsAt(haystack[1..], needle, i - 1);
    } else {
      assert StartsWith(haystack, needle);
    }
  }

  /** Conversely, `needle in haystack` yields an offset at which `needle` occurs. */
  lemma {:induction false} ContainsWitness(haystack: string, needle: string) returns (i: nat)
    requires Contains(haystack, needle)
    ensures i + |needle| <= |haystack| && haystack[i..i + |needle|] == needle
    decreases |haystack|
  {
    if StartsWith(haystack, needle) {
      i := 0;
    } else {
      var j := ContainsWitness(haystack[1..], needle);
      assert haystack[1..][j..j + |needle|] == haystack[j + 1..j + 1 + |needle|];
      i := j + 1;
    }
  }

  // ---------------------------------------------------------------------
  // `s.split(sep)` for a one-character separator
  // ---------------------------------------------------------------------

  /**
   * Python's `s.split(sep)`: the pieces between occurrences of `sep`. There is
   * always at least one piece (`"".split("/") == [""]`) and one more piece than
   * there are separators.
   */
  function Split(s: string, sep: char): (parts: seq<string>)
    ensures |parts| >= 1
    ensures forall k :: 0 <= k < |parts| ==> sep !in parts[k]
    decreases |s|
  {
    if s == [] then [""]
    else
      var rest := Split(s[1..], sep);
      if s[0] == sep then [""] + rest
      else [[s[0]] + rest[0]] + rest[1..]
  }

  /** Python's `sep.join(parts)`, the inverse of `Split`. */
  function Join(parts: seq<string>, sep: char): string
    requires |parts| >= 1
    decreases |parts|
  {
    if |parts| == 1 then parts[0] else parts[0] + [sep] + Join(parts[1..], sep)
  }

  /** Splitting and re-joining gives back the original text. */
  lemma {:induction false} JoinSplit(s: string, sep: char)
    ensures Join(Split(s, sep), sep) == s
    decreases |s|
  {
    if s != [] {
      var rest := Split(s[1..], sep);
      JoinSplit(s[1..], sep);
      if s[0] == sep {
        assert ([""] + rest)[1..] == rest;
      } else if |rest| > 1 {
        var parts := [[s[0]] + rest[0]] + rest[1..];
        assert parts[1..] == rest[1..];
        assert Join(rest, sep) == rest[0] + [sep] + Join(rest[1..], sep);
        assert s == [s[0]] + s[1..];
      } else {
        assert s == [s[0]] + s[1..];
      }
    }
  }

  /** Text without the separator is a single piece. */
  lemma {:induction false} SplitNoSeparator(s: string, sep: char)
    requires sep !in s
    ensures Split(s, sep) == [s]
    decreases |s|
  {
    if s != [] {
      assert sep !in s[1..];
      SplitNoSeparator(s[1..], sep);
      assert s == [s[0]] + s[1..];
    }
  }

  /** A separator after a separator-free prefix ends the first piece there. */
  lemma {:induction false} SplitAfterPrefix(p: string, sep: char, t: string)
    requires sep !in p
    ensures Split(p + [sep] + t, sep) == [p] + Split(t, sep)
    decreases |p|
  {
    if p == [] {
      assert p + [sep] + t == [sep] + t;
      assert ([sep] + t)[1..] == t;
    } else {
      var s := p + [sep] + t;
      assert s[0] == p[0];
      assert s[1..] == p[1..] + [sep] + t;
      assert sep !in p[1..];
      SplitAfterPrefix(p[1..], sep, t);
      assert [p[0]] + p[1..] == p;
    }
  }

  /** Joining separator-free pieces and splitting again gives back the pieces. */
  lemma {:induction false} SplitJoin(parts: seq<string>, sep: char)
    requires |parts| >= 1
    requires forall k :: 0 <= k < |parts| ==> sep !in parts[k]
    ensures Split(Join(parts, sep), sep) == parts
    decreases |parts|
  {
    if |parts| == 1 {
      SplitNoSeparator(parts[0], sep);
    } else {
      SplitJoin(parts[1..], sep);
      SplitAfterPrefix(parts[0], sep, Join(parts[1..], sep));
      assert parts == [parts[0]] + parts[1..];
    }
  }

  // ---------------------------------------------------------------------
  // `int(text)` for base-10 text
  // ---------------------------------------------------------------------

  /**
   * The characters Python's `int()` skips around a number in ASCII text:
   * space, tab, line feed, vertical tab, form feed and carriage return. The
   * separators 0x1C to 0x1F are `str.isspace` whitespace but are not skipped
   * here.
   */
  predicate IsSpace(c: char) {
    var n := c as int;
    n == 32 || 9 <= n <= 13
  }

  predicate IsDigit(c: char) {
    '0' <= c <= '9'
  }

  function DigitOf(c: char): nat
    requires IsDigit(c)
  {
    (c as int) - ('0' as int)
  }

  function TrimStart(s: string): string
    decreases |s|
  {
    if |s| > 0 && IsSpace(s[0]) then TrimStart(s[1..]) else s
  }

  function TrimEnd(s: string): string
    decreases |s|
  {
    if |s| > 0 && IsSpace(s[|s| - 1]) then TrimEnd(s[..|s| - 1]) else s
  }

  /** The text `int()` reads: surrounding whitespace removed. */
  function Strip(s: string): string {
    TrimEnd(TrimStart(s))
  }

  /**
   * The digit run `int()` accepts after an optional sign: digits and
   * underscores, starting and ending with a digit, with no two underscores in
   * a row (so every underscore stands between two digits).
   */
  predicate WellGrouped(d: string) {
    && |d| > 0
    && IsDigit(d[0])
    && IsDigit(d[|d| - 1])
    && (forall i :: 0 <= i < |d| ==> IsDigit(d[i]) || d[i] == '_')
    && (forall i :: 0 <= i < |d| - 1 && d[i] == '_' ==> d[i + 1] != '_')
  }

  /** The decimal value of a run of digits and underscores, underscores ignored. */
  function DigitsValue(d: string): nat
    requires forall i :: 0 <= i < |d| ==> IsDigit(d[i]) || d[i] == '_'
    decreases |d|
  {
    if d == [] then 0
    else
      var init := d[..|d| - 1];
      assert forall i :: 0 <= i < |init| ==> init[i] == d[i];
      if d[|d| - 1] == '_' then DigitsValue(init)
      else 10 * DigitsValue(init) + DigitOf(d[|d| - 1])
  }

  function ParseDigits(d: string): Option<nat> {
    if WellGrouped(d) then
      Some(DigitsValue(d))
    else None
  }

  /** Python's `int(text)`: `None` where `int()` raises `ValueError`. */
  function ParseInt(s: string): Option<int> {
    var t := Strip(s);
    if |t| > 0 && t[0] == '-' then
      match ParseDigits(t[1..])
      case Some(n) => Some(-(n as int))
      case None => None
    else if |t| > 0 && t[0] == '+' then
      match ParseDigits(t[1..])
      case Some(n) => Some(n)
      case None => None
    else
      match ParseDigits(t)
      case Some(n) => Some(n)
      case None => None
  }

  /** Python's `str(n)` for a natural number. */
  function NatToString(n: nat): (s: string)
    decreases n
  {
    if n < 10 then [('0' as int + n) as char]
    else NatToString(n / 10) + [('0' as int + n % 10) as char]
  }

  /** Python's `str(n)` for an integer. */
  function IntToString(n: int): string {
    if n < 0 then "-" + NatToString(-n) else NatToString(n)
  }

  lemma {:induction false} NatToStringDigits(n: nat)
    ensures |NatToString(n)| > 0
    ensures forall i :: 0 <= i < |NatToString(n)| ==> IsDigit(NatToString(n)[i])
    ensures DigitsValue(NatToString(n)) == n
    decreases n
  {
    if n >= 10 {
      NatToStringDigits(n / 10);
      var s := NatToString(n);
      assert s[..|s| - 1] == NatToString(n / 10);
    }
  }

  /** `int(str(n)) == n` for every integer `n`. */
  lemma ParseIntRoundTrip(n: int)
    ensures ParseInt(IntToString(n)) == Some(n)
  {
    var m := if n < 0 then -n else n;
    NatToStringDigits(m);
    var d := NatToString(m);
    assert WellGrouped(d);
    var s := IntToString(n);
    assert Strip(s) == s by {
      assert s[0] == '-' || IsDigit(s[0]);
      assert s[|s| - 1] == d[|d| - 1];
    }
    if n < 0 {
      assert s[1..] == d;
    }
  }

  /** A run of whitespace characters, such as may surround a number. */
  predicate AllSpace(s: string) {
    forall k :: 0 <= k < |s| ==> IsSpace(s[k])
  }

  /** `int()` ignores any run of whitespace before and after the number. */
  lemma ParseIntSkipsSpaces(p: string, s: string, q: string)
    requires AllSpace(p) && AllSpace(q)
    ensures ParseInt(p + s + q) == ParseInt(s)
  {
    assert p + s + q == p + (s + q);
    TrimStartSkipsSpaces(p, s + q);
    TrimAppendSpaces(s, q);
  }

  /** Leading whitespace is removed by `TrimStart` whatever follows it. */
  lemma {:induction false} TrimStartSkipsSpaces(p: string, t: string)
    requires AllSpace(p)
    ensures TrimStart(p + t) == TrimStart(t)
    decreases |p|
  {
    if p != [] {
      assert (p + t)[0] == p[0] && IsSpace(p[0]);
      assert (p + t)[1..] == p[1..] + t;
      assert AllSpace(p[1..]) by {
        forall k | 0 <= k < |p[1..]| ensures IsSpace(p[1..][k]) {
          assert p[1..][k] == p[k + 1];
        }
      }
      TrimStartSkipsSpaces(p[1..], t);
    } else {
      assert p + t == t;
    }
  }

  /** Trailing whitespace is removed by `TrimEnd` whatever precedes it. */
  lemma {:induction false} TrimEndSkipsSpaces(u: string, q: string)
    requires AllSpace(q)
    ensures TrimEnd(u + q) == TrimEnd(u)
    decreases |q|
  {
    if q != [] {
      var q' := q[..|q| - 1];
      assert (u + q)[|u + q| - 1] == q[|q| - 1] && IsSpace(q[|q| - 1]);
      assert (u + q)[..|u + q| - 1] == u + q';
      assert AllSpace(q') by {
        forall k | 0 <= k < |q'| ensures IsSpace(q'[k]) {
          assert q'[k] == q[k];
        }
      }
      TrimEndSkipsSpaces(u, q');
    } else {
      assert u + q == u;
    }
  }

  /** Whitespace appended to a text does not change what `Strip` leaves of it. */
  lemma {:induction false} TrimAppendSpaces(s: string, q: string)
    requires AllSpace(q)
    ensures Strip(s + q) == Strip(s)
    decreases |s|
  {
    if s == [] {
      assert s + q == q;
      TrimStartSkipsSpaces(q, "");
      assert q + "" == q;
    } else if IsSpace(s[0]) {
      assert (s + q)[1..] == s[1..] + q;
      TrimAppendSpaces(s[1..], q);
    } else {
      assert (s + q)[0] == s[0];
      TrimEndSkipsSpaces(s, q);
    }
  }
}
