/**
 * Python's text operations that the model's file names, column keys and
 * labels rely on: `str(int)`, `int(str)` on decimal digits, `str.split`,
 * `str.startswith`, and the POSIX forms of `os.path.join`, `os.path.basename`
 * and `os.path.splitext(...)[0]`.
 */
module Text {
  import opened Base

  predicate IsDigit(c: char) { '0' <= c <= '9' }

  predicate AllDigits(s: string) { forall k :: 0 <= k < |s| ==> IsDigit(s[k]) }

  function DigitChar(d: nat): char
    requires d < 10
  {
    (48 + d) as char
  }

  /** Python's `str(n)` for a non-negative integer. */
  function NatToString(n: nat): (s: string)
    ensures |s| > 0 && AllDigits(s)
  {
    if n < 10 then [DigitChar(n)] else NatToString(n / 10) + [DigitChar(n % 10)]
  }

  /** Python's `str(i)` for any integer. */
  function IntToString(i: int): (s: string)
    ensures |s| > 0
  {
    if i < 0 then "-" + NatToString(-i) else NatToString(i)
  }

  function DigitsValue(s: string): nat
    requires AllDigits(s)
  {
    if s == [] then 0 else DigitsValue(s[..|s| - 1]) * 10 + (s[|s| - 1] - '0') as nat
  }

  /** Python's `int(s)` on a string of decimal digits; anything else raises ValueError. */
  function ParseNat(s: string): Option<nat>
  {
    if |s| > 0 && AllDigits(s) then Some(DigitsValue(s)) else None
  }

  /** `int(str(n)) == n`. */
  lemma {:induction false} ParseNatToString(n: nat)
    ensures ParseNat(NatToString(n)) == Some(n)
  {
    var s := NatToString(n);
    if n >= 10 {
      ParseNatToString(n / 10);
      assert s[..|s| - 1] == NatToString(n / 10);
      assert DigitsValue(s) == DigitsValue(NatToString(n / 10)) * 10 + n % 10;
    } else {
      assert s[..0] == [];
    }
  }

  /** `str` is injective on non-negative integers. */
  lemma NatToStringInjective(a: nat, b: nat)
    requires NatToString(a) == NatToString(b)
    ensures a == b
  {
    ParseNatToString(a);
    ParseNatToString(b);
  }

  predicate StartsWith(s: string, prefix: string)
  {
    |prefix| <= |s| && s[..|prefix|] == prefix
  }

  /** Python's `s.split(sep)` for a one-character separator: never an empty list. */
  function Split(s: string, sep: char): (parts: seq<string>)
    ensures |parts| > 0
  {
    if s == [] then [""]
    else if s[0] == sep then [""] + Split(s[1..], sep)
    else
      var rest := Split(s[1..], sep);
      [[s[0]] + rest[0]] + rest[1..]
  }

  function Last<T>(s: seq<T>): T
    requires |s| > 0
  {
    s[|s| - 1]
  }

  lemma {:induction false} SplitNoSep(s: string, sep: char)
    requires sep !in s
    ensures Split(s, sep) == [s]
  {
    if s != [] {
      SplitNoSep(s[1..], sep);
      assert [s[0]] + s[1..] == s;
    }
  }

  /** Splitting `a + sep + b`, where `a` has no separator, yields `a` followed by the pieces of `b`. */
  lemma {:induction false} SplitAt(a: string, sep: char, b: string)
    requires sep !in a
    ensures Split(a + [sep] + b, sep) == [a] + Split(b, sep)
  {
    var s := a + [sep] + b;
    if a == [] {
      assert s[1..] == b;
    } else {
      assert s[1..] == a[1..] + [sep] + b;
      SplitAt(a[1..], sep, b);
      assert [a[0]] + a[1..] == a;
    }
  }

  /** POSIX `os.path.join(dir, name)` for a relative `name`. */
  function PathJoin(dir: string, name: string): string
  {
    if dir == [] || dir[|dir| - 1] == '/' then dir + name else dir + "/" + name
  }

  /** POSIX `os.path.basename(p)`: what follows the last '/'. */
  function Basename(p: string): string
  {
    Last(Split(p, '/'))
  }

  /** What follows the last separator is the last piece of a split. */
  lemma {:induction false} LastSplitAfterSep(a: string, sep: char, name: string)
    requires sep !in name
    ensures Last(Split(a + [sep] + name, sep)) == name
  {
    var s := a + [sep] + name;
    if a == [] {
      assert s == [sep] + name && s[1..] == name;
      SplitNoSep(name, sep);
    } else {
      assert s[1..] == a[1..] + [sep] + name;
      LastSplitAfterSep(a[1..], sep, name);
      if a[0] != sep {
        SplitHasSep(s[1..], sep, |a| - 1);
      }
    }
  }

  /** A text that holds the separator splits into at least two pieces. */
  lemma {:induction false} SplitHasSep(s: string, sep: char, i: nat)
    requires i < |s| && s[i] == sep
    ensures |Split(s, sep)| >= 2
  {
    if s[0] != sep {
      SplitHasSep(s[1..], sep, i - 1);
    }
  }

  /** A split into a single piece means the text held no separator. */
  lemma {:induction false} SplitWhole(s: string, sep: char)
    requires |Split(s, sep)| == 1
    ensures sep !in s && Split(s, sep) == [s]
  {
    if s != [] {
      if s[0] == sep {
        assert false;
      } else {
        SplitWhole(s[1..], sep);
        assert s == [s[0]] + s[1..];
      }
    }
  }

  /** No piece of a split holds the separator. */
  lemma {:induction false} SplitPiecesNoSep(s: string, sep: char)
    ensures forall k :: 0 <= k < |Split(s, sep)| ==> sep !in Split(s, sep)[k]
  {
    if s != [] {
      SplitPiecesNoSep(s[1..], sep);
    }
  }

  /** A base name holds no '/'. */
  lemma BasenameNoSlash(p: string)
    ensures '/' !in Basename(p)
  {
    SplitPiecesNoSep(p, '/');
  }

  /** The base name of a joined path is the name that was joined. */
  lemma BasenameJoin(dir: string, name: string)
    requires '/' !in name
    ensures Basename(PathJoin(dir, name)) == name
  {
    if dir == [] {
      assert dir + name == name;
      SplitNoSep(name, '/');
    } else if dir[|dir| - 1] == '/' {
      var front := dir[..|dir| - 1];
      assert dir + name == front + ['/'] + name;
      LastSplitAfterSep(front, '/', name);
    } else {
      LastSplitAfterSep(dir, '/', name);
    }
  }

  function LastIndexOf(s: string, c: char): Option<nat>
  {
    if s == [] then None
    else if s[|s| - 1] == c then Some(|s| - 1)
    else LastIndexOf(s[..|s| - 1], c)
  }

  /** POSIX `os.path.splitext(name)[0]` for a base name: drop the last extension unless the dot only leads the name. */
  function Stem(name: string): string
  {
    match LastIndexOf(name, '.')
    case None => name
    case Some(d) =>
      if d < |name| && exists k :: 0 <= k < d && name[k] != '.' then name[..d] else name
  }

  /** The stem is the name itself or a shorter prefix of it. */
  lemma StemPrefix(name: string)
    ensures |Stem(name)| <= |name| && Stem(name) == name[..|Stem(name)|]
  {
    match LastIndexOf(name, '.')
    case None =>
    case Some(d) =>
  }

  /** How many digits a text starts with. */
  function LeadingDigitCount(s: string): nat
  {
    if s == [] || !IsDigit(s[0]) then 0 else 1 + LeadingDigitCount(s[1..])
  }

  lemma {:induction false} LeadingDigits(a: string, x: string)
    requires AllDigits(a) && |x| > 0 && !IsDigit(x[0])
    ensures LeadingDigitCount(a + x) == |a|
  {
    if a == [] {
      assert a + x == x;
    } else {
      assert (a + x)[1..] == a[1..] + x;
      LeadingDigits(a[1..], x);
    }
  }

  /**
   * A run of digits followed by a non-digit is read back unambiguously: if two
   * such texts are equal, so are their digit runs and what follows them.
   */
  lemma DigitRunSplit(a: string, x: string, b: string, y: string)
    requires AllDigits(a) && AllDigits(b)
    requires |x| > 0 && |y| > 0 && !IsDigit(x[0]) && !IsDigit(y[0])
    requires a + x == b + y
    ensures a == b && x == y
  {
    LeadingDigits(a, x);
    LeadingDigits(b, y);
    assert a == (a + x)[..|a|] == (b + y)[..|b|] == b;
    assert x == (a + x)[|a|..] == (b + y)[|b|..] == y;
  }
}
