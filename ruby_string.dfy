/**
 * The few Ruby String and Array operations the core relies on, over ASCII:
 * `String#strip`, `String#downcase`, `String#casecmp`, `String#[0..n]`,
 * `String#chars` and `Array#&`.
 */
module RubyString {

  /** Ruby's whitespace for `strip`: NUL, \t, \n, \v, \f, \r and space. */
  predicate IsSpace(c: char) {
    c == '\0' || c == '\t' || c == '\n' || c == '\U{000B}' || c == '\U{000C}' || c == '\r' || c == ' '
  }

  predicate NoSpace(s: string) {
    forall i :: 0 <= i < |s| ==> !IsSpace(s[i])
  }

  /** `String#lstrip`: drops the leading whitespace. */
  function LStrip(s: string): (r: string)
    ensures |r| <= |s| && r == s[|s| - |r|..]
    ensures forall i :: 0 <= i < |s| - |r| ==> IsSpace(s[i])
    ensures r == [] || !IsSpace(r[0])
  {
    if s != [] && IsSpace(s[0]) then LStrip(s[1..]) else s
  }

  /** `String#rstrip`: drops the trailing whitespace. */
  function RStrip(s: string): (r: string)
    ensures |r| <= |s| && r == s[..|r|]
    ensures forall i :: |r| <= i < |s| ==> IsSpace(s[i])
    ensures r == [] || !IsSpace(r[|r| - 1])
  {
    if s != [] && IsSpace(s[|s| - 1]) then RStrip(s[..|s| - 1]) else s
  }

  /**
   * `String#strip`: the result is a slice of `s` with only whitespace cut off
   * on either side, and it neither starts nor ends with whitespace.
   */
  function Strip(s: string): (r: string)
    ensures exists a, b :: 0 <= a <= b <= |s| && r == s[a..b]
                        && (forall i :: 0 <= i < a ==> IsSpace(s[i]))
                        && (forall i :: b <= i < |s| ==> IsSpace(s[i]))
    ensures r == [] || (!IsSpace(r[0]) && !IsSpace(r[|r| - 1]))
  {
    var l := LStrip(s);
    var r := RStrip(l);
    assert r == s[|s| - |l|..|s| - |l| + |r|];
    r
  }

  /** A string without whitespace at either end is its own `strip`. */
  lemma StripTrimmed(s: string)
    requires s == [] || (!IsSpace(s[0]) && !IsSpace(s[|s| - 1]))
    ensures Strip(s) == s
  {
    assert LStrip(s) == s;
    assert RStrip(s) == s;
  }

  lemma StripNoSpace(s: string)
    requires NoSpace(s)
    ensures Strip(s) == s
  {
    StripTrimmed(s);
  }

  /** Stripping twice is stripping once. */
  lemma StripIdempotent(s: string)
    ensures Strip(Strip(s)) == Strip(s)
  {
    StripTrimmed(Strip(s));
  }

  /** One leading blank and one trailing newline are cut by `strip`. */
  lemma StripPadded(a: string)
    ensures Strip(" " + a + "\n") == Strip(a)
  {
    var p := " " + a + "\n";
    assert p[1..] == a + "\n";
    assert LStrip(p) == LStrip(a + "\n");
    LStripAppend(a, "\n");
    var l := LStrip(a);
    if l == [] {
      assert LStrip(a + "\n") == [];
      assert Strip(a) == [];
    } else {
      assert LStrip(a + "\n") == l + "\n";
      assert (l + "\n")[..|l|] == l;
      assert RStrip(l + "\n") == RStrip(l);
    }
  }

  /** `lstrip` of `a + t`, for all-whitespace `t`. */
  lemma {:induction false} LStripAppend(a: string, t: string)
    requires t != [] && forall i :: 0 <= i < |t| ==> IsSpace(t[i])
    ensures LStrip(a) == [] ==> LStrip(a + t) == []
    ensures LStrip(a) != [] ==> LStrip(a + t) == LStrip(a) + t
    decreases |a|
  {
    if a == [] {
      LStripAllSpace(t);
    } else if IsSpace(a[0]) {
      assert (a + t)[1..] == a[1..] + t;
      LStripAppend(a[1..], t);
    } else {
      assert (a + t)[0] == a[0];
    }
  }

  lemma {:induction false} LStripAllSpace(t: string)
    requires forall i :: 0 <= i < |t| ==> IsSpace(t[i])
    ensures LStrip(t) == []
    decreases |t|
  {
    if t != [] {
      LStripAllSpace(t[1..]);
    }
  }

  /** ASCII lower-casing of one character (A-Z to a-z, all else unchanged). */
  function Lower(c: char): char {
    if 'A' <= c <= 'Z' then (c as int + 32) as char else c
  }

  predicate IsLowerAscii(s: string) {
    forall i :: 0 <= i < |s| ==> 'a' <= s[i] <= 'z'
  }

  /** `String#downcase`, restricted to ASCII. */
  function Downcase(s: string): (r: string)
    ensures |r| == |s|
    ensures forall i :: 0 <= i < |s| ==> r[i] == Lower(s[i])
  {
    seq(|s|, i requires 0 <= i < |s| => Lower(s[i]))
  }

  lemma DowncaseLower(s: string)
    requires IsLowerAscii(s)
    ensures Downcase(s) == s
  {
  }

  /**
   * `String#casecmp`: compares `a` and `b` character by character once A-Z and
   * a-z are folded together (Ruby's casecmp folds ASCII only). The result is
   * -1, 0 or 1; `CaseCmpZeroIff` says when it is 0.
   */
  function CaseCmp(a: string, b: string): (r: int)
    ensures -1 <= r <= 1
    decreases |a|
  {
    if a == [] && b == [] then 0
    else if a == [] then -1
    else if b == [] then 1
    else if Lower(a[0]) < Lower(b[0]) then -1
    else if Lower(a[0]) > Lower(b[0]) then 1
    else CaseCmp(a[1..], b[1..])
  }

  /** casecmp reports equality exactly when the case-folded strings are equal. */
  lemma {:induction false} CaseCmpZeroIff(a: string, b: string)
    ensures CaseCmp(a, b) == 0 <==> Downcase(a) == Downcase(b)
    decreases |a|
  {
    if a != [] && b != [] {
      assert Downcase(a)[0] == Lower(a[0]) && Downcase(b)[0] == Lower(b[0]);
      if Lower(a[0]) == Lower(b[0]) {
        CaseCmpZeroIff(a[1..], b[1..]);
        assert Downcase(a) == [Lower(a[0])] + Downcase(a[1..]);
        assert Downcase(b) == [Lower(b[0])] + Downcase(b[1..]);
      }
    } else if a != [] || b != [] {
      assert |Downcase(a)| != |Downcase(b)|;
    }
  }

  /** casecmp is antisymmetric: swapping the arguments negates the result. */
  lemma {:induction false} CaseCmpAntisymmetric(a: string, b: string)
    ensures CaseCmp(a, b) == -CaseCmp(b, a)
    decreases |a|
  {
    if a != [] && b != [] && Lower(a[0]) == Lower(b[0]) {
      CaseCmpAntisymmetric(a[1..], b[1..]);
    }
  }

  /**
   * Ruby's `s[0..n - 1]` for a positive `n`: the first `n` characters, or all
   * of a shorter `s`. (For `n` = 0 Ruby's `s[0..-1]` is all of `s`.)
   */
  function Take(s: string, n: nat): (r: string)
    requires n > 0
    ensures |r| == if |s| < n then |s| else n
    ensures r <= s
  {
    if |s| < n then s else s[..n]
  }

  /** `String#chars`: one single-character string per character. */
  function Chars(s: string): (r: seq<string>)
    ensures |r| == |s|
    ensures forall i :: 0 <= i < |s| ==> r[i] == [s[i]]
  {
    seq(|s|, i requires 0 <= i < |s| => [s[i]])
  }

  /**
   * `Array#&`: the elements of `a` that also occur in `b`, each once, in the
   * order of their first occurrence in `a`.
   */
  function ArrayAnd(a: seq<string>, b: seq<string>): (r: seq<string>)
    ensures forall x :: x in r <==> x in a && x in b
    ensures forall i, j :: 0 <= i < j < |r| ==> r[i] != r[j]
    decreases |a|
  {
    if a == [] then []
    else
      var r := ArrayAnd(a[..|a| - 1], b);
      var x := a[|a| - 1];
      assert a == a[..|a| - 1] + [x];
      if x in b && x !in r then r + [x] else r
  }
}
