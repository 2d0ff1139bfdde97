/**
 * The string primitives the storefront calls: case mapping (`toLowerCase`,
 * `Uppercase`), JavaScript's whitespace class (`trim`, `\s`), the
 * `replace(/\s+/g, '-')` slug step, and the case-insensitive pattern test
 * used by the name filters.
 *
 * Case mapping covers the ASCII letters only; every other character maps to
 * itself. The whitespace class is the one ECMAScript's `trim` and `\s` share.
 */
module Text {

  predicate IsAsciiLower(c: char) { 'a' <= c <= 'z' }

  predicate IsAsciiUpper(c: char) { 'A' <= c <= 'Z' }

  /** The capital of a lower-case ASCII letter sits 32 code points below it. */
  function UpperChar(c: char): (r: char)
    ensures IsAsciiLower(c) ==> IsAsciiUpper(r) && r as int == c as int - 32
    ensures !IsAsciiLower(c) ==> r == c
  {
    if IsAsciiLower(c) then (c as int - 32) as char else c
  }

  /** The lower-case letter of an ASCII capital sits 32 code points above it. */
  function LowerChar(c: char): (r: char)
    ensures IsAsciiUpper(c) ==> IsAsciiLower(r) && r as int == c as int + 32
    ensures !IsAsciiUpper(c) ==> r == c
  {
    if IsAsciiUpper(c) then (c as int + 32) as char else c
  }

  /** Upper- and lower-casing undo each other on the letters they change. */
  lemma CaseInverse(c: char)
    ensures IsAsciiLower(c) ==> LowerChar(UpperChar(c)) == c
    ensures IsAsciiUpper(c) ==> UpperChar(LowerChar(c)) == c
  {
  }

  /** No ASCII capital letter occurs in `s`. */
  predicate NoUpper(s: string)
  {
    forall i :: 0 <= i < |s| ==> !IsAsciiUpper(s[i])
  }

  /** `s.toLowerCase()`. */
  function Lower(s: string): (r: string)
    ensures |r| == |s|
    ensures forall i :: 0 <= i < |s| ==> r[i] == LowerChar(s[i])
    ensures NoUpper(r)
    ensures NoUpper(s) ==> r == s
  {
    seq(|s|, i requires 0 <= i < |s| => LowerChar(s[i]))
  }

  /** ECMAScript WhiteSpace and LineTerminator code points: what `trim` strips and `\s` matches. */
  predicate IsSpace(c: char)
  {
    c == ' ' || c == '\t' || c == '\n' || c == '\r' || c == '\U{000B}' || c == '\U{000C}'
    || c == '\U{00A0}' || c == '\U{1680}' || ('\U{2000}' <= c <= '\U{200A}')
    || c == '\U{2028}' || c == '\U{2029}' || c == '\U{202F}' || c == '\U{205F}'
    || c == '\U{3000}' || c == '\U{FEFF}'
  }

  lemma LowerKeepsSpace(c: char)
    ensures IsSpace(LowerChar(c)) <==> IsSpace(c)
  {
  }

  predicate NoSpace(s: string)
  {
    forall i :: 0 <= i < |s| ==> !IsSpace(s[i])
  }

  /** Drops the leading whitespace. */
  function TrimStart(s: string): (r: string)
    ensures |r| <= |s| && r == s[|s| - |r|..]
    ensures r != [] ==> !IsSpace(r[0])
    ensures forall i :: 0 <= i < |s| - |r| ==> IsSpace(s[i])
  {
    if s != [] && IsSpace(s[0]) then
      var r := TrimStart(s[1..]);
      assert forall i :: 1 <= i < |s| ==> s[i] == s[1..][i - 1];
      r
    else s
  }

  /** Drops the trailing whitespace. */
  function TrimEnd(s: string): (r: string)
    ensures |r| <= |s| && r == s[..|r|]
    ensures r != [] ==> !IsSpace(r[|r| - 1])
    ensures forall i :: |r| <= i < |s| ==> IsSpace(s[i])
  {
    if s != [] && IsSpace(s[|s| - 1]) then
      var r := TrimEnd(s[..|s| - 1]);
      assert forall i :: 0 <= i < |s| - 1 ==> s[i] == s[..|s| - 1][i];
      r
    else s
  }

  /** `r` is `s` with `k` whitespace characters cut from the front and only whitespace cut from the back. */
  ghost predicate TrimmedFrom(s: string, r: string, k: nat)
  {
    && k + |r| <= |s|
    && r == s[k..k + |r|]
    && (forall i :: 0 <= i < k ==> IsSpace(s[i]))
    && (forall i :: k + |r| <= i < |s| ==> IsSpace(s[i]))
  }

  /** `s.trim()`: the longest infix that neither starts nor ends with whitespace. */
  function Trim(s: string): (r: string)
    ensures TrimmedFrom(s, r, |s| - |TrimStart(s)|)
    ensures r != [] ==> !IsSpace(r[0]) && !IsSpace(r[|r| - 1])
  {
    TrimStartThenEnd(s);
    TrimEnd(TrimStart(s))
  }

  lemma TrimStartThenEnd(s: string)
    ensures TrimmedFrom(s, TrimEnd(TrimStart(s)), |s| - |TrimStart(s)|)
  {
    var a := TrimStart(s);
    TrimmedInfix(s, a, TrimEnd(a), |s| - |a|);
  }

  /** Cutting whitespace from the front, then from the back of what is left, cuts an infix. */
  lemma TrimmedInfix(s: string, a: string, r: string, k: nat)
    requires k <= |s| && a == s[k..] && |r| <= |a| && r == a[..|r|]
    requires forall i :: 0 <= i < k ==> IsSpace(s[i])
    requires forall i :: |r| <= i < |a| ==> IsSpace(a[i])
    ensures TrimmedFrom(s, r, k)
  {
    assert r == s[k..k + |r|];
    forall i | k + |r| <= i < |s|
      ensures IsSpace(s[i])
    {
      assert s[i] == a[i - k];
    }
  }

  /** Trimming yields the empty string exactly when the input is all whitespace. */
  lemma TrimEmpty(s: string)
    ensures Trim(s) == [] <==> forall i :: 0 <= i < |s| ==> IsSpace(s[i])
  {
    var k := |s| - |TrimStart(s)|;
    assert TrimmedFrom(s, Trim(s), k);
    if Trim(s) != [] {
      assert s[k] == Trim(s)[0];
    }
  }

  /** Trimming a trimmed string changes nothing. */
  lemma TrimIdempotent(s: string)
    ensures Trim(Trim(s)) == Trim(s)
  {
    var t := Trim(s);
    assert TrimStart(t) == t;
    assert TrimEnd(t) == t;
  }

  /** A string without whitespace is its own trim. */
  lemma TrimNoSpace(s: string)
    requires NoSpace(s)
    ensures Trim(s) == s
  {
    assert TrimStart(s) == s;
    assert TrimEnd(s) == s;
  }

  /**
   * `s.replace(/\s+/g, '-')`: every maximal whitespace run becomes one '-'.
   * Read left to right, a whitespace character that ends its run becomes the
   * run's '-', and one followed by more whitespace is dropped.
   */
  function DashRuns(s: string): (r: string)
    ensures NoSpace(r)
    ensures |r| <= |s|
    ensures NoSpace(s) ==> r == s
  {
    if s == [] then []
    else if !IsSpace(s[0]) then [s[0]] + DashRuns(s[1..])
    else if |s| > 1 && IsSpace(s[1]) then DashRuns(s[1..])
    else ['-'] + DashRuns(s[1..])
  }

  /** The dashes are not capitals, so a lower-cased string stays lower-cased. */
  lemma {:induction false} DashRunsNoUpper(s: string)
    requires NoUpper(s)
    ensures NoUpper(DashRuns(s))
  {
    if s != [] {
      var rest := s[1..];
      assert NoUpper(rest) by {
        forall i | 0 <= i < |rest| ensures !IsAsciiUpper(rest[i]) {
          assert rest[i] == s[i + 1];
        }
      }
      DashRunsNoUpper(rest);
      var tail := DashRuns(rest);
      var r := DashRuns(s);
      if r != tail {
        var head := if IsSpace(s[0]) then '-' else s[0];
        assert r == [head] + tail;
        forall i | 0 <= i < |r| ensures !IsAsciiUpper(r[i]) {
          if i > 0 {
            assert r[i] == tail[i - 1];
          }
        }
      }
    }
  }

  predicate AllSpace(s: string)
  {
    forall i :: 0 <= i < |s| ==> IsSpace(s[i])
  }

  /** A non-empty whitespace run becomes a single '-'. */
  lemma {:induction false} DashRunsOfRun(w: string)
    requires w != [] && AllSpace(w)
    ensures DashRuns(w) == "-"
  {
    if |w| > 1 {
      var rest := w[1..];
      assert IsSpace(w[1]);
      assert AllSpace(rest) by {
        forall i | 0 <= i < |rest| ensures IsSpace(rest[i]) {
          assert rest[i] == w[i + 1];
        }
      }
      DashRunsOfRun(rest);
    }
  }

  /**
   * `replace(/\s+/g, '-')` works run by run: cutting a string at a point that
   * does not split a whitespace run replaces each side on its own.
   */
  lemma {:induction false} DashRunsConcat(a: string, b: string)
    requires a == [] || b == [] || !IsSpace(a[|a| - 1]) || !IsSpace(b[0])
    ensures DashRuns(a + b) == DashRuns(a) + DashRuns(b)
  {
    if a == [] {
      assert a + b == b;
    } else if b == [] {
      assert a + b == a;
    } else {
      var tail := a[1..];
      assert (a + b)[0] == a[0] && (a + b)[1..] == tail + b;
      if tail == [] {
        assert a == [a[0]];
        if IsSpace(a[0]) {
          assert (a + b)[1] == b[0];
        }
      } else {
        assert (a + b)[1] == tail[0] && tail[|tail| - 1] == a[|a| - 1];
        DashRunsConcat(tail, b);
        if IsSpace(a[0]) && !IsSpace(tail[0]) {
          assert DashRuns(a + b) == ['-'] + (DashRuns(tail) + DashRuns(b));
        } else if !IsSpace(a[0]) {
          assert DashRuns(a + b) == [a[0]] + (DashRuns(tail) + DashRuns(b));
        }
      }
    }
  }

  /** `toLowerCase` works character by character, so it splits over a concatenation. */
  lemma LowerConcat(a: string, b: string)
    ensures Lower(a + b) == Lower(a) + Lower(b)
  {
    assert forall i :: 0 <= i < |a + b| ==> Lower(a + b)[i] == (Lower(a) + Lower(b))[i];
  }

  /** Lower-casing keeps a string free of whitespace, or all whitespace. */
  lemma LowerKeepsSpaces(s: string)
    ensures NoSpace(s) ==> NoSpace(Lower(s))
    ensures AllSpace(s) ==> AllSpace(Lower(s))
  {
    forall i | 0 <= i < |s| ensures IsSpace(Lower(s)[i]) <==> IsSpace(s[i]) {
      LowerKeepsSpace(s[i]);
    }
  }

  /** Two words with a whitespace run between them become the words joined by one '-'. */
  lemma DashRunsJoin(a: string, w: string, b: string)
    requires a != [] && b != [] && NoSpace(a) && NoSpace(b)
    requires w != [] && AllSpace(w)
    ensures DashRuns(a + w + b) == a + "-" + b
  {
    assert DashRuns(w + b) == "-" + b by {
      DashRunsConcat(w, b);
      DashRunsOfRun(w);
    }
    assert DashRuns(a + (w + b)) == a + DashRuns(w + b) by {
      assert !IsSpace(a[|a| - 1]);
      DashRunsConcat(a, w + b);
    }
    assert a + w + b == a + (w + b);
  }

  /** A string that starts and ends with non-whitespace is its own trim. */
  lemma TrimKeepsWord(s: string)
    requires s != [] && !IsSpace(s[0]) && !IsSpace(s[|s| - 1])
    ensures Trim(s) == s
  {
    assert TrimStart(s) == s;
    assert TrimEnd(s) == s;
  }

  /** `haystack` contains `needle` as a contiguous piece. */
  predicate Contains(haystack: string, needle: string)
  {
    exists i: nat | i <= |haystack| :: OccursAt(haystack, needle, i)
  }

  predicate OccursAt(haystack: string, needle: string, i: nat)
  {
    i + |needle| <= |haystack| && haystack[i..i + |needle|] == needle
  }

  /**
   * `new RegExp(pattern, 'i').test(name)` for a pattern without regular
   * expression metacharacters: a case-insensitive substring test.
   */
  predicate NameMatches(pattern: string, name: string)
  {
    Contains(Lower(name), Lower(pattern))
  }

  /** The empty pattern matches every name, and every name matches itself. */
  lemma NameMatchesBasics(pattern: string, name: string)
    ensures NameMatches("", name)
    ensures NameMatches(name, name)
  {
    var ln := Lower(name);
    assert Lower("") == [];
    assert OccursAt(ln, Lower(""), 0);
    assert OccursAt(ln, ln, 0);
  }
}
