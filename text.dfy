/**
 * The few Python string operations the run relies on: `sub in s`,
 * `s.startswith(p)`, the `{label:<width}` format spec (`str.ljust`), and,
 * as a reference reading of a printed line, `str.split()` on whitespace.
 */
module Text {

  /** `s.startswith(prefix)`. */
  predicate StartsWith(s: string, prefix: string)
  {
    prefix <= s
  }

  /** Python's `sub in s` on strings: some suffix of `s` starts with `sub`. */
  function Contains(s: string, sub: string): bool
    decreases |s|
  {
    if StartsWith(s, sub) then true
    else if s == [] then false
    else Contains(s[1..], sub)
  }

  /** `sub` occurs in `s` starting at index `i`. */
  ghost predicate OccursAt(s: string, sub: string, i: int)
  {
    0 <= i && i + |sub| <= |s| && s[i..i + |sub|] == sub
  }

  /** `Contains` finds an occurrence exactly when one exists. */
  lemma {:induction false} ContainsIff(s: string, sub: string)
    ensures Contains(s, sub) <==> exists i :: OccursAt(s, sub, i)
    decreases |s|
  {
    if StartsWith(s, sub) {
      assert OccursAt(s, sub, 0);
    } else if s == [] {
    } else {
      ContainsIff(s[1..], sub);
      if Contains(s, sub) {
        var j :| OccursAt(s[1..], sub, j);
        assert s[j + 1..j + 1 + |sub|] == s[1..][j..j + |sub|];
        assert OccursAt(s, sub, j + 1);
      }
      if exists i :: OccursAt(s, sub, i) {
        var i :| OccursAt(s, sub, i);
        assert i != 0;
        assert s[1..][i - 1..i - 1 + |sub|] == s[i..i + |sub|];
        assert OccursAt(s[1..], sub, i - 1);
      }
    }
  }

  /** `n` blanks. */
  function Spaces(n: nat): (r: string)
    ensures |r| == n && forall i :: 0 <= i < n ==> r[i] == ' '
  {
    if n == 0 then "" else " " + Spaces(n - 1)
  }

  /**
   * `format(s, "<width")`, i.e. `s.ljust(width)`: `s` padded on the right with
   * blanks up to `width` characters, and left as it is when already that long.
   */
  function LeftJustify(s: string, width: nat): (r: string)
    ensures |r| == if |s| < width then width else |s|
    ensures r[..|s|] == s
    ensures forall i :: |s| <= i < |r| ==> r[i] == ' '
  {
    if |s| < width then s + Spaces(width - |s|) else s
  }

  /** The ASCII characters `str.split()` separates on: tab to carriage return, U+001C to U+001F, and the blank. */
  const WHITESPACE: set<char> := {'\t', '\n', '\U{B}', '\U{C}', '\r', '\U{1C}', '\U{1D}', '\U{1E}', '\U{1F}', ' '}

  predicate IsSpace(c: char)
  {
    c in WHITESPACE
  }

  /** A non-empty run of characters none of which is whitespace. */
  predicate IsWord(w: string)
  {
    w != [] && forall i :: 0 <= i < |w| ==> !IsSpace(w[i])
  }

  /** Length of the leading run of non-whitespace characters of `s`. */
  function WordLength(s: string): (n: nat)
    ensures n <= |s|
    ensures forall i :: 0 <= i < n ==> !IsSpace(s[i])
    ensures n < |s| ==> IsSpace(s[n])
  {
    if s == [] || IsSpace(s[0]) then 0 else 1 + WordLength(s[1..])
  }

  /** `s.split()`: the maximal whitespace-free runs of `s`, in order. */
  function Tokens(s: string): (ts: seq<string>)
    ensures forall k :: 0 <= k < |ts| ==> IsWord(ts[k])
    decreases |s|
  {
    if s == [] then []
    else if IsSpace(s[0]) then Tokens(s[1..])
    else
      var n := WordLength(s);
      [s[..n]] + Tokens(s[n..])
  }

  lemma {:induction false} WordLengthConcat(a: string, b: string)
    ensures WordLength(a) < |a| ==> WordLength(a + b) == WordLength(a)
    ensures WordLength(a) == |a| ==> WordLength(a + b) == |a| + WordLength(b)
    decreases |a|
  {
    if a != [] && !IsSpace(a[0]) {
      assert (a + b)[1..] == a[1..] + b;
      WordLengthConcat(a[1..], b);
    } else if a == [] {
      assert a + b == b;
    }
  }

  /** `a` is one whole word and `b` does not continue it. */
  lemma TokensConcatWord(a: string, b: string)
    requires a != [] && WordLength(a) == |a|
    requires b == [] || IsSpace(b[0])
    ensures Tokens(a + b) == [a] + Tokens(b)
    ensures Tokens(a) == [a]
  {
    WordLengthConcat(a, b);
    assert (a + b)[..|a|] == a && (a + b)[|a|..] == b;
    assert a[..|a|] == a && a[|a|..] == [];
  }

  /** The first word of `a` ends inside `a`, so it is also the first word of `a + b`. */
  lemma TokensConcatStep(a: string, b: string)
    requires a != [] && !IsSpace(a[0]) && WordLength(a) < |a|
    ensures Tokens(a + b) == [a[..WordLength(a)]] + Tokens(a[WordLength(a)..] + b)
    ensures Tokens(a) == [a[..WordLength(a)]] + Tokens(a[WordLength(a)..])
  {
    var n := WordLength(a);
    WordLengthConcat(a, b);
    assert (a + b)[..n] == a[..n] && (a + b)[n..] == a[n..] + b;
  }

  /** Splitting distributes over a concatenation whose seam is whitespace. */
  lemma {:induction false} TokensConcat(a: string, b: string)
    requires a == [] || b == [] || IsSpace(a[|a| - 1]) || IsSpace(b[0])
    ensures Tokens(a + b) == Tokens(a) + Tokens(b)
    decreases |a|
  {
    if a == [] {
      assert a + b == b;
    } else if IsSpace(a[0]) {
      assert (a + b)[1..] == a[1..] + b;
      TokensConcat(a[1..], b);
    } else if WordLength(a) < |a| {
      TokensConcatStep(a, b);
      TokensConcat(a[WordLength(a)..], b);
    } else {
      TokensConcatWord(a, b);
    }
  }

  lemma {:induction false} TokensSpaces(n: nat)
    ensures Tokens(Spaces(n)) == []
  {
    if n > 0 {
      TokensSpaces(n - 1);
      assert Spaces(n)[1..] == Spaces(n - 1);
    }
  }

  lemma TokensWord(w: string)
    requires IsWord(w)
    ensures Tokens(w) == [w]
  {
    assert WordLength(w) == |w|;
    assert w[..|w|] == w && w[|w|..] == [];
    assert Tokens(w) == [w] + Tokens([]);
  }

  /** A left-justified word reads back as that word alone. */
  lemma TokensLeftJustify(w: string, width: nat)
    requires IsWord(w)
    ensures Tokens(LeftJustify(w, width)) == [w]
  {
    TokensWord(w);
    if |w| < width {
      TokensSpaces(width - |w|);
      TokensConcat(w, Spaces(width - |w|));
    }
  }

  /** A blank between two parts separates their tokens. */
  lemma TokensBlankJoin(a: string, b: string)
    ensures Tokens(a + " " + b) == Tokens(a) + Tokens(b)
  {
    TokensConcat(a, " ");
    assert Tokens(" ") == [];
    TokensConcat(a + " ", b);
  }
}
