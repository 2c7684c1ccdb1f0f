/**
 The .NET string operations the helpers rely on: `String.Split(char)`,
 `string.Join`, `String.Length` (UTF-16 code units), `Char.IsWhiteSpace` and
 `String.Trim()`, each stated by what it means.
 */
module Text {

  /** `s.Split(c)`: the pieces between occurrences of `c`, empty pieces included. */
  function Split(s: string, c: char): (pieces: seq<string>)
    ensures |pieces| >= 1
    decreases |s|
  {
    if s == [] then [""]
    else
      var rest := Split(s[1..], c);
      if s[0] == c then [""] + rest else [[s[0]] + rest[0]] + rest[1..]
  }

  /** `string.Join(c, pieces)`. */
  function Join(pieces: seq<string>, c: char): string
    decreases |pieces|
  {
    if |pieces| == 0 then ""
    else if |pieces| == 1 then pieces[0]
    else pieces[0] + [c] + Join(pieces[1..], c)
  }

  /** The UTF-16 code units of a character: a surrogate pair above U+FFFF, else one unit. */
  function Utf16Units(ch: char): (n: nat)
    ensures n == 1 || n == 2
    ensures n == 2 <==> ch as int > 0xFFFF
  {
    if ch as int > 0xFFFF then 2 else 1
  }

  /** `s.Length`: a .NET string counts UTF-16 code units, not characters. */
  function Utf16Length(s: string): (n: nat)
    ensures |s| <= n <= 2 * |s|
  {
    if s == [] then 0 else Utf16Length(s[..|s| - 1]) + Utf16Units(s[|s| - 1])
  }

  /** The code-unit length of a concatenation is the sum of the lengths. */
  lemma {:induction false} Utf16LengthAppend(a: string, b: string)
    ensures Utf16Length(a + b) == Utf16Length(a) + Utf16Length(b)
    decreases |b|
  {
    if b == [] {
      assert a + b == a;
    } else {
      var p := b[..|b| - 1];
      Utf16LengthAppend(a, p);
      assert (a + b)[..|a + b| - 1] == a + p;
      assert (a + b)[|a + b| - 1] == b[|b| - 1];
    }
  }

  /** The code-unit length equals the character count exactly when no character needs a surrogate pair. */
  lemma {:induction false} Utf16LengthBmp(s: string)
    ensures Utf16Length(s) == |s| <==> forall i :: 0 <= i < |s| ==> s[i] as int <= 0xFFFF
    decreases |s|
  {
    if s != [] {
      var p := s[..|s| - 1];
      Utf16LengthBmp(p);
      assert forall i :: 0 <= i < |p| ==> p[i] == s[i];
    }
  }

  /** Joining the pieces with the separator gives back the string. */
  lemma {:induction false} SplitJoin(s: string, c: char)
    ensures Join(Split(s, c), c) == s
    decreases |s|
  {
    if s != [] {
      var rest := Split(s[1..], c);
      SplitJoin(s[1..], c);
      if s[0] == c {
        assert Split(s, c) == [""] + rest;
        assert Join([""] + rest, c) == "" + [c] + Join(rest, c) by {
          assert ([""] + rest)[1..] == rest;
        }
      } else {
        assert Split(s, c) == [[s[0]] + rest[0]] + rest[1..];
        JoinFirst(s[0], rest, c);
      }
    }
  }

  /** A character put in front of the first piece comes first in the joined string. */
  lemma JoinFirst(x: char, pieces: seq<string>, c: char)
    requires |pieces| >= 1
    ensures Join([[x] + pieces[0]] + pieces[1..], c) == [x] + Join(pieces, c)
  {
    var p := [[x] + pieces[0]] + pieces[1..];
    if |pieces| >= 2 {
      assert p[1..] == pieces[1..];
    }
  }

  /** No piece contains the separator. */
  lemma {:induction false} SplitPiecesFree(s: string, c: char)
    ensures forall i :: 0 <= i < |Split(s, c)| ==> c !in Split(s, c)[i]
    decreases |s|
  {
    if s != [] {
      SplitPiecesFree(s[1..], c);
      var rest := Split(s[1..], c);
      if s[0] != c {
        assert c !in [s[0]] + rest[0];
      }
    }
  }

  /** A string without the separator is a single piece. */
  lemma {:induction false} SplitWithout(s: string, c: char)
    requires c !in s
    ensures Split(s, c) == [s]
    decreases |s|
  {
    if s != [] {
      assert c !in s[1..];
      SplitWithout(s[1..], c);
      assert [s[0]] + s[1..] == s;
    }
  }

  /** A separator-free head is the first piece; the rest splits on its own. */
  lemma {:induction false} SplitAfter(a: string, b: string, c: char)
    requires c !in a
    ensures Split(a + [c] + b, c) == [a] + Split(b, c)
    decreases |a|
  {
    if a == [] {
      assert a + [c] + b == [c] + b;
      assert ([c] + b)[1..] == b;
    } else {
      var s := a + [c] + b;
      assert s[0] == a[0] && s[1..] == a[1..] + [c] + b;
      assert c !in a[1..];
      SplitAfter(a[1..], b, c);
      assert [a[0]] + a[1..] == a;
    }
  }

  /** Splitting a join of separator-free pieces gives the pieces back. */
  lemma {:induction false} JoinSplit(pieces: seq<string>, c: char)
    requires |pieces| >= 1
    requires forall i :: 0 <= i < |pieces| ==> c !in pieces[i]
    ensures Split(Join(pieces, c), c) == pieces
    decreases |pieces|
  {
    if |pieces| == 1 {
      SplitWithout(pieces[0], c);
    } else {
      var rest := pieces[1..];
      JoinSplit(rest, c);
      SplitAfter(pieces[0], Join(rest, c), c);
      assert [pieces[0]] + rest == pieces;
    }
  }

  /** `Char.IsWhiteSpace`: the Unicode space, line and paragraph separators, and U+0009-U+000D and U+0085. */
  predicate IsWhiteSpace(ch: char) {
    ('\U{9}' <= ch <= '\U{D}') || ch == '\U{20}' || ch == '\U{85}' || ch == '\U{A0}' || ch == '\U{1680}' ||
    ('\U{2000}' <= ch <= '\U{200A}') || ch == '\U{2028}' || ch == '\U{2029}' || ch == '\U{202F}' || ch == '\U{205F}' ||
    ch == '\U{3000}'
  }

  /** Every character of `s[lo..hi]` is white space. */
  predicate AllWhite(s: string, lo: int, hi: int)
    requires 0 <= lo <= hi <= |s|
  {
    forall i :: lo <= i < hi ==> IsWhiteSpace(s[i])
  }

  /** The index of the first character at or after `i` that is not white space (or `|s|`). */
  function FirstKept(s: string, i: nat): (k: nat)
    requires i <= |s|
    ensures i <= k <= |s| && AllWhite(s, i, k)
    ensures k == |s| || !IsWhiteSpace(s[k])
    decreases |s| - i
  {
    if i < |s| && IsWhiteSpace(s[i]) then FirstKept(s, i + 1) else i
  }

  /** The end of `s[lo..hi]` once the white space at its end is dropped. */
  function EndKept(s: string, lo: nat, hi: nat): (h: nat)
    requires lo <= hi <= |s|
    ensures lo <= h <= hi && AllWhite(s, h, hi)
    ensures h == lo || !IsWhiteSpace(s[h - 1])
    decreases hi - lo
  {
    if lo < hi && IsWhiteSpace(s[hi - 1]) then EndKept(s, lo, hi - 1) else hi
  }

  /** `Trim()`: white space removed at both ends. */
  function Trim(s: string): (r: string)
    ensures r == [] || (!IsWhiteSpace(r[0]) && !IsWhiteSpace(r[|r| - 1]))
  {
    var k := FirstKept(s, 0);
    s[k..EndKept(s, k, |s|)]
  }

  /** What `Trim()` keeps is a middle slice of `s`, with only white space around it. */
  lemma TrimMiddle(s: string)
    ensures var k := FirstKept(s, 0);
            var r := Trim(s);
            k + |r| <= |s| && r == s[k..k + |r|] &&
            AllWhite(s, 0, k) && AllWhite(s, k + |r|, |s|)
  {
  }

  /** Trimming takes nothing away from a string that has no white space at either end. */
  lemma TrimKeeps(s: string)
    requires s == [] || (!IsWhiteSpace(s[0]) && !IsWhiteSpace(s[|s| - 1]))
    ensures Trim(s) == s
  {
  }
}
