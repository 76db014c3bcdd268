/**
  The Python `str` operations the core relies on: `replace`, `split`,
  `join`, `strip` and the decimal rendering of integers.
*/
module PyText {

  /** `p` occurs in `s` starting at index `i`. */
  predicate OccursAt(s: string, p: string, i: nat)
  {
    i + |p| <= |s| && s[i..i + |p|] == p
  }

  predicate Contains(s: string, p: string)
  {
    exists i: nat :: i <= |s| && OccursAt(s, p, i)
  }

  // ---------------------------------------------------------------------
  // str.replace
  // ---------------------------------------------------------------------

  /**
    `s.replace(pat, by)`: every non-overlapping occurrence of `pat`, found
    left to right, is replaced by `repl`. An empty `pat` matches before every
    character and at the end, as in Python (`"ab".replace("", "X") == "XaXbX"`).
  */
  function Replace(s: string, pat: string, repl: string): string
    decreases |s|
  {
    if |pat| == 0 then
      if s == [] then repl else repl + [s[0]] + Replace(s[1..], pat, repl)
    else if |s| < |pat| then s
    else if s[..|pat|] == pat then repl + Replace(s[|pat|..], pat, repl)
    else [s[0]] + Replace(s[1..], pat, repl)
  }

  /** Replacing a string by itself changes nothing. */
  lemma {:induction false} ReplaceSelf(s: string, p: string)
    ensures Replace(s, p, p) == s
    decreases |s|
  {
    if |p| == 0 {
      if s != [] {
        ReplaceSelf(s[1..], p);
      }
    } else if |s| < |p| {
    } else if s[..|p|] == p {
      ReplaceSelf(s[|p|..], p);
      assert s == s[..|p|] + s[|p|..];
    } else {
      ReplaceSelf(s[1..], p);
      assert s == [s[0]] + s[1..];
    }
  }

  /** An occurrence one position into `s` is an occurrence in `s[1..]`. */
  lemma OccursShift(s: string, p: string, i: nat)
    requires |s| >= 1
    ensures OccursAt(s[1..], p, i) <==> OccursAt(s, p, i + 1)
  {
    if i + 1 + |p| <= |s| {
      assert s[1..][i..i + |p|] == s[i + 1..i + 1 + |p|];
    }
  }

  /** A string in which `pat` does not occur comes back unchanged. */
  lemma {:induction false} ReplaceAbsent(s: string, pat: string, repl: string)
    requires |pat| > 0 && !Contains(s, pat)
    ensures Replace(s, pat, repl) == s
    decreases |s|
  {
    if |s| < |pat| {
    } else {
      assert !OccursAt(s, pat, 0);
      assert s[..|pat|] != pat;
      forall i: nat | i <= |s[1..]| ensures !OccursAt(s[1..], pat, i) {
        OccursShift(s, pat, i);
      }
      ReplaceAbsent(s[1..], pat, repl);
      assert s == [s[0]] + s[1..];
    }
  }

  /** A string without the character `c` is copied unchanged by a replacement of a pattern starting with `c`, and so is everything after it. */
  lemma {:induction false} ReplaceSkipsPrefix(z: string, y: string, pat: string, repl: string)
    requires |pat| > 0 && pat[0] !in z
    ensures Replace(z + y, pat, repl) == z + Replace(y, pat, repl)
    decreases |z|
  {
    if z != [] {
      var s := z + y;
      assert s[0] == z[0];
      if |s| >= |pat| {
        assert s[..|pat|][0] == z[0];
        assert s[..|pat|] != pat;
      }
      assert s[1..] == z[1..] + y;
      ReplaceSkipsPrefix(z[1..], y, pat, repl);
      if |s| < |pat| {
        // |y| < |pat| too, so Replace(y) == y and both sides equal z + y
        assert Replace(y, pat, repl) == y;
      }
    } else {
      assert z + y == y;
    }
  }

  // ---------------------------------------------------------------------
  // str.split and str.join
  // ---------------------------------------------------------------------

  /**
    `s.split(sep)` for a non-empty separator: the pieces between the
    occurrences of `sep`, found left to right; there is always at least
    one piece (`"".split(",") == [""]`, `"a,,b".split(",") == ["a", "", "b"]`).
  */
  function Split(s: string, sep: string): (pieces: seq<string>)
    requires |sep| > 0
    ensures |pieces| >= 1
    decreases |s|
  {
    if |s| < |sep| then [s]
    else if s[..|sep|] == sep then [[]] + Split(s[|sep|..], sep)
    else
      var rest := Split(s[1..], sep);
      [[s[0]] + rest[0]] + rest[1..]
  }

  /** `sep.join(parts)`. */
  function Join(parts: seq<string>, sep: string): string
    decreases |parts|
  {
    if |parts| == 0 then []
    else if |parts| == 1 then parts[0]
    else parts[0] + sep + Join(parts[1..], sep)
  }

  lemma JoinCons(p: string, rest: seq<string>, sep: string)
    requires |rest| >= 1
    ensures Join([p] + rest, sep) == p + sep + Join(rest, sep)
  {
    assert ([p] + rest)[1..] == rest;
  }

  /** Prepending text to the first part prepends it to the joined string. */
  lemma JoinPrependFirst(x: string, parts: seq<string>, sep: string)
    requires |parts| >= 1
    ensures Join([x + parts[0]] + parts[1..], sep) == x + Join(parts, sep)
  {
    if |parts| > 1 {
      JoinCons(x + parts[0], parts[1..], sep);
    }
  }

  /**
    Python's identity `s.replace(pat, repl) == repl.join(s.split(pat))` for a
    non-empty `pat`: replacing is splitting and re-joining.
  */
  lemma {:induction false} ReplaceIsSplitJoin(s: string, pat: string, repl: string)
    requires |pat| > 0
    ensures Replace(s, pat, repl) == Join(Split(s, pat), repl)
    decreases |s|
  {
    if |s| < |pat| {
    } else if s[..|pat|] == pat {
      ReplaceIsSplitJoin(s[|pat|..], pat, repl);
      JoinCons([], Split(s[|pat|..], pat), repl);
    } else {
      ReplaceIsSplitJoin(s[1..], pat, repl);
      JoinPrependFirst([s[0]], Split(s[1..], pat), repl);
    }
  }

  /** Splitting and re-joining with the same separator gives the string back. */
  lemma SplitJoinRoundTrip(s: string, sep: string)
    requires |sep| > 0
    ensures Join(Split(s, sep), sep) == s
  {
    ReplaceIsSplitJoin(s, sep, sep);
    ReplaceSelf(s, sep);
  }

  /**
    Joining parts free of a one-character separator and splitting again
    gives the parts back.
  */
  lemma {:induction false} JoinSplitRoundTrip(parts: seq<string>, c: char)
    requires |parts| >= 1
    requires forall i :: 0 <= i < |parts| ==> c !in parts[i]
    ensures Split(Join(parts, [c]), [c]) == parts
    decreases |parts|
  {
    if |parts| == 1 {
      SplitNoSeparator(parts[0], c);
    } else {
      JoinCons(parts[0], parts[1..], [c]);
      JoinSplitRoundTrip(parts[1..], c);
      SplitAfterPiece(parts[0], Join(parts[1..], [c]), c);
      assert parts == [parts[0]] + parts[1..];
    }
  }

  lemma {:induction false} SplitNoSeparator(p: string, c: char)
    requires c !in p
    ensures Split(p, [c]) == [p]
    decreases |p|
  {
    if |p| >= 1 {
      assert p[..1] == [p[0]];
      SplitNoSeparator(p[1..], c);
      assert p == [p[0]] + p[1..];
    }
  }

  lemma {:induction false} SplitAfterPiece(p: string, y: string, c: char)
    requires c !in p
    ensures Split(p + [c] + y, [c]) == [p] + Split(y, [c])
    decreases |p|
  {
    var s := p + [c] + y;
    if p == [] {
      assert s[..1] == [c];
      assert s[1..] == y;
    } else {
      assert s[..1] == [p[0]];
      assert s[1..] == p[1..] + [c] + y;
      SplitAfterPiece(p[1..], y, c);
      assert [p[0]] + p[1..] == p;
    }
  }

  /** The first piece of a split is a prefix of the string. */
  lemma {:induction false} SplitFirstIsPrefix(s: string, sep: string)
    requires |sep| > 0
    ensures |Split(s, sep)[0]| <= |s| && Split(s, sep)[0] == s[..|Split(s, sep)[0]|]
    decreases |s|
  {
    if |s| < |sep| {
    } else if s[..|sep|] == sep {
    } else {
      SplitFirstIsPrefix(s[1..], sep);
    }
  }

  /** No piece of a split contains the separator. */
  lemma {:induction false} SplitPiecesAvoidSeparator(s: string, sep: string)
    requires |sep| > 0
    ensures forall i :: 0 <= i < |Split(s, sep)| ==> !Contains(Split(s, sep)[i], sep)
    decreases |s|
  {
    var pieces := Split(s, sep);
    if |s| < |sep| {
      forall j: nat | j <= |s| ensures !OccursAt(s, sep, j) { }
    } else if s[..|sep|] == sep {
      SplitPiecesAvoidSeparator(s[|sep|..], sep);
      forall i | 0 <= i < |pieces| ensures !Contains(pieces[i], sep) {
        if i == 0 {
          assert pieces[0] == [];
          forall j: nat | j <= 0 ensures !OccursAt([], sep, j) { }
        } else {
          assert pieces[i] == Split(s[|sep|..], sep)[i - 1];
        }
      }
    } else {
      var rest := Split(s[1..], sep);
      SplitPiecesAvoidSeparator(s[1..], sep);
      SplitFirstIsPrefix(s[1..], sep);
      forall i | 0 <= i < |pieces| ensures !Contains(pieces[i], sep) {
        if i == 0 {
          var p := pieces[0];
          assert p == [s[0]] + rest[0];
          assert p == s[..|p|];
          if |sep| <= |p| {
            assert p[..|sep|] == s[..|sep|];
          }
          assert p[1..] == rest[0];
          forall j: nat | j <= |p| ensures !OccursAt(p, sep, j) {
            if j > 0 {
              OccursShift(p, sep, j - 1);
            }
          }
        } else {
          assert pieces[i] == rest[i];
        }
      }
    }
  }

  /** Every part of a join is found in the joined string. */
  lemma {:induction false} JoinContainsParts(parts: seq<string>, sep: string, i: nat)
    requires i < |parts|
    ensures Contains(Join(parts, sep), parts[i])
    decreases |parts|
  {
    var j := Join(parts, sep);
    if |parts| == 1 {
      assert OccursAt(j, parts[0], 0);
    } else if i == 0 {
      assert j[..|parts[0]|] == parts[0];
      assert OccursAt(j, parts[0], 0);
    } else {
      JoinContainsParts(parts[1..], sep, i - 1);
      var tail := Join(parts[1..], sep);
      var k: nat :| k <= |tail| && OccursAt(tail, parts[1..][i - 1], k);
      var off := |parts[0]| + |sep|;
      assert j == parts[0] + sep + tail;
      assert j[off + k..off + k + |parts[i]|] == tail[k..k + |parts[i]|];
      assert OccursAt(j, parts[i], off + k);
    }
  }

  // ---------------------------------------------------------------------
  // str.strip
  // ---------------------------------------------------------------------

  /** `c.isspace()`: the characters Python's `str.strip()` removes. */
  predicate IsSpace(c: char)
  {
    ('\t' <= c <= '\r') || ('\U{1c}' <= c <= ' ') || c == '\U{85}' || c == '\U{a0}'
    || c == '\U{1680}' || ('\U{2000}' <= c <= '\U{200a}') || c == '\U{2028}' || c == '\U{2029}'
    || c == '\U{202f}' || c == '\U{205f}' || c == '\U{3000}'
  }

  function TrimStart(s: string): string
    decreases |s|
  {
    if |s| > 0 && IsSpace(s[0]) then TrimStart(s[1..]) else s
  }

  function TrimEnd(s: string): string
    decreases |s|
  {
    if |s| > 0 && IsSpace(s[|s| - 1]) then TrimEnd(s[..|s| - 1]) else s
  }

  /** `s.strip()`. */
  function Strip(s: string): string
  {
    TrimEnd(TrimStart(s))
  }

  /** Neither end of `s` is whitespace. */
  predicate Stripped(s: string)
  {
    s == [] || (!IsSpace(s[0]) && !IsSpace(s[|s| - 1]))
  }

  predicate AllSpace(w: string)
  {
    forall i :: 0 <= i < |w| ==> IsSpace(w[i])
  }

  lemma {:induction false} TrimStartShape(s: string)
    ensures |TrimStart(s)| <= |s| && TrimStart(s) == s[|s| - |TrimStart(s)|..]
    ensures TrimStart(s) == [] || !IsSpace(TrimStart(s)[0])
    decreases |s|
  {
    if |s| > 0 && IsSpace(s[0]) {
      TrimStartShape(s[1..]);
    }
  }

  lemma {:induction false} TrimEndShape(s: string)
    ensures |TrimEnd(s)| <= |s| && TrimEnd(s) == s[..|TrimEnd(s)|]
    ensures TrimEnd(s) == [] || !IsSpace(TrimEnd(s)[|TrimEnd(s)| - 1])
    decreases |s|
  {
    if |s| > 0 && IsSpace(s[|s| - 1]) {
      TrimEndShape(s[..|s| - 1]);
    }
  }

  /** Stripping leaves no whitespace at either end and keeps a contiguous part of the input. */
  lemma StripShape(s: string)
    ensures Stripped(Strip(s))
    ensures exists i: nat :: i <= |s| && OccursAt(s, Strip(s), i)
  {
    var t := TrimStart(s);
    TrimStartShape(s);
    TrimEndShape(t);
    var r := TrimEnd(t);
    if r != [] {
      assert r[0] == t[0];
    }
    var i := |s| - |t|;
    assert s[i..i + |r|] == r;
    assert OccursAt(s, r, i);
  }

  lemma {:induction false} TrimStartOfSpace(w: string, x: string)
    requires AllSpace(w) && (x == [] || !IsSpace(x[0]))
    ensures TrimStart(w + x) == x
    decreases |w|
  {
    if w != [] {
      assert (w + x)[1..] == w[1..] + x;
      TrimStartOfSpace(w[1..], x);
    } else {
      assert w + x == x;
    }
  }

  /** Whitespace before a stripped string is exactly what `strip` removes. */
  lemma StripAfterSpace(w: string, x: string)
    requires AllSpace(w) && Stripped(x)
    ensures Strip(w + x) == x
  {
    TrimStartOfSpace(w, x);
  }

  // ---------------------------------------------------------------------
  // str(int)
  // ---------------------------------------------------------------------

  function DigitChar(d: nat): char
    requires d < 10
  {
    "0123456789"[d]
  }

  function NatToString(n: nat): string
    decreases n
  {
    if n < 10 then [DigitChar(n)] else NatToString(n / 10) + [DigitChar(n % 10)]
  }

  /** `str(i)` for an integer. */
  function IntToString(i: int): string
  {
    if i < 0 then "-" + NatToString(-i) else NatToString(i)
  }
}
