/**
  The pure helpers of the configuration loader: deriving an identifier from
  a file name, replacing a string throughout a loaded tree, and resolving
  `${key}` placeholders against the tree's own top-level entries.
*/
module Configs {
  import opened Wrappers
  import opened PyText
  import opened Values

  // ---------------------------------------------------------------------
  // _sanitize_name
  // ---------------------------------------------------------------------

  predicate IsAsciiLetter(c: char) { ('a' <= c <= 'z') || ('A' <= c <= 'Z') }
  predicate IsDigit(c: char) { '0' <= c <= '9' }

  /** One character of the class `[a-zA-Z0-9_]`. */
  predicate IsIdentChar(c: char) { IsAsciiLetter(c) || IsDigit(c) || c == '_' }

  /** A valid name already: only identifier characters, and no leading digit. */
  predicate IsIdentifier(s: string)
  {
    (forall i :: 0 <= i < |s| ==> IsIdentChar(s[i])) && (s != [] ==> !IsDigit(s[0]))
  }

  /** `re.sub(r"[^a-zA-Z0-9_]", "", s)`. */
  function KeepIdentChars(s: string): string
    decreases |s|
  {
    if s == [] then []
    else if IsIdentChar(s[0]) then [s[0]] + KeepIdentChars(s[1..])
    else KeepIdentChars(s[1..])
  }

  /** `_sanitize_name(filename)`. */
  function SanitizeName(filename: string): (r: string)
  {
    var name := KeepIdentChars(Replace(filename, "-", "_"));
    if name != [] && IsDigit(name[0]) then "_" + name else name
  }

  /** Each hyphen becomes an underscore and nothing else changes. */
  function HyphensToUnderscores(s: string): (r: string)
    ensures |r| == |s|
    ensures forall i :: 0 <= i < |s| ==> r[i] == (if s[i] == '-' then '_' else s[i])
  {
    seq(|s|, i requires 0 <= i < |s| => if s[i] == '-' then '_' else s[i])
  }

  /** Replacing one character by another is a character-wise map. */
  lemma {:induction false} ReplaceHyphens(s: string)
    ensures Replace(s, "-", "_") == HyphensToUnderscores(s)
    decreases |s|
  {
    if s != [] {
      ReplaceHyphens(s[1..]);
      if s[0] == '-' {
        assert s[..1] == "-";
      } else {
        assert s[..1] != "-";
      }
      assert HyphensToUnderscores(s) == [if s[0] == '-' then '_' else s[0]] + HyphensToUnderscores(s[1..]);
    }
  }

  lemma {:induction false} KeepIdentCharsShape(s: string)
    ensures forall i :: 0 <= i < |KeepIdentChars(s)| ==> IsIdentChar(KeepIdentChars(s)[i])
    ensures (forall i :: 0 <= i < |s| ==> IsIdentChar(s[i])) ==> KeepIdentChars(s) == s
    ensures KeepIdentChars(s) == [] <==> (forall i :: 0 <= i < |s| ==> !IsIdentChar(s[i]))
    ensures KeepIdentChars(s) != [] && IsIdentChar(s[0]) ==> KeepIdentChars(s)[0] == s[0]
    decreases |s|
  {
    if s != [] {
      KeepIdentCharsShape(s[1..]);
      assert forall i :: 1 <= i < |s| ==> s[i] == s[1..][i - 1];
    }
  }

  /** The sanitized name holds only ASCII letters, digits and `_`, and never starts with a digit. */
  lemma SanitizeNameIsIdentifier(filename: string)
    ensures IsIdentifier(SanitizeName(filename))
  {
    var name := KeepIdentChars(Replace(filename, "-", "_"));
    KeepIdentCharsShape(Replace(filename, "-", "_"));
    var r := SanitizeName(filename);
    if name != [] && IsDigit(name[0]) {
      assert r == "_" + name;
      forall i | 0 <= i < |r| ensures IsIdentChar(r[i]) {
        if i > 0 { assert r[i] == name[i - 1]; }
      }
    }
  }

  /** A name that is already a valid identifier comes back unchanged. */
  lemma SanitizeNameKeepsIdentifiers(s: string)
    requires IsIdentifier(s)
    ensures SanitizeName(s) == s
  {
    ReplaceHyphens(s);
    assert HyphensToUnderscores(s) == s;
    KeepIdentCharsShape(s);
  }

  /** The result is empty exactly when the name holds no identifier character and no hyphen. */
  lemma SanitizeNameEmpty(s: string)
    ensures SanitizeName(s) == [] <==> (forall i :: 0 <= i < |s| ==> !IsIdentChar(s[i]) && s[i] != '-')
  {
    ReplaceHyphens(s);
    var h := HyphensToUnderscores(s);
    KeepIdentCharsShape(h);
    assert forall i :: 0 <= i < |s| ==> (IsIdentChar(h[i]) <==> IsIdentChar(s[i]) || s[i] == '-');
  }

  /** Sanitizing twice is sanitizing once. */
  lemma SanitizeNameIdempotent(s: string)
    ensures SanitizeName(SanitizeName(s)) == SanitizeName(s)
  {
    SanitizeNameIsIdentifier(s);
    SanitizeNameKeepsIdentifiers(SanitizeName(s));
  }

  /** A name made of identifier characters and hyphens maps each hyphen to `_`, with `_` in front of a leading digit. */
  lemma SanitizeNameOfIdentifierText(s: string)
    requires forall i :: 0 <= i < |s| ==> IsIdentChar(s[i]) || s[i] == '-'
    ensures SanitizeName(s) == if s != [] && IsDigit(s[0]) then "_" + HyphensToUnderscores(s) else HyphensToUnderscores(s)
  {
    ReplaceHyphens(s);
    KeepIdentCharsShape(HyphensToUnderscores(s));
  }

  /** Hyphens become underscores: `"models-v2"` gives `"models_v2"`. */
  lemma SanitizeNameExample(s: string)
    requires s == "models-v2"
    ensures SanitizeName(s) == "models_v2"
  {
    SanitizeNameOfIdentifierText(s);
    assert HyphensToUnderscores(s) == "models_v2";
  }

  /** A name starting with a digit keeps that digit, with one underscore in front of it. */
  lemma SanitizeNameLeadingDigit(s: string)
    requires s != [] && IsDigit(s[0])
    ensures |SanitizeName(s)| >= 2 && SanitizeName(s)[0] == '_' && SanitizeName(s)[1] == s[0]
  {
    ReplaceHyphens(s);
    var h := HyphensToUnderscores(s);
    assert h[0] == s[0];
    KeepIdentCharsShape(h);
  }

  // ---------------------------------------------------------------------
  // Tree shape
  // ---------------------------------------------------------------------

  /**
    The shape of a tree: every string blanked out, every dict key, list
    length and order and every other leaf kept.
  */
  function Skeleton(v: Value): Value
    decreases v
  {
    match v
    case Str(_) => Str("")
    case List(items) => List(seq(|items|, k requires 0 <= k < |items| => Skeleton(items[k])))
    case Dict(es) => Dict(seq(|es|, k requires 0 <= k < |es| => (es[k].0, Skeleton(es[k].1))))
    case _ => v
  }

  /** Every string leaf of the tree satisfies `p`. */
  predicate AllStrings(v: Value, p: string -> bool)
    decreases v
  {
    match v
    case Str(s) => p(s)
    case List(items) => forall k :: 0 <= k < |items| ==> AllStrings(items[k], p)
    case Dict(es) => forall k :: 0 <= k < |es| ==> AllStrings(es[k].1, p)
    case _ => true
  }

  // ---------------------------------------------------------------------
  // recursive_replace
  // ---------------------------------------------------------------------

  /** `recursive_replace(data, old_value, new_value)`. */
  function RecursiveReplace(v: Value, pat: string, repl: string): Value
    decreases v
  {
    match v
    case Dict(es) => Dict(seq(|es|, k requires 0 <= k < |es| => (es[k].0, RecursiveReplace(es[k].1, pat, repl))))
    case List(items) => List(seq(|items|, k requires 0 <= k < |items| => RecursiveReplace(items[k], pat, repl)))
    case Str(s) => Str(Replace(s, pat, repl))
    case _ => v
  }

  /** Replacing keeps every dict key, every list length and order, and every non-string leaf. */
  lemma {:induction false} RecursiveReplaceKeepsShape(v: Value, pat: string, repl: string)
    ensures Skeleton(RecursiveReplace(v, pat, repl)) == Skeleton(v)
    decreases v
  {
    match v
    case Dict(es) =>
      forall k | 0 <= k < |es| { RecursiveReplaceKeepsShape(es[k].1, pat, repl); }
    case List(items) =>
      forall k | 0 <= k < |items| { RecursiveReplaceKeepsShape(items[k], pat, repl); }
    case _ =>
  }

  /** Replacing a string by itself gives the tree back. */
  lemma {:induction false} RecursiveReplaceSelf(v: Value, pat: string)
    ensures RecursiveReplace(v, pat, pat) == v
    decreases v
  {
    match v
    case Dict(es) =>
      forall k | 0 <= k < |es| { RecursiveReplaceSelf(es[k].1, pat); }
      assert RecursiveReplace(v, pat, pat).entries == es;
    case List(items) =>
      forall k | 0 <= k < |items| { RecursiveReplaceSelf(items[k], pat); }
      assert RecursiveReplace(v, pat, pat).items == items;
    case Str(s) => ReplaceSelf(s, pat);
    case _ =>
  }

  /** A tree none of whose strings contain `pat` comes back unchanged. */
  lemma {:induction false} RecursiveReplaceAbsent(v: Value, pat: string, repl: string)
    requires |pat| > 0 && AllStrings(v, s => !Contains(s, pat))
    ensures RecursiveReplace(v, pat, repl) == v
    decreases v
  {
    match v
    case Dict(es) =>
      forall k | 0 <= k < |es| { RecursiveReplaceAbsent(es[k].1, pat, repl); }
      assert RecursiveReplace(v, pat, repl).entries == es;
    case List(items) =>
      forall k | 0 <= k < |items| { RecursiveReplaceAbsent(items[k], pat, repl); }
      assert RecursiveReplace(v, pat, repl).items == items;
    case Str(s) => ReplaceAbsent(s, pat, repl);
    case _ =>
  }

  // ---------------------------------------------------------------------
  // Placeholders: the pattern \$\{(\w+)\}
  // ---------------------------------------------------------------------

  /** `\w`, taken as ASCII. */
  predicate IsWordChar(c: char) { IsIdentChar(c) }

  predicate IsWord(w: string)
  {
    |w| > 0 && forall i :: 0 <= i < |w| ==> IsWordChar(w[i])
  }

  /** The placeholder text for a name. */
  function Token(name: string): string
  {
    "${" + name + "}"
  }

  /** Length of the longest prefix of word characters. */
  function WordRun(s: string): (n: nat)
    ensures n <= |s|
    decreases |s|
  {
    if s != [] && IsWordChar(s[0]) then 1 + WordRun(s[1..]) else 0
  }

  /** The name of the placeholder `s` starts with, if it starts with one. */
  function PlaceholderAt(s: string): Option<string>
  {
    if |s| >= 2 && s[0] == '$' && s[1] == '{' then
      var n := WordRun(s[2..]);
      if n > 0 && 2 + n < |s| && s[2 + n] == '}' then Some(s[2..2 + n]) else None
    else None
  }

  lemma {:induction false} WordRunPrefix(s: string)
    ensures forall i :: 0 <= i < WordRun(s) ==> IsWordChar(s[i])
    ensures WordRun(s) < |s| ==> !IsWordChar(s[WordRun(s)])
    decreases |s|
  {
    if s != [] && IsWordChar(s[0]) {
      WordRunPrefix(s[1..]);
      assert forall i :: 1 <= i < |s| ==> s[i] == s[1..][i - 1];
    }
  }

  /** A placeholder found at the start of `s` spells out its token there. */
  lemma PlaceholderAtShape(s: string)
    requires PlaceholderAt(s).Some?
    ensures IsWord(PlaceholderAt(s).value)
    ensures |Token(PlaceholderAt(s).value)| <= |s|
    ensures s[..|Token(PlaceholderAt(s).value)|] == Token(PlaceholderAt(s).value)
  {
    WordRunPrefix(s[2..]);
    var w := PlaceholderAt(s).value;
    assert s[..|Token(w)|] == "${" + s[2..2 + |w|] + "}";
  }

  lemma {:induction false} WordRunOfWord(w: string, y: string)
    requires forall i :: 0 <= i < |w| ==> IsWordChar(w[i])
    ensures WordRun(w + "}" + y) == |w|
    decreases |w|
  {
    if w == [] {
      assert (w + "}" + y)[0] == '}';
    } else {
      assert (w + "}" + y)[1..] == w[1..] + "}" + y;
      WordRunOfWord(w[1..], y);
    }
  }

  /** A string starting with a token starts with that placeholder. */
  lemma PlaceholderOfToken(w: string, y: string)
    requires IsWord(w)
    ensures PlaceholderAt(Token(w) + y) == Some(w)
  {
    var s := Token(w) + y;
    assert s[2..] == w + "}" + y;
    WordRunOfWord(w, y);
    assert s[2..2 + |w|] == w;
  }

  /** `re.findall(r"\$\{(\w+)\}", s)`: the names of the placeholders found scanning left to right. */
  function FindPlaceholders(s: string): seq<string>
    decreases |s|
  {
    match PlaceholderAt(s)
    case Some(w) => [w] + FindPlaceholders(s[|w| + 3..])
    case None => if s == [] then [] else FindPlaceholders(s[1..])
  }

  /** No placeholder is found exactly when no position of the string starts one. */
  lemma {:induction false} FindPlaceholdersEmpty(s: string)
    ensures FindPlaceholders(s) == [] <==> (forall i :: 0 <= i <= |s| ==> PlaceholderAt(s[i..]).None?)
    decreases |s|
  {
    if PlaceholderAt(s).Some? {
      assert s[0..] == s;
    } else if s != [] {
      FindPlaceholdersEmpty(s[1..]);
      assert forall i :: 1 <= i <= |s| ==> s[i..] == s[1..][i - 1..];
      assert s[0..] == s;
    }
  }

  /** The text `f"{original_data.get(name)}"` puts in place of a placeholder. */
  function Lookup(orig: seq<(string, Value)>, name: string): string
  {
    PyStr(DictGetOr(orig, name, Null))
  }

  /** The body of the `for` loop, run once per found name, in order. */
  function ReplaceEach(s: string, names: seq<string>, orig: seq<(string, Value)>): string
    decreases |names|
  {
    if names == [] then s
    else ReplaceEach(Replace(s, Token(names[0]), Lookup(orig, names[0])), names[1..], orig)
  }

  /** `_resolve_placeholders` on a string. */
  function ResolveString(s: string, orig: seq<(string, Value)>): string
  {
    ReplaceEach(s, FindPlaceholders(s), orig)
  }

  /** The string case of `_resolve_placeholders`, as the loop it is. */
  method ResolveStringLoop(data: string, orig: seq<(string, Value)>) returns (r: string)
    ensures r == ResolveString(data, orig)
  {
    var matches := FindPlaceholders(data);
    r := data;
    for i := 0 to |matches|
      invariant ReplaceEach(r, matches[i..], orig) == ReplaceEach(data, matches, orig)
    {
      assert matches[i..][1..] == matches[i + 1..];
      r := Replace(r, Token(matches[i]), Lookup(orig, matches[i]));
    }
  }

  /** `_resolve_placeholders(data, original_data)`. */
  function ResolvePlaceholders(v: Value, orig: seq<(string, Value)>): Value
    decreases v
  {
    match v
    case Dict(es) => Dict(seq(|es|, k requires 0 <= k < |es| => (es[k].0, ResolvePlaceholders(es[k].1, orig))))
    case List(items) => List(seq(|items|, k requires 0 <= k < |items| => ResolvePlaceholders(items[k], orig)))
    case Str(s) => Str(ResolveString(s, orig))
    case _ => v
  }

  /** Resolving keeps every dict key, list length and order, and leaves non-strings unchanged. */
  lemma {:induction false} ResolveKeepsShape(v: Value, orig: seq<(string, Value)>)
    ensures Skeleton(ResolvePlaceholders(v, orig)) == Skeleton(v)
    decreases v
  {
    match v
    case Dict(es) =>
      forall k | 0 <= k < |es| { ResolveKeepsShape(es[k].1, orig); }
    case List(items) =>
      forall k | 0 <= k < |items| { ResolveKeepsShape(items[k], orig); }
    case _ =>
  }

  /** No position starts a `${word}` placeholder. */
  predicate NoPlaceholder(s: string)
  {
    forall i :: 0 <= i <= |s| ==> PlaceholderAt(s[i..]).None?
  }

  /** A tree whose strings hold no placeholder comes back unchanged. */
  lemma {:induction false} ResolveWithoutPlaceholders(v: Value, orig: seq<(string, Value)>)
    requires AllStrings(v, NoPlaceholder)
    ensures ResolvePlaceholders(v, orig) == v
    decreases v
  {
    match v
    case Dict(es) =>
      forall k | 0 <= k < |es| { ResolveWithoutPlaceholders(es[k].1, orig); }
      assert ResolvePlaceholders(v, orig).entries == es;
    case List(items) =>
      forall k | 0 <= k < |items| { ResolveWithoutPlaceholders(items[k], orig); }
      assert ResolvePlaceholders(v, orig).items == items;
    case Str(s) => FindPlaceholdersEmpty(s);
    case _ =>
  }

  // ---------------------------------------------------------------------
  // The loop against a single left-to-right substitution
  // ---------------------------------------------------------------------

  /**
    The reference reading of "replace each `${name}` by the text of
    `original_data[name]`": one scan, each placeholder replaced where it
    stands, replacement text never scanned again.
  */
  function SubstituteOnce(s: string, orig: seq<(string, Value)>): string
    decreases |s|
  {
    match PlaceholderAt(s)
    case Some(w) => Lookup(orig, w) + SubstituteOnce(s[|w| + 3..], orig)
    case None => if s == [] then [] else [s[0]] + SubstituteOnce(s[1..], orig)
  }

  /** The scan of `SubstituteOnce`, replacing only the placeholders named in `done`. */
  function PartialSubst(s: string, done: set<string>, orig: seq<(string, Value)>): string
    decreases |s|
  {
    match PlaceholderAt(s)
    case Some(w) =>
      (if w in done then Lookup(orig, w) else Token(w)) + PartialSubst(s[|w| + 3..], done, orig)
    case None => if s == [] then [] else [s[0]] + PartialSubst(s[1..], done, orig)
  }

  /** Every `$` in `s` begins a placeholder. */
  predicate DollarsArePlaceholders(s: string)
  {
    forall i :: 0 <= i < |s| && s[i] == '$' ==> PlaceholderAt(s[i..]).Some?
  }

  /** No name found in `s` is replaced by a text containing `$`. */
  predicate SafeValues(s: string, orig: seq<(string, Value)>)
  {
    forall w :: w in FindPlaceholders(s) ==> '$' !in Lookup(orig, w)
  }

  lemma DollarsSuffix(s: string, n: nat)
    requires n <= |s| && DollarsArePlaceholders(s)
    ensures DollarsArePlaceholders(s[n..])
  {
    forall i | 0 <= i < |s[n..]| && s[n..][i] == '$' ensures PlaceholderAt(s[n..][i..]).Some? {
      assert s[n..][i..] == s[n + i..];
    }
  }

  lemma {:induction false} PartialSubstNone(s: string, orig: seq<(string, Value)>)
    ensures PartialSubst(s, {}, orig) == s
    decreases |s|
  {
    match PlaceholderAt(s)
    case Some(w) =>
      PlaceholderAtShape(s);
      PartialSubstNone(s[|w| + 3..], orig);
      assert s == s[..|Token(w)|] + s[|w| + 3..];
    case None =>
      if s != [] {
        PartialSubstNone(s[1..], orig);
        assert s == [s[0]] + s[1..];
      }
  }

  /** A token for one name does not start with the token for another. */
  lemma TokenNotPrefix(w: string, a: string, y: string)
    requires IsWord(w) && IsWord(a) && w != a
    requires |Token(w) + y| >= |Token(a)|
    ensures (Token(w) + y)[..|Token(a)|] != Token(a)
  {
    var s := Token(w) + y;
    var ta := Token(a);
    if s[..|ta|] == ta {
      assert s == ta + s[|ta|..];
      PlaceholderOfToken(a, s[|ta|..]);
      PlaceholderOfToken(w, y);
      assert false;
    }
  }

  /** A token is `$` followed by text without `$`. */
  lemma TokenSplit(w: string)
    requires IsWord(w)
    ensures Token(w) == ['$'] + ("{" + w + "}")
    ensures '$' !in "{" + w + "}"
  {
    assert forall i :: 0 <= i < |w| ==> IsWordChar(w[i]);
  }

  /** A head that the pattern does not start, made of `c` and then text without `c`, is copied unchanged. */
  lemma ReplaceSkipsHead(c: char, z: string, y: string, pat: string, repl: string)
    requires |pat| > 0 && pat[0] == c && c !in z
    requires |[c] + z + y| >= |pat| ==> ([c] + z + y)[..|pat|] != pat
    ensures Replace([c] + z + y, pat, repl) == [c] + z + Replace(y, pat, repl)
  {
    var s := [c] + (z + y);
    assert s == [c] + z + y;
    ReplaceSkipsPrefix(z, y, pat, repl);
    assert s[0] == c && s[1..] == z + y;
    if |s| < |pat| {
      assert Replace(s, pat, repl) == s;
      assert Replace(y, pat, repl) == y;
    } else {
      assert Replace(s, pat, repl) == [c] + Replace(z + y, pat, repl);
      assert [c] + (z + Replace(y, pat, repl)) == [c] + z + Replace(y, pat, repl);
    }
  }

  /** Replacing a token in a token that names something else changes nothing of it. */
  lemma ReplaceOtherToken(w: string, a: string, y: string, t: string)
    requires IsWord(w) && IsWord(a) && w != a
    ensures Replace(Token(w) + y, Token(a), t) == Token(w) + Replace(y, Token(a), t)
  {
    TokenSplit(w);
    if |Token(w) + y| >= |Token(a)| {
      TokenNotPrefix(w, a, y);
    }
    ReplaceSkipsHead('$', "{" + w + "}", y, Token(a), t);
  }

  lemma ReplaceSameToken(a: string, y: string, t: string)
    ensures Replace(Token(a) + y, Token(a), t) == t + Replace(y, Token(a), t)
  {
    var s := Token(a) + y;
    assert s[..|Token(a)|] == Token(a);
    assert s[|Token(a)|..] == y;
  }

  /** The pass at a placeholder, given the pass over what follows it. */
  lemma ExtendAtPlaceholder(s: string, done: set<string>, a: string, orig: seq<(string, Value)>, w: string)
    requires IsWord(a) && PlaceholderAt(s) == Some(w) && SafeValues(s, orig)
    requires |w| + 3 <= |s|
    requires var rest := s[|w| + 3..];
      Replace(PartialSubst(rest, done, orig), Token(a), Lookup(orig, a)) == PartialSubst(rest, done + {a}, orig)
    ensures Replace(PartialSubst(s, done, orig), Token(a), Lookup(orig, a)) == PartialSubst(s, done + {a}, orig)
  {
    var t := Lookup(orig, a);
    PlaceholderAtShape(s);
    var rest := s[|w| + 3..];
    var y := PartialSubst(rest, done, orig);
    if w in done {
      assert FindPlaceholders(s) == [w] + FindPlaceholders(rest);
      assert '$' !in Lookup(orig, w);
      ReplaceSkipsPrefix(Lookup(orig, w), y, Token(a), t);
    } else if w == a {
      ReplaceSameToken(a, y, t);
    } else {
      ReplaceOtherToken(w, a, y, t);
    }
  }

  /** One pass of the loop turns the placeholders of one more name into their text. */
  lemma {:induction false} ReplaceExtendsPartial(s: string, done: set<string>, a: string, orig: seq<(string, Value)>)
    requires IsWord(a) && DollarsArePlaceholders(s) && SafeValues(s, orig)
    ensures Replace(PartialSubst(s, done, orig), Token(a), Lookup(orig, a)) == PartialSubst(s, done + {a}, orig)
    decreases |s|
  {
    match PlaceholderAt(s)
    case Some(w) =>
      SuffixAfterPlaceholder(s, w, orig);
      ReplaceExtendsPartial(s[|w| + 3..], done, a, orig);
      ExtendAtPlaceholder(s, done, a, orig, w);
    case None =>
      if s != [] {
        SuffixAfterChar(s, orig);
        ReplaceExtendsPartial(s[1..], done, a, orig);
        ExtendPastChar(s, done, a, orig);
      }
  }

  /** What follows a placeholder keeps the two conditions. */
  lemma SuffixAfterPlaceholder(s: string, w: string, orig: seq<(string, Value)>)
    requires PlaceholderAt(s) == Some(w) && DollarsArePlaceholders(s) && SafeValues(s, orig)
    ensures |w| + 3 <= |s| && DollarsArePlaceholders(s[|w| + 3..]) && SafeValues(s[|w| + 3..], orig)
  {
    PlaceholderAtShape(s);
    DollarsSuffix(s, |w| + 3);
    assert FindPlaceholders(s) == [w] + FindPlaceholders(s[|w| + 3..]);
  }

  /** What follows a character that starts no placeholder keeps the two conditions. */
  lemma SuffixAfterChar(s: string, orig: seq<(string, Value)>)
    requires s != [] && PlaceholderAt(s).None? && DollarsArePlaceholders(s) && SafeValues(s, orig)
    ensures s[0] != '$' && DollarsArePlaceholders(s[1..]) && SafeValues(s[1..], orig)
  {
    assert s[0] != '$' by {
      assert s[0..] == s;
    }
    DollarsSuffix(s, 1);
    assert FindPlaceholders(s) == FindPlaceholders(s[1..]);
  }

  /** A character that starts no placeholder is copied by both sides. */
  lemma ExtendPastChar(s: string, done: set<string>, a: string, orig: seq<(string, Value)>)
    requires s != [] && s[0] != '$' && PlaceholderAt(s).None? && IsWord(a)
    requires Replace(PartialSubst(s[1..], done, orig), Token(a), Lookup(orig, a)) == PartialSubst(s[1..], done + {a}, orig)
    ensures Replace(PartialSubst(s, done, orig), Token(a), Lookup(orig, a)) == PartialSubst(s, done + {a}, orig)
  {
    ReplaceSkipsPrefix([s[0]], PartialSubst(s[1..], done, orig), Token(a), Lookup(orig, a));
  }

  lemma {:induction false} FoundNamesAreWords(s: string)
    ensures forall w :: w in FindPlaceholders(s) ==> IsWord(w)
    decreases |s|
  {
    match PlaceholderAt(s)
    case Some(w) =>
      PlaceholderAtShape(s);
      FoundNamesAreWords(s[|w| + 3..]);
    case None =>
      if s != [] { FoundNamesAreWords(s[1..]); }
  }

  lemma {:induction false} ReplaceEachIsPartial(s: string, done: set<string>, names: seq<string>, orig: seq<(string, Value)>)
    requires DollarsArePlaceholders(s) && SafeValues(s, orig)
    requires forall w :: w in names ==> IsWord(w)
    ensures ReplaceEach(PartialSubst(s, done, orig), names, orig) == PartialSubst(s, done + (set w | w in names), orig)
    decreases |names|
  {
    if names == [] {
      assert done + (set w | w in names) == done;
    } else {
      ReplaceExtendsPartial(s, done, names[0], orig);
      ReplaceEachIsPartial(s, done + {names[0]}, names[1..], orig);
      assert done + {names[0]} + (set w | w in names[1..]) == done + (set w | w in names);
    }
  }

  lemma {:induction false} PartialCoversAll(s: string, done: set<string>, orig: seq<(string, Value)>)
    requires forall w :: w in FindPlaceholders(s) ==> w in done
    ensures PartialSubst(s, done, orig) == SubstituteOnce(s, orig)
    decreases |s|
  {
    match PlaceholderAt(s)
    case Some(w) => PartialCoversAll(s[|w| + 3..], done, orig);
    case None => if s != [] { PartialCoversAll(s[1..], done, orig); }
  }

  /**
    When every `$` of the string begins a placeholder and no substituted
    text contains `$`, the loop's repeated whole-string replacements
    give exactly the single left-to-right substitution.
  */
  lemma ResolveStringIsSubstitution(s: string, orig: seq<(string, Value)>)
    requires DollarsArePlaceholders(s) && SafeValues(s, orig)
    ensures ResolveString(s, orig) == SubstituteOnce(s, orig)
  {
    var names := FindPlaceholders(s);
    FoundNamesAreWords(s);
    PartialSubstNone(s, orig);
    ReplaceEachIsPartial(s, {}, names, orig);
    PartialCoversAll(s, {} + (set w | w in names), orig);
  }

  /**
    A placeholder whose key `original_data` lacks becomes the text `None`:
    the loop turns a bare `${name}` into `"None"`, and the single
    substitution (which the loop equals under `ResolveStringIsSubstitution`'s
    conditions) puts `None` in its place wherever it stands.
  */
  lemma ResolveMissingKey(name: string, y: string, orig: seq<(string, Value)>)
    requires IsWord(name) && name !in Keys(orig)
    ensures ResolveString(Token(name), orig) == "None"
    ensures SubstituteOnce(Token(name) + y, orig) == "None" + SubstituteOnce(y, orig)
  {
    DictGetMissing(orig, name);
    assert Lookup(orig, name) == "None";
    PlaceholderOfToken(name, y);
    assert (Token(name) + y)[|name| + 3..] == y;
    PlaceholderOfToken(name, "");
    assert Token(name) + "" == Token(name);
    assert Token(name)[|name| + 3..] == [];
    assert FindPlaceholders(Token(name)) == [name];
    var t := Token(name);
    assert t[..|t|] == t;
    assert |t| > 0 && |t| >= |t|;
    assert t[|t|..] == [];
    assert Replace([], t, "None") == [];
    assert Replace(t, t, "None") == "None" + Replace(t[|t|..], t, "None");
    assert [name][1..] == [];
    assert ReplaceEach(t, [name], orig) == ReplaceEach(Replace(t, t, Lookup(orig, name)), [], orig);
  }
}
