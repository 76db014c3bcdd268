/**
  JSON-like Python values: what a YAML/JSON/.env loader produces, what the
  case record holds, and what the model's chat replies look like.
*/
module Values {
  import opened Wrappers
  import opened PyText

  /**
    A Python value. `Dict` keeps the insertion order of a Python dict and
    its keys are distinct strings. `Float` carries the text `str()` gives for
    it (floating point itself is not modelled). `Message` is a chat reply object
    (LangChain's AIMessage), seen through what the core observes of it: its
    `.content`, its `str()` text and what `.dict()` returns.
  */
  datatype Value =
    | Null
    | Bool(b: bool)
    | Int(i: int)
    | Float(text: string)
    | Str(s: string)
    | List(items: seq<Value>)
    | Dict(entries: seq<(string, Value)>)
    | Message(content: string, rendered: string, dump: seq<(string, Value)>)

  /** `repr(v)`; strings are put between single quotes without escaping. */
  function Repr(v: Value): string
    decreases v
  {
    match v
    case Null => "None"
    case Bool(b) => if b then "True" else "False"
    case Int(i) => IntToString(i)
    case Float(t) => t
    case Str(s) => "'" + s + "'"
    case List(items) =>
      "[" + Join(seq(|items|, k requires 0 <= k < |items| => Repr(items[k])), ", ") + "]"
    case Dict(es) =>
      "{" + Join(seq(|es|, k requires 0 <= k < |es| => "'" + es[k].0 + "': " + Repr(es[k].1)), ", ") + "}"
    case Message(_, r, _) => r
  }

  /** `str(v)`, which is also what `"{x}".format(v)` and `f"{v}"` insert. */
  function PyStr(v: Value): string
  {
    if v.Str? then v.s else Repr(v)
  }

  /** `bool(v)`. */
  predicate Truthy(v: Value)
  {
    match v
    case Null => false
    case Bool(b) => b
    case Int(i) => i != 0
    case Float(t) => t != "0.0" && t != "-0.0"
    case Str(s) => s != []
    case List(items) => items != []
    case Dict(es) => es != []
    case Message(_, _, _) => true
  }

  /** `d.get(key)` on the entries of a dict: the value, or `None` when the key is absent. */
  function DictGet(es: seq<(string, Value)>, key: string): Option<Value>
    decreases |es|
  {
    if es == [] then None
    else if es[0].0 == key then Some(es[0].1)
    else DictGet(es[1..], key)
  }

  /** `d.get(key)` finds nothing exactly when no entry has that key. */
  lemma {:induction false} DictGetMissing(es: seq<(string, Value)>, key: string)
    ensures DictGet(es, key).None? <==> key !in Keys(es)
    decreases |es|
  {
    if es != [] {
      DictGetMissing(es[1..], key);
      assert Keys(es) == [es[0].0] + Keys(es[1..]);
    }
  }

  /** `d.get(key, default)`. */
  function DictGetOr(es: seq<(string, Value)>, key: string, default: Value): Value
  {
    match DictGet(es, key)
    case Some(v) => v
    case None => default
  }

  /** The keys of a dict, in order. */
  function Keys(es: seq<(string, Value)>): seq<string>
  {
    seq(|es|, k requires 0 <= k < |es| => es[k].0)
  }

  /** Iterating over a string: its characters, each a one-character string. */
  function Chars(s: string): (cs: seq<string>)
    ensures |cs| == |s| && forall k :: 0 <= k < |s| ==> cs[k] == [s[k]]
  {
    seq(|s|, k requires 0 <= k < |s| => [s[k]])
  }

  /**
    `sep.join(v)`: `v` must be iterable and yield strings. A list joins its
    items, a string its characters, a dict its keys; anything else, or a
    list with a non-string item, raises TypeError.
  */
  function JoinValue(v: Value, sep: string): (r: Result<string>)
    ensures v.Str? ==> r == Ok(Join(Chars(v.s), sep))
    ensures v.Dict? ==> r == Ok(Join(Keys(v.entries), sep))
    ensures v == List([]) ==> r == Ok("")
  {
    match v
    case Str(s) => Ok(Join(Chars(s), sep))
    case Dict(es) => Ok(Join(Keys(es), sep))
    case List(items) =>
      if forall k :: 0 <= k < |items| ==> items[k].Str? then
        Ok(Join(seq(|items|, k requires 0 <= k < |items| => items[k].s), sep))
      else Err("TypeError: sequence item: expected str instance")
    case _ => Err("TypeError: can only join an iterable")
  }

  /** The strings of a list of `Str` values. */
  function Texts(items: seq<Value>): seq<string>
    requires forall k :: 0 <= k < |items| ==> items[k].Str?
  {
    seq(|items|, k requires 0 <= k < |items| => items[k].s)
  }

  /** Joining a list of strings succeeds and joins exactly those strings. */
  lemma JoinStringList(items: seq<Value>, sep: string)
    requires forall k :: 0 <= k < |items| ==> items[k].Str?
    ensures JoinValue(List(items), sep) == Ok(Join(Texts(items), sep))
  {
  }

  /** A list holding anything but strings makes `join` raise. */
  lemma JoinRejectsNonString(items: seq<Value>, sep: string, k: nat)
    requires k < |items| && !items[k].Str?
    ensures JoinValue(List(items), sep).Err?
  {
  }

  /** Joining a string's characters with an empty separator gives the string back. */
  lemma JoinCharsEmptySep(s: string)
    ensures JoinValue(Str(s), "") == Ok(s)
  {
    CharsJoinEmpty(s);
  }

  lemma {:induction false} CharsJoinEmpty(s: string)
    ensures Join(Chars(s), "") == s
    decreases |s|
  {
    if |s| >= 2 {
      CharsJoinEmpty(s[1..]);
      assert Chars(s) == [[s[0]]] + Chars(s[1..]);
      JoinCons([s[0]], Chars(s[1..]), "");
      assert [s[0]] + "" + s[1..] == s;
    } else if |s| == 1 {
      assert [s[0]] == s;
    }
  }

  /** Joining a string's characters adds `|sep|` for every character after the first. */
  lemma JoinCharsLength(s: string, sep: string)
    ensures |JoinValue(Str(s), sep).value| == if s == [] then 0 else |s| + (|s| - 1) * |sep|
  {
    CharsJoinLength(s, sep);
  }

  lemma {:induction false} CharsJoinLength(s: string, sep: string)
    ensures |Join(Chars(s), sep)| == if s == [] then 0 else |s| + (|s| - 1) * |sep|
    decreases |s|
  {
    if |s| >= 2 {
      CharsJoinLength(s[1..], sep);
      assert Chars(s) == [[s[0]]] + Chars(s[1..]);
      JoinCons([s[0]], Chars(s[1..]), sep);
      assert (|s| - 1) * |sep| == |sep| + (|s| - 2) * |sep|;
    }
  }
}
