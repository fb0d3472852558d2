/** Python values and the few `str`/`dict` operations the extension relies on.

    Config and attribute dictionaries hold arbitrary Python objects; the
    extension only ever stores strings, booleans and `None` in them, so a
    `Value` is one of those three. */
module Py {

  datatype Value = Str(s: string) | Bool(b: bool) | Null

  datatype Option<T> = None | Some(value: T)

  /** The outcome of an expression that may raise `TypeError` while
      concatenating the value stored under `key` to a `str`. */
  datatype Result<T> = Ok(value: T) | TypeError(key: string)

  /** Python's `str(v)`. */
  function ToStr(v: Value): string
  {
    match v
    case Str(s) => s
    case Bool(b) => if b then "True" else "False"
    case Null => "None"
  }

  /** Python truthiness (`if v:`). */
  predicate Truthy(v: Value)
  {
    match v
    case Str(s) => s != ""
    case Bool(b) => b
    case Null => false
  }

  /** `d.get(k, default)`. */
  function Get(d: map<string, Value>, k: string, default: Value): Value
  {
    if k in d then d[k] else default
  }

  /** The dictionary `d` after `d[k] = d.get(k, v)` for every pair `(k, v)` of
      `defaults`: keys already present keep their value, missing keys take the
      default, and no other key is touched. */
  function WithDefaults(d: map<string, Value>, defaults: map<string, Value>): (r: map<string, Value>)
    ensures r.Keys == d.Keys + defaults.Keys
    ensures forall k :: k in d ==> r[k] == d[k]
    ensures forall k :: k in defaults && k !in d ==> r[k] == defaults[k]
  {
    defaults + d
  }

  /** Filling in defaults a second time changes nothing. */
  lemma WithDefaultsIdempotent(d: map<string, Value>, defaults: map<string, Value>)
    ensures WithDefaults(WithDefaults(d, defaults), defaults) == WithDefaults(d, defaults)
  {
    var once := WithDefaults(d, defaults);
    var twice := WithDefaults(once, defaults);
    assert twice.Keys == once.Keys;
    assert forall k :: k in once ==> twice[k] == once[k];
  }

  /** Python's `sep.join(parts)` for a one-character separator. */
  function Join(parts: seq<string>, sep: char): string
  {
    if |parts| == 0 then ""
    else if |parts| == 1 then parts[0]
    else parts[0] + [sep] + Join(parts[1..], sep)
  }

  /** The pieces of `s` split at every `sep`, when the piece being read
      so far is `cur`. */
  function SplitFrom(s: string, sep: char, cur: string): (parts: seq<string>)
    ensures |parts| >= 1
    decreases |s|
  {
    if |s| == 0 then [cur]
    else if s[0] == sep then [cur] + SplitFrom(s[1..], sep, "")
    else SplitFrom(s[1..], sep, cur + [s[0]])
  }

  /** Python's `s.split(sep)` for a one-character separator. */
  function Split(s: string, sep: char): (parts: seq<string>)
    ensures |parts| >= 1
  {
    SplitFrom(s, sep, "")
  }

  /** The pieces never contain the separator, and joining them gives the
      string back: `sep.join(s.split(sep)) == s`. */
  lemma JoinSplit(s: string, sep: char)
    ensures forall k :: 0 <= k < |Split(s, sep)| ==> sep !in Split(s, sep)[k]
    ensures Join(Split(s, sep), sep) == s
  {
    SplitFromPieces(s, sep, "");
    SplitFromJoin(s, sep, "");
  }

  lemma {:induction false} SplitFromPieces(s: string, sep: char, cur: string)
    requires sep !in cur
    ensures forall k :: 0 <= k < |SplitFrom(s, sep, cur)| ==> sep !in SplitFrom(s, sep, cur)[k]
    decreases |s|
  {
    if |s| == 0 {
    } else if s[0] == sep {
      SplitFromPieces(s[1..], sep, "");
    } else {
      SplitFromPieces(s[1..], sep, cur + [s[0]]);
    }
  }

  /** A join of pieces starts with the first piece. */
  lemma JoinCons(p: string, rest: seq<string>, sep: char)
    requires |rest| >= 1
    ensures Join([p] + rest, sep) == p + [sep] + Join(rest, sep)
  {
    assert ([p] + rest)[1..] == rest;
  }

  lemma {:induction false} SplitFromJoin(s: string, sep: char, cur: string)
    ensures Join(SplitFrom(s, sep, cur), sep) == cur + s
    decreases |s|
  {
    if |s| == 0 {
    } else if s[0] == sep {
      SplitFromJoin(s[1..], sep, "");
      JoinCons(cur, SplitFrom(s[1..], sep, ""), sep);
      assert s == [sep] + s[1..];
    } else {
      SplitFromJoin(s[1..], sep, cur + [s[0]]);
      assert s == [s[0]] + s[1..];
    }
  }

  /** Reading `a + [sep] + b` gives the pieces of `a`, then those of `b`. */
  lemma {:induction false} SplitFromAppend(a: string, b: string, sep: char, cur: string)
    ensures SplitFrom(a + [sep] + b, sep, cur) == SplitFrom(a, sep, cur) + SplitFrom(b, sep, "")
    decreases |a|
  {
    if |a| == 0 {
      assert (a + [sep] + b)[1..] == b;
    } else {
      assert (a + [sep] + b)[1..] == a[1..] + [sep] + b;
      if a[0] == sep {
        SplitFromAppend(a[1..], b, sep, "");
      } else {
        SplitFromAppend(a[1..], b, sep, cur + [a[0]]);
      }
    }
  }

  /** A string without `sep` is read as one piece. */
  lemma {:induction false} SplitFromWord(a: string, sep: char, cur: string)
    requires sep !in a
    ensures SplitFrom(a, sep, cur) == [cur + a]
    decreases |a|
  {
    if |a| > 0 {
      assert a[0] in a;
      SplitFromWord(a[1..], sep, cur + [a[0]]);
      assert cur + [a[0]] + a[1..] == cur + a;
    } else {
      assert cur + a == cur;
    }
  }

  /** The pieces of `a + [sep] + b` are the pieces of `a` followed by those of `b`. */
  lemma SplitAppend(a: string, b: string, sep: char)
    ensures Split(a + [sep] + b, sep) == Split(a, sep) + Split(b, sep)
  {
    SplitFromAppend(a, b, sep, "");
  }

  /** A string without `sep` is one piece. */
  lemma SplitWord(a: string, sep: char)
    requires sep !in a
    ensures Split(a, sep) == [a]
  {
    SplitFromWord(a, sep, "");
    assert "" + a == a;
  }

  /** Splitting undoes joining: `Split` and `Join` are inverse on
      separator-free pieces. */
  lemma {:induction false} SplitJoin(parts: seq<string>, sep: char)
    requires |parts| >= 1
    requires forall k :: 0 <= k < |parts| ==> sep !in parts[k]
    ensures Split(Join(parts, sep), sep) == parts
    decreases |parts|
  {
    if |parts| == 1 {
      SplitWord(parts[0], sep);
    } else {
      SplitJoin(parts[1..], sep);
      SplitAppend(parts[0], Join(parts[1..], sep), sep);
      SplitWord(parts[0], sep);
      assert parts == [parts[0]] + parts[1..];
    }
  }

  /** Python's `s.rsplit(sep, 1)[-1]`: the text after the last `sep`, or all
      of `s` when it has none. */
  function LastPiece(s: string, sep: char): (r: string)
    ensures sep !in r && |r| <= |s| && r == s[|s| - |r|..]
    ensures sep in s <==> |r| < |s|
    ensures |r| < |s| ==> s[|s| - |r| - 1] == sep
    decreases |s|
  {
    if |s| == 0 || s[|s| - 1] == sep then ""
    else
      var r := LastPiece(s[..|s| - 1], sep) + [s[|s| - 1]];
      assert s[..|s| - 1][|s| - |r|..] + [s[|s| - 1]] == s[|s| - |r|..];
      assert sep in s ==> sep in s[..|s| - 1];
      r
  }

  /** `LastPiece` is the final piece of `Split`, as Python's `rsplit(sep, 1)[-1]`
      and `split(sep)[-1]` agree. */
  lemma LastPieceIsLastOfSplit(s: string, sep: char)
    ensures LastPiece(s, sep) == Split(s, sep)[|Split(s, sep)| - 1]
  {
    var r := LastPiece(s, sep);
    if |r| < |s| {
      var a := s[..|s| - |r| - 1];
      assert s == a + [sep] + r;
      LastOfSplitAfterSeparator(a, r, sep);
    } else {
      SplitWord(s, sep);
    }
  }

  /** The last piece of `a + [sep] + r`, for `r` without `sep`, is `r`. */
  lemma LastOfSplitAfterSeparator(a: string, r: string, sep: char)
    requires sep !in r
    ensures var parts := Split(a + [sep] + r, sep); parts[|parts| - 1] == r
  {
    SplitAppend(a, r, sep);
    SplitWord(r, sep);
  }

  /** Python's `s[:-2]`: everything but the last two characters, and the empty
      string when `s` is shorter than that. */
  function DropLastTwo(s: string): (r: string)
    ensures r <= s
    ensures |s| >= 2 ==> r + s[|s| - 2..] == s
    ensures |s| < 2 ==> r == ""
  {
    if |s| < 2 then "" else s[..|s| - 2]
  }
}
