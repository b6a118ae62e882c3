/**
 * The JavaScript string operations the components rely on, on `string` = `seq<char>`
 * (a `char` is a Unicode scalar value; a JavaScript string is a sequence of UTF-16
 * code units, and the two agree outside surrogate pairs): `trim`, ASCII case mapping, `includes`,
 * `indexOf`/`replace` of a literal, and `split`/`join` on one separator character.
 */
module Strings {

  /** The characters ECMAScript's `trim` removes: WhiteSpace and LineTerminator. */
  predicate IsSpace(c: char)
  {
    c == '\t' || c == '\n' || c == '\U{B}' || c == '\U{C}' || c == '\r' || c == ' ' ||
    c == '\U{A0}' || c == '\U{1680}' || ('\U{2000}' <= c <= '\U{200A}') ||
    c == '\U{2028}' || c == '\U{2029}' || c == '\U{202F}' || c == '\U{205F}' ||
    c == '\U{3000}' || c == '\U{FEFF}'
  }

  predicate AllSpace(s: string)
  {
    forall k :: 0 <= k < |s| ==> IsSpace(s[k])
  }

  /** `s.trimStart()`. */
  function TrimStart(s: string): (r: string)
    ensures |r| <= |s|
  {
    if |s| > 0 && IsSpace(s[0]) then TrimStart(s[1..]) else s
  }

  /** `trimStart` drops the leading white space and nothing else. */
  lemma {:induction false} TrimStartSpec(s: string)
    ensures var r := TrimStart(s);
      && r == s[|s| - |r|..]
      && (forall k :: 0 <= k < |s| - |r| ==> IsSpace(s[k]))
      && (r == [] || !IsSpace(r[0]))
  {
    if |s| > 0 && IsSpace(s[0]) {
      TrimStartSpec(s[1..]);
    }
  }

  /** `s.trimEnd()`. */
  function TrimEnd(s: string): (r: string)
    ensures |r| <= |s|
  {
    if |s| > 0 && IsSpace(s[|s| - 1]) then TrimEnd(s[..|s| - 1]) else s
  }

  /** `trimEnd` drops the trailing white space and nothing else. */
  lemma {:induction false} TrimEndSpec(s: string)
    ensures var r := TrimEnd(s);
      && r == s[..|r|]
      && (forall k :: |r| <= k < |s| ==> IsSpace(s[k]))
      && (r == [] || !IsSpace(r[|r| - 1]))
  {
    if |s| > 0 && IsSpace(s[|s| - 1]) {
      TrimEndSpec(s[..|s| - 1]);
    }
  }

  /** `s.trim()`. */
  function Trim(s: string): string
  {
    TrimEnd(TrimStart(s))
  }

  /** A string is blank (falsy once trimmed) exactly when every character is white space. */
  lemma BlankIffAllSpace(s: string)
    ensures Trim(s) == [] <==> AllSpace(s)
  {
    var t := TrimStart(s);
    TrimStartSpec(s);
    TrimEndSpec(t);
    if t != [] {
      assert !IsSpace(s[|s| - |t|]);
      assert TrimEnd(t)[0] == t[0];
    }
  }

  /** ASCII upper-casing of one character (`toUpperCase` restricted to ASCII letters). */
  function UpperChar(c: char): char
  {
    if 'a' <= c <= 'z' then (c as int - 32) as char else c
  }

  /** ASCII lower-casing of one character (`toLowerCase` restricted to ASCII letters). */
  function LowerChar(c: char): char
  {
    if 'A' <= c <= 'Z' then (c as int + 32) as char else c
  }

  function ToUpper(s: string): (r: string)
    ensures |r| == |s|
  {
    seq(|s|, k requires 0 <= k < |s| => UpperChar(s[k]))
  }

  function ToLower(s: string): (r: string)
    ensures |r| == |s|
  {
    seq(|s|, k requires 0 <= k < |s| => LowerChar(s[k]))
  }

  predicate IsDigit(c: char)
  {
    '0' <= c <= '9'
  }

  /** The regular expression `^\d+$`: one or more ASCII digits and nothing else. */
  predicate IsDigits(s: string)
  {
    |s| > 0 && forall k :: 0 <= k < |s| ==> IsDigit(s[k])
  }

  /** `q` occurs in `s` starting at index `i`. */
  predicate OccursAt(s: string, q: string, i: int)
  {
    0 <= i && i + |q| <= |s| && s[i..i + |q|] == q
  }

  /** `s.includes(q)`. */
  predicate Includes(s: string, q: string)
  {
    exists i | 0 <= i <= |s| :: OccursAt(s, q, i)
  }

  /** `s.indexOf(q, from)`: the first occurrence at or after `from`, or -1. */
  function IndexOfFrom(s: string, q: string, from: nat): (r: int)
    ensures r == -1 ==> forall i :: from <= i ==> !OccursAt(s, q, i)
    ensures r != -1 ==> from <= r && OccursAt(s, q, r) && forall i :: from <= i < r ==> !OccursAt(s, q, i)
    decreases |s| - from
  {
    if from + |q| > |s| then -1
    else if s[from..from + |q|] == q then from
    else IndexOfFrom(s, q, from + 1)
  }

  function IndexOf(s: string, q: string): int
  {
    IndexOfFrom(s, q, 0)
  }

  /** `s.replace(q, t)` with a literal pattern: only the first occurrence is replaced. */
  function ReplaceFirst(s: string, q: string, t: string): (r: string)
    ensures !Includes(s, q) ==> r == s
    ensures Includes(s, q) ==> exists i :: OccursAt(s, q, i) && r == s[..i] + t + s[i + |q|..]
  {
    var i := IndexOf(s, q);
    if i < 0 then s else s[..i] + t + s[i + |q|..]
  }

  /** `indexOf` finds an occurrence exactly when there is one, and `replace` rewrites the leftmost. */
  lemma ReplaceFirstLeftmost(s: string, q: string, t: string)
    ensures Includes(s, q) <==> IndexOf(s, q) >= 0
    ensures var i := IndexOf(s, q);
      i >= 0 ==> && OccursAt(s, q, i) && (forall j :: 0 <= j < i ==> !OccursAt(s, q, j))
                 && ReplaceFirst(s, q, t) == s[..i] + t + s[i + |q|..]
  {
    if Includes(s, q) {
      var w :| 0 <= w <= |s| && OccursAt(s, q, w);
      assert IndexOf(s, q) != -1;
    }
  }

  /** `s.split(sep)` for a one-character separator. */
  function Split(s: string, sep: char): (r: seq<string>)
    ensures |r| >= 1
    ensures forall k :: 0 <= k < |r| ==> sep !in r[k]
  {
    if s == [] then [""]
    else
      var rest := Split(s[1..], sep);
      if s[0] == sep then [""] + rest else [[s[0]] + rest[0]] + rest[1..]
  }

  /** `ws.join(sep)`. */
  function Join(ws: seq<string>, sep: char): string
  {
    if ws == [] then "" else if |ws| == 1 then ws[0] else ws[0] + [sep] + Join(ws[1..], sep)
  }

  lemma JoinCons(w: string, ws: seq<string>, sep: char)
    requires ws != []
    ensures Join([w] + ws, sep) == w + [sep] + Join(ws, sep)
  {
    assert ([w] + ws)[1..] == ws;
  }

  /** Splitting and joining again on the same separator gives back the string. */
  lemma {:induction false} JoinSplit(s: string, sep: char)
    ensures Join(Split(s, sep), sep) == s
  {
    if s != [] {
      JoinSplit(s[1..], sep);
      JoinSplitStep(s[0], s[1..], Split(s[1..], sep), sep);
      assert s == [s[0]] + s[1..];
    }
  }

  /** One step of `JoinSplit`: putting a character in front of a string whose split joins back. */
  lemma JoinSplitStep(c: char, t: string, rest: seq<string>, sep: char)
    requires rest == Split(t, sep) && Join(rest, sep) == t
    ensures Join(Split([c] + t, sep), sep) == [c] + t
  {
    var s := [c] + t;
    assert s[1..] == t;
    if c == sep {
      assert Split(s, sep) == [""] + rest;
      JoinCons("", rest, sep);
    } else if |rest| == 1 {
      assert Split(s, sep) == [[c] + rest[0]];
    } else {
      var w := [c] + rest[0];
      assert Split(s, sep) == [w] + rest[1..];
      JoinCons(w, rest[1..], sep);
      assert [rest[0]] + rest[1..] == rest;
      JoinCons(rest[0], rest[1..], sep);
    }
  }

  /** The first word of `w + [sep] + x` is `w` when `w` holds no separator. */
  lemma {:induction false} SplitHead(w: string, x: string, sep: char)
    requires sep !in w
    ensures Split(w + [sep] + x, sep)[0] == w
  {
    if w == [] {
      assert [sep] + x == w + [sep] + x;
    } else {
      assert (w + [sep] + x)[1..] == w[1..] + [sep] + x;
      SplitHead(w[1..], x, sep);
      assert w == [w[0]] + w[1..];
    }
  }

  /** A string without the separator is a single word. */
  lemma {:induction false} SplitNoSep(w: string, sep: char)
    requires sep !in w
    ensures Split(w, sep) == [w]
  {
    if w != [] {
      SplitNoSep(w[1..], sep);
      assert w == [w[0]] + w[1..];
    }
  }
}
