/**
 * String helpers shared by the JavaScript and the Python parts of the model.
 * Strings are sequences of Unicode scalar values.
 */
module Text {

  predicate StartsWith(s: string, p: string)
  {
    |p| <= |s| && s[..|p|] == p
  }

  predicate EndsWith(s: string, p: string)
  {
    |p| <= |s| && s[|s| - |p|..] == p
  }

  /** `s.includes(t)` in JavaScript, `t in s` in Python. */
  predicate Contains(s: string, t: string)
    decreases |s|
  {
    StartsWith(s, t) || (s != [] && Contains(s[1..], t))
  }

  /** Position of the first `c` in `s`, or `|s|` when `s` has none. */
  function IndexOf(s: string, c: char): (i: nat)
    ensures i <= |s|
    ensures i < |s| ==> s[i] == c
    ensures forall j :: 0 <= j < i ==> s[j] != c
  {
    if s == [] then 0
    else if s[0] == c then 0
    else 1 + IndexOf(s[1..], c)
  }

  /** `s` holds `c` exactly when a first `c` is found. */
  lemma FoundIffIn(s: string, c: char)
    ensures IndexOf(s, c) < |s| <==> c in s
  {
  }

  /** `s.split(c)` for a one-character separator: the pieces between separators, at least one. */
  function Split(s: string, c: char): (r: seq<string>)
    ensures |r| >= 1
    ensures forall k :: 0 <= k < |r| ==> c !in r[k]
    ensures r[0] == s[..IndexOf(s, c)]
    decreases |s|
  {
    var i := IndexOf(s, c);
    if i == |s| then [s] else [s[..i]] + Split(s[i + 1..], c)
  }

  /** `c.join(parts)`: the inverse of `Split`. */
  function Join(parts: seq<string>, c: char): string
  {
    if |parts| == 0 then ""
    else if |parts| == 1 then parts[0]
    else parts[0] + [c] + Join(parts[1..], c)
  }

  lemma JoinCons(a: string, rest: seq<string>, c: char)
    requires rest != []
    ensures Join([a] + rest, c) == a + [c] + Join(rest, c)
  {
    assert ([a] + rest)[0] == a && ([a] + rest)[1..] == rest;
  }

  lemma SplitCons(s: string, c: char)
    requires IndexOf(s, c) < |s|
    ensures Split(s, c) == [s[..IndexOf(s, c)]] + Split(s[IndexOf(s, c) + 1..], c)
  {
  }

  lemma Rejoin(s: string, c: char, i: nat)
    requires i < |s| && s[i] == c
    ensures s[..i] + [c] + s[i + 1..] == s
  {
  }

  /** One step of `JoinSplit`: joining the first piece back onto the rest. */
  lemma JoinSplitStep(s: string, c: char, i: nat, rest: seq<string>)
    requires i == IndexOf(s, c) && i < |s| && rest == Split(s[i + 1..], c)
    requires Join(rest, c) == s[i + 1..]
    ensures Join(Split(s, c), c) == s
  {
    SplitCons(s, c);
    JoinCons(s[..i], rest, c);
    Rejoin(s, c, i);
  }

  lemma {:induction false} JoinSplit(s: string, c: char)
    ensures Join(Split(s, c), c) == s
    decreases |s|
  {
    var i := IndexOf(s, c);
    if i < |s| {
      JoinSplit(s[i + 1..], c);
      JoinSplitStep(s, c, i, Split(s[i + 1..], c));
    } else {
      assert Split(s, c) == [s];
    }
  }

  /** The text before the first `c` (all of `s` when it has none): `s.split(c, 1)[0]`. */
  function Before(s: string, c: char): string
  {
    s[..IndexOf(s, c)]
  }

  /** The text after the first `c` (empty when it has none): `s.split(c, 1)[1]`. */
  function After(s: string, c: char): string
  {
    var i := IndexOf(s, c);
    if i < |s| then s[i + 1..] else ""
  }

  lemma SplitOnceRejoins(s: string, c: char)
    requires c in s
    ensures Before(s, c) + [c] + After(s, c) == s
    ensures c !in Before(s, c)
  {
    var i := IndexOf(s, c);
    assert s == s[..i] + [c] + s[i + 1..];
  }

  /** The characters for which Python's `str.isspace()` holds. */
  predicate IsPySpace(ch: char)
  {
    ('\t' <= ch <= '\r') || ('\U{1c}' <= ch <= ' ') || ch == '\U{85}' || ch == '\U{a0}'
    || ch == '\U{1680}' || ('\U{2000}' <= ch <= '\U{200a}') || ch == '\U{2028}' || ch == '\U{2029}'
    || ch == '\U{202f}' || ch == '\U{205f}' || ch == '\U{3000}'
  }

  function StripLeft(s: string): (r: string)
    ensures |r| <= |s| && r == s[|s| - |r|..]
    ensures r != [] ==> !IsPySpace(r[0])
    ensures forall j :: 0 <= j < |s| - |r| ==> IsPySpace(s[j])
  {
    if s != [] && IsPySpace(s[0]) then StripLeft(s[1..]) else s
  }

  function StripRight(s: string): (r: string)
    ensures |r| <= |s| && r == s[..|r|]
    ensures r != [] ==> !IsPySpace(r[|r| - 1])
    ensures forall j :: |r| <= j < |s| ==> IsPySpace(s[j])
  {
    if s != [] && IsPySpace(s[|s| - 1]) then StripRight(s[..|s| - 1]) else s
  }

  /** Python's `s.strip()`. */
  function Strip(s: string): string
  {
    StripRight(StripLeft(s))
  }

  lemma StripKeepsInner(s: string)
    requires s != [] && !IsPySpace(s[0]) && !IsPySpace(s[|s| - 1])
    ensures Strip(s) == s
  {
  }

  /** Stripping never removes a character that is not whitespace. */
  lemma {:induction false} StripKeeps(s: string, c: char)
    requires c in s && !IsPySpace(c)
    ensures c in Strip(s)
  {
    var l := StripLeft(s);
    var k :| 0 <= k < |s| && s[k] == c;
    assert k >= |s| - |l|;
    assert l[k - (|s| - |l|)] == c;
    var r := StripRight(l);
    assert k - (|s| - |l|) < |r|;
    assert r[k - (|s| - |l|)] == c;
  }

  /** ASCII lower-casing of one character. */
  function LowerChar(ch: char): char
  {
    if 'A' <= ch <= 'Z' then (ch as int + 32) as char else ch
  }

  function Lower(s: string): (r: string)
    ensures |r| == |s|
    ensures forall j :: 0 <= j < |s| ==> r[j] == LowerChar(s[j])
  {
    if s == [] then [] else [LowerChar(s[0])] + Lower(s[1..])
  }
}
