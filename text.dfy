/**
 * The string operations the source uses, on `string` = `seq<char>`:
 * `toLowerCase`/`toUpperCase` (ASCII case folding), `includes`, `indexOf`, `startsWith`,
 * `endsWith`, `trim`, `replace` of a literal, `split` on one character and `join`.
 */
module Text {
  import opened Wrappers

  /** JavaScript LineTerminator: the characters `.` in a regular expression never matches. */
  predicate IsLineTerminator(c: char) {
    c == '\n' || c == '\r' || c == '\U{2028}' || c == '\U{2029}'
  }

  /** JavaScript WhiteSpace or LineTerminator: the class `\s`, and what `trim()` removes. */
  predicate IsSpace(c: char) {
    || IsLineTerminator(c)
    || c == '\t' || c == '\U{000B}' || c == '\U{000C}' || c == ' ' || c == '\U{00A0}'
    || c == '\U{1680}' || ('\U{2000}' <= c <= '\U{200A}') || c == '\U{202F}'
    || c == '\U{205F}' || c == '\U{3000}' || c == '\U{FEFF}'
  }

  predicate IsUpperLetter(c: char) { 'A' <= c <= 'Z' }

  predicate IsLowerLetter(c: char) { 'a' <= c <= 'z' }

  /** The regular-expression class `\w`. */
  predicate IsWordChar(c: char) {
    IsUpperLetter(c) || IsLowerLetter(c) || ('0' <= c <= '9') || c == '_'
  }

  function LowerChar(c: char): (r: char)
    ensures !IsUpperLetter(r)
  {
    if IsUpperLetter(c) then (c as int + 32) as char else c
  }

  function UpperChar(c: char): (r: char)
    ensures !IsLowerLetter(r)
  {
    if IsLowerLetter(c) then (c as int - 32) as char else c
  }

  /** `toLowerCase()`, folding ASCII letters only. */
  function Lower(s: string): (r: string)
    ensures |r| == |s|
    ensures forall i :: 0 <= i < |s| ==> r[i] == LowerChar(s[i])
  {
    seq(|s|, i requires 0 <= i < |s| => LowerChar(s[i]))
  }

  lemma LowerSlice(s: string, a: nat, b: nat)
    requires a <= b <= |s|
    ensures Lower(s[a..b]) == Lower(s)[a..b]
  {
  }

  lemma LowerAppend(s: string, t: string)
    ensures Lower(s + t) == Lower(s) + Lower(t)
  {
  }

  /** `p` occurs in `s` starting at index `i`. */
  predicate OccursAt(s: string, p: string, i: int) {
    0 <= i && i + |p| <= |s| && s[i..i + |p|] == p
  }

  /** The first occurrence of `p` in `s` at or after index `k`. */
  function IndexFrom(s: string, p: string, k: nat): (r: Option<nat>)
    ensures r.None? ==> forall i :: k <= i ==> !OccursAt(s, p, i)
    ensures r.Some? ==> k <= r.value && OccursAt(s, p, r.value)
    ensures r.Some? ==> forall i :: k <= i < r.value ==> !OccursAt(s, p, i)
    decreases |s| - k
  {
    if k + |p| > |s| then None
    else if s[k..k + |p|] == p then Some(k)
    else IndexFrom(s, p, k + 1)
  }

  /** `s.indexOf(p)`, with `None` for -1. */
  function IndexOf(s: string, p: string): (r: Option<nat>)
    ensures r.None? <==> forall i :: !OccursAt(s, p, i)
    ensures r.Some? ==> OccursAt(s, p, r.value) && forall i :: 0 <= i < r.value ==> !OccursAt(s, p, i)
  {
    IndexFrom(s, p, 0)
  }

  /** `s.includes(p)`. */
  function Contains(s: string, p: string): (b: bool)
    ensures b <==> exists i :: OccursAt(s, p, i)
  {
    IndexOf(s, p).Some?
  }

  /** `s.startsWith(p)`. */
  predicate StartsWith(s: string, p: string) {
    |p| <= |s| && s[..|p|] == p
  }

  /** `s.endsWith(p)`, and the regular expression `p$` without the `m` flag. */
  predicate EndsWith(s: string, p: string) {
    |p| <= |s| && s[|s| - |p|..] == p
  }

  /** The regular expression `^p` with the `i` flag, for a lower-case literal `p`. */
  predicate StartsWithCI(s: string, p: string) {
    |p| <= |s| && Lower(s[..|p|]) == p
  }

  /** A lower-case literal `p` occurs at index `i` of `s`, ignoring the case of ASCII letters. */
  predicate OccursAtCI(s: string, p: string, i: int) {
    0 <= i && i + |p| <= |s| && Lower(s[i..i + |p|]) == p
  }

  /** The first index of character `c` in `s`. */
  function FindChar(s: string, c: char): (r: Option<nat>)
    ensures r.None? <==> c !in s
    ensures r.Some? ==> r.value < |s| && s[r.value] == c && c !in s[..r.value]
  {
    if s == [] then None
    else if s[0] == c then Some(0)
    else
      match FindChar(s[1..], c)
      case None => None
      case Some(i) =>
        assert s[..i + 1] == [s[0]] + s[1..][..i];
        Some(i + 1)
  }

  /** `trimStart()`: drops leading white space. */
  function TrimStart(s: string): (r: string)
    ensures |r| <= |s| && r == s[|s| - |r|..]
    ensures r == [] || !IsSpace(r[0])
  {
    if s != [] && IsSpace(s[0]) then TrimStart(s[1..]) else s
  }

  /** `trimEnd()`: drops trailing white space. */
  function TrimEnd(s: string): (r: string)
    ensures |r| <= |s| && r == s[..|r|]
    ensures r == [] || !IsSpace(r[|r| - 1])
  {
    if s != [] && IsSpace(s[|s| - 1]) then TrimEnd(s[..|s| - 1]) else s
  }

  /** `trim()`: the slice of `s` left after dropping white space at both ends. */
  function Trim(s: string): (r: string)
    ensures |r| <= |s|
    ensures var a := |s| - |TrimStart(s)|; a + |r| <= |s| && r == s[a..a + |r|]
    ensures r == [] || (!IsSpace(r[0]) && !IsSpace(r[|r| - 1]))
  {
    var t := TrimStart(s);
    var r := TrimEnd(t);
    PrefixOfSuffix(s, t, r);
    r
  }

  /** A prefix of a suffix is a slice. */
  lemma PrefixOfSuffix(s: string, t: string, r: string)
    requires |t| <= |s| && t == s[|s| - |t|..]
    requires |r| <= |t| && r == t[..|r|]
    ensures r == s[|s| - |t|..|s| - |t| + |r|]
    ensures r == [] || r[0] == t[0]
  {
  }

  /** Trimming the start stops at the first character that is not white space. */
  lemma {:induction false} TrimStartStops(s: string, n: nat)
    requires n < |s| && !IsSpace(s[n])
    ensures |s| - |TrimStart(s)| <= n
  {
    if n > 0 && IsSpace(s[0]) {
      assert s[1..][n - 1] == s[n];
      TrimStartStops(s[1..], n - 1);
    }
  }

  /** Trimming the end stops at the last character that is not white space. */
  lemma {:induction false} TrimEndStops(s: string, n: nat)
    requires n < |s| && !IsSpace(s[n])
    ensures n < |TrimEnd(s)|
  {
    if n < |s| - 1 && IsSpace(s[|s| - 1]) {
      assert s[..|s| - 1][n] == s[n];
      TrimEndStops(s[..|s| - 1], n);
    }
  }

  /** A suffix with no white space at its ends survives trimming. */
  lemma TrimKeepsSuffix(u: string, p: string)
    requires p != [] && !IsSpace(p[0]) && !IsSpace(p[|p| - 1]) && EndsWith(u, p)
    ensures EndsWith(Trim(u), p)
  {
    TrimStartKeepsSuffix(u, p);
    TrimEndKeepsLast(TrimStart(u));
  }

  lemma TrimStartKeepsSuffix(u: string, p: string)
    requires p != [] && !IsSpace(p[0]) && EndsWith(u, p)
    ensures EndsWith(TrimStart(u), p)
  {
    TrimStartStops(u, |u| - |p|);
  }

  lemma TrimEndKeepsLast(t: string)
    requires t != [] && !IsSpace(t[|t| - 1])
    ensures TrimEnd(t) == t
  {
  }

  /** A property every character of `s` has, every character of its trim has. */
  lemma TrimKeepsAll(s: string, p: char -> bool)
    requires forall k :: 0 <= k < |s| ==> p(s[k])
    ensures forall k :: 0 <= k < |Trim(s)| ==> p(Trim(s)[k])
  {
    var r := Trim(s);
    var a := |s| - |TrimStart(s)|;
    forall k | 0 <= k < |r| ensures p(r[k]) {
      assert r[k] == s[a + k];
    }
  }

  /** A string already without white space at its ends is its own trim. */
  lemma TrimNoop(s: string)
    requires s == [] || (!IsSpace(s[0]) && !IsSpace(s[|s| - 1]))
    ensures Trim(s) == s
  {
  }

  /** `s.replace(p, rep)` for a literal `p`: only the first occurrence is replaced. */
  function ReplaceFirst(s: string, p: string, rep: string): (r: string)
    ensures IndexOf(s, p).None? ==> r == s
    ensures IndexOf(s, p).Some? ==>
      var i := IndexOf(s, p).value; r == s[..i] + rep + s[i + |p|..]
  {
    match IndexOf(s, p)
    case None => s
    case Some(i) => s[..i] + rep + s[i + |p|..]
  }

  /** `s.split(sep)` for a one-character separator: the pieces between the separators. */
  function Split(s: string, sep: char): (r: seq<string>)
    ensures |r| >= 1
    ensures forall i :: 0 <= i < |r| ==> sep !in r[i]
    decreases |s|
  {
    match FindChar(s, sep)
    case None => [s]
    case Some(i) => [s[..i]] + Split(s[i + 1..], sep)
  }

  /** `pieces.join(sep)`. */
  function Join(pieces: seq<string>, sep: string): string
  {
    if pieces == [] then ""
    else if |pieces| == 1 then pieces[0]
    else pieces[0] + sep + Join(pieces[1..], sep)
  }

  /** Splitting on a character and joining with it gives the string back. */
  lemma {:induction false} JoinSplit(s: string, sep: char)
    ensures Join(Split(s, sep), [sep]) == s
    decreases |s|
  {
    match FindChar(s, sep)
    case None =>
    case Some(i) =>
      var rest := Split(s[i + 1..], sep);
      JoinSplit(s[i + 1..], sep);
      assert Split(s, sep) == [s[..i]] + rest;
      assert Join([s[..i]] + rest, [sep]) == s[..i] + [sep] + Join(rest, [sep]);
      assert s == s[..i] + [sep] + s[i + 1..];
  }
}
