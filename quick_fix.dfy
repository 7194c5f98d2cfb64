/**
 * The offline description fixer (`quick-fix-descriptions.js`): `cleanDescription`, a fixed
 * chain of regular-expression rewrites, written out step by step, and the loop that
 * stores each cleaned description that differs from the old one.
 */
module QuickFix {
  import opened Wrappers
  import opened Seqs
  import opened Text
  import opened ToolRecords

  const MAX_LENGTH: nat := 150
  /** What is kept of an over-long description before "..." is appended. */
  const CUT_LENGTH: nat := 147
  const MIN_LENGTH: nat := 20
  const FALLBACK_PREFIX: string := "AI-powered tool for "

  /** No `<` is followed, anywhere later, by a `>`: the text holds no `<...>` tag. */
  ghost predicate NoTag(s: string) {
    forall i, j :: 0 <= i < j < |s| && s[i] == '<' ==> s[j] != '>'
  }

  lemma NoTagCons(c: char, rest: string)
    requires NoTag(rest) && (c == '<' ==> '>' !in rest)
    ensures NoTag([c] + rest)
  {
    var s := [c] + rest;
    forall i, j | 0 <= i < j < |s| && s[i] == '<' ensures s[j] != '>' {
      assert s[j] == rest[j - 1];
      if i > 0 { assert s[i] == rest[i - 1]; }
    }
  }

  lemma NoTagSlice(s: string, a: nat, b: nat)
    requires a <= b <= |s|
    ensures NoTag(s) ==> NoTag(s[a..b])
  {
    var t := s[a..b];
    if NoTag(s) {
      forall i, j | 0 <= i < j < |t| && t[i] == '<' ensures t[j] != '>' {
        assert t[i] == s[a + i] && t[j] == s[a + j];
      }
    }
  }

  lemma NoTagAppend(s: string, t: string)
    requires '>' !in t && '<' !in t
    ensures NoTag(s) ==> NoTag(s + t)
  {
    var u := s + t;
    if NoTag(s) {
      forall i, j | 0 <= i < j < |u| && u[i] == '<' ensures u[j] != '>' {
        if j >= |s| { assert u[j] == t[j - |s|]; } else { assert u[i] == s[i] && u[j] == s[j]; }
      }
    }
  }

  /** Trimming a tag-free text leaves it tag-free. */
  lemma NoTagTrim(s: string)
    ensures NoTag(s) ==> NoTag(Trim(s))
  {
    var a := |s| - |TrimStart(s)|;
    NoTagSlice(s, a, a + |Trim(s)|);
  }

  // ---------------------------------------------------------------------------
  // The rewrite steps
  // ---------------------------------------------------------------------------

  /**
   * `replace(/<[^>]*>/g, '')`: every `<` with a `>` somewhere after it is removed together
   * with everything up to and including the first such `>`.
   */
  function StripTags(s: string): (r: string)
    ensures |r| <= |s|
    ensures '>' !in s ==> '>' !in r
    ensures NoTag(r)
    decreases |s|
  {
    if s == [] then []
    else
      match FindChar(s, '>')
      case Some(j) =>
        if s[0] == '<' then StripTags(s[j + 1..])
        else
          var rest := StripTags(s[1..]);
          NoTagCons(s[0], rest);
          [s[0]] + rest
      case None =>
        var rest := StripTags(s[1..]);
        assert '>' !in s[1..] by { assert forall k :: 0 <= k < |s| - 1 ==> s[1..][k] == s[k + 1]; }
        NoTagCons(s[0], rest);
        [s[0]] + rest
  }

  /** Text without tags passes tag removal unchanged, so removing tags twice is removing them once. */
  lemma {:induction false} StripTagsKeepsPlainText(s: string)
    requires NoTag(s)
    ensures StripTags(s) == s
    decreases |s|
  {
    if s != [] {
      NoTagSlice(s, 1, |s|);
      StripTagsKeepsPlainText(s[1..]);
      if s[0] == '<' {
        NoCloseAfterOpen(s);
      }
    }
  }

  /** A tag-free text that opens with `<` has no `>` at all. */
  lemma NoCloseAfterOpen(s: string)
    requires NoTag(s) && s != [] && s[0] == '<'
    ensures '>' !in s
  {
    forall j | 0 < j < |s| ensures s[j] != '>' { }
  }

  /**
   * The end of the lazy match `.*?(?:winner|evaluation)\.` tried from index `k` on,
   * case-insensitively; `.` does not cross a line terminator.
   */
  function VerdictEnd(s: string, k: nat): (e: Option<nat>)
    ensures e.Some? ==> k <= e.value <= |s|
    decreases |s| - k
  {
    if k > |s| then None
    else if OccursAtCI(s, "winner.", k) then Some(k + 7)
    else if OccursAtCI(s, "evaluation.", k) then Some(k + 11)
    else if k == |s| || IsLineTerminator(s[k]) then None
    else VerdictEnd(s, k + 1)
  }

  /** The index of the first non-white-space character from `k` on (or the end). */
  function SkipSpace(s: string, k: nat): (j: nat)
    requires k <= |s|
    ensures k <= j <= |s|
    decreases |s| - k
  {
    if k < |s| && IsSpace(s[k]) then SkipSpace(s, k + 1) else k
  }

  /** `replace(/^We performed.*?(?:winner|evaluation)\.\s*\/i, '')`. */
  function DropTestReport(s: string): (r: string)
    ensures |r| <= |s| && r == s[|s| - |r|..]
    ensures NoTag(s) ==> NoTag(r)
  {
    if StartsWithCI(s, "we performed") then
      match VerdictEnd(s, 12)
      case Some(e) =>
        var j := SkipSpace(s, e);
        NoTagSlice(s, j, |s|);
        s[j..]
      case None => s
    else s
  }

  /** `/\.\.\.\s*[A-Z].*$/` matches at `i`: "...", white space, a capital, then one line to the end. */
  predicate CapitalTailAt(s: string, i: nat) {
    && i + 3 <= |s| && s[i..i + 3] == "..."
    && var j := SkipSpace(s, i + 3);
       j < |s| && IsUpperLetter(s[j]) && forall k :: j < k < |s| ==> !IsLineTerminator(s[k])
  }

  /** The leftmost match of the pattern above at or after `i`. */
  function FirstCapitalTail(s: string, i: nat): (m: Option<nat>)
    ensures m.Some? ==> i <= m.value && m.value + 3 <= |s|
    decreases |s| - i
  {
    if i + 3 > |s| then None
    else if CapitalTailAt(s, i) then Some(i)
    else FirstCapitalTail(s, i + 1)
  }

  /** `replace(/\.\.\.\s*[A-Z].*$/, '.')`: a text trailing off after "..." ends with a full stop instead. */
  function CutCapitalTail(s: string): (r: string)
    ensures |r| <= |s|
    ensures NoTag(s) ==> NoTag(r)
  {
    match FirstCapitalTail(s, 0)
    case None => s
    case Some(i) =>
      NoTagSlice(s, 0, i);
      NoTagAppend(s[..i], ".");
      s[..i] + "."
  }

  /** `replace(/\s*\.\.\.\s*$/, '')`: a final "..." goes, with the white space around it. */
  function CutTrailingEllipsis(s: string): (r: string)
    ensures |r| <= |s| && r == s[..|r|]
    ensures NoTag(s) ==> NoTag(r)
  {
    var t := TrimEnd(s);
    if EndsWith(t, "...") then
      var u := TrimEnd(t[..|t| - 3]);
      assert u == s[..|u|];
      NoTagSlice(s, 0, |u|);
      u
    else s
  }

  /** `/^(Explore|Discover|The Best|These AI|Create|Free)/i`. */
  predicate ArticleOpening(s: string) {
    || StartsWithCI(s, "explore") || StartsWithCI(s, "discover") || StartsWithCI(s, "the best")
    || StartsWithCI(s, "these ai") || StartsWithCI(s, "create") || StartsWithCI(s, "free")
  }

  predicate IsStop(c: char) { c == '.' || c == '!' || c == '?' }

  /** The first sentence stop at or after `k`, or the end. */
  function FindStop(s: string, k: nat): (j: nat)
    requires k <= |s|
    ensures k <= j <= |s| && (j < |s| ==> IsStop(s[j]))
    ensures forall m :: k <= m < j ==> !IsStop(s[m])
    decreases |s| - k
  {
    if k == |s| || IsStop(s[k]) then k else FindStop(s, k + 1)
  }

  /** The first character at or after `k` that is not a sentence stop, or the end. */
  function SkipStops(s: string, k: nat): (j: nat)
    requires k <= |s|
    ensures k <= j <= |s| && (j < |s| ==> !IsStop(s[j]))
    ensures forall m :: k <= m < j ==> IsStop(s[m])
    decreases |s| - k
  {
    if k < |s| && IsStop(s[k]) then SkipStops(s, k + 1) else k
  }

  /**
   * `s` splits on runs of sentence stops with `s[b..c]` as its second piece: `s[..a]` has no stop,
   * `s[a..b]` is a whole run of stops and `s[b..c]` runs up to the next stop or the end.
   */
  predicate SplitsSecond(s: string, a: int, b: int, c: int) {
    && 0 <= a < b <= c <= |s|
    && (forall m :: 0 <= m < a ==> !IsStop(s[m]))
    && (forall m :: a <= m < b ==> IsStop(s[m]))
    && (b < |s| ==> !IsStop(s[b]))
    && (forall m :: b <= m < c ==> !IsStop(s[m]))
    && (c < |s| ==> IsStop(s[c]))
  }

  /** A split, when there is one, has its pieces where `FindStop` and `SkipStops` put them. */
  lemma SplitsUnique(s: string)
    ensures forall a, b, c :: SplitsSecond(s, a, b, c) ==>
              a == FindStop(s, 0) && b == SkipStops(s, a) && c == FindStop(s, b)
  {
    forall a, b, c | SplitsSecond(s, a, b, c)
      ensures a == FindStop(s, 0) && b == SkipStops(s, a) && c == FindStop(s, b)
    {
      assert IsStop(s[a]);
    }
  }

  /**
   * `s.split(/[.!?]+/)[1]`: present exactly when the split gives a second piece, and then
   * exactly that piece.
   */
  function SecondSentence(s: string): (r: Option<string>)
    ensures r.Some? <==> exists a, b, c :: SplitsSecond(s, a, b, c)
    ensures forall a, b, c :: SplitsSecond(s, a, b, c) ==> r == Some(s[b..c])
    ensures r.None? <==> forall m :: 0 <= m < |s| ==> !IsStop(s[m])
    ensures r.Some? ==> forall m :: 0 <= m < |r.value| ==> !IsStop(r.value[m])
    ensures r.Some? ==> |r.value| < |s| && (NoTag(s) ==> NoTag(r.value))
  {
    SplitsUnique(s);
    var a := FindStop(s, 0);
    if a == |s| then None
    else
      var b := SkipStops(s, a);
      var c := FindStop(s, b);
      assert SplitsSecond(s, a, b, c);
      assert forall m :: 0 <= m < c - b ==> s[b..c][m] == s[b + m];
      NoTagSlice(s, b, c);
      Some(s[b..c])
  }

  /** An article-like opening is replaced by the trimmed second sentence, when there is one. */
  function ReplaceArticleOpening(s: string): (r: string)
    ensures |r| <= |s|
    ensures NoTag(s) ==> NoTag(r)
    ensures !ArticleOpening(s) || SecondSentence(s).None? ==> r == s
    ensures ArticleOpening(s) && SecondSentence(s).Some? ==> r == Trim(SecondSentence(s).value)
  {
    if ArticleOpening(s) then
      match SecondSentence(s)
      case None => s
      case Some(sentence) =>
        NoTagTrim(sentence);
        Trim(sentence)
    else s
  }

  /** An article opening followed by a sentence stop leaves a text without any sentence stop. */
  lemma ArticleOpeningReplaced(s: string, k: nat)
    requires ArticleOpening(s) && k < |s| && IsStop(s[k])
    ensures var r := ReplaceArticleOpening(s); forall m :: 0 <= m < |r| ==> !IsStop(r[m])
  {
    TrimKeepsAll(SecondSentence(s).value, c => !IsStop(c));
  }



  /** The characters `replace(/[^a-z\s]/g, '')` keeps. */
  predicate IsNameLetter(c: char) { IsLowerLetter(c) || IsSpace(c) }

  /** `"AI-powered tool for " + toolName.toLowerCase().replace(/[^a-z\s]/g, '')`. */
  function FallbackDescription(toolName: string): (r: string)
    ensures |r| <= |FALLBACK_PREFIX| + |toolName|
    ensures '<' !in r && '>' !in r
  {
    var letters := Filter(IsNameLetter, Lower(toolName));
    FilterMembers(IsNameLetter, Lower(toolName));
    FALLBACK_PREFIX + letters
  }

  /** The text after tag removal and the three pattern rewrites, before the length rules. */
  function Rewritten(desc: string): (r: string)
    ensures NoTag(r)
  {
    var cleaned := StripTags(desc);
    var dropped := DropTestReport(cleaned);
    var cut := CutCapitalTail(dropped);
    var trailing := CutTrailingEllipsis(cut);
    ReplaceArticleOpening(trailing)
  }

  /** The length rule: over 150 characters keep the first 147 and append "...". */
  function Limited(s: string): (r: string)
    ensures |r| <= MAX_LENGTH
    ensures |s| <= MAX_LENGTH ==> r == s
    ensures NoTag(s) ==> NoTag(r)
  {
    if |s| > MAX_LENGTH then
      NoTagSlice(s, 0, CUT_LENGTH);
      NoTagAppend(s[..CUT_LENGTH], "...");
      s[..CUT_LENGTH] + "..."
    else s
  }

  /** Both length rules: the cut above, then a text under 20 characters is replaced by the fallback. */
  function Sized(text: string, toolName: string): (r: string)
    ensures |r| <= MAX_LENGTH || |r| <= |FALLBACK_PREFIX| + |toolName|
    ensures |Limited(text)| >= MIN_LENGTH ==> r == Limited(text) && MIN_LENGTH <= |r| <= MAX_LENGTH
    ensures |Limited(text)| < MIN_LENGTH ==> r == FallbackDescription(toolName)
    ensures NoTag(text) ==> NoTag(r)
  {
    var limited := Limited(text);
    if |limited| < MIN_LENGTH then
      var f := FallbackDescription(toolName);
      NoTagAppend([], f);
      assert [] + f == f;
      f
    else limited
  }

  /**
   * `cleanDescription`: nothing for no description; otherwise the rewrites, the length
   * rules, and a final trim. The result never holds a `<...>` tag.
   */
  function CleanDescription(desc: string, toolName: string): (r: string)
    ensures desc == "" ==> r == ""
    ensures |r| <= MAX_LENGTH || |r| <= |FALLBACK_PREFIX| + |toolName|
    ensures desc != "" && |Limited(Rewritten(desc))| >= MIN_LENGTH ==> |r| <= MAX_LENGTH
    ensures desc != "" && |Limited(Rewritten(desc))| < MIN_LENGTH ==> |r| <= |FALLBACK_PREFIX| + |toolName|
    ensures NoTag(r)
  {
    if desc == "" then ""
    else
      var sized := Sized(Rewritten(desc), toolName);
      NoTagTrim(sized);
      Trim(sized)
  }

  // ---------------------------------------------------------------------------
  // What the cleaned text satisfies
  // ---------------------------------------------------------------------------

  /** A text still over 150 characters after the rewrites becomes its first 147 characters and "...", trimmed. */
  lemma LongDescriptionCut(desc: string, toolName: string)
    requires desc != "" && |Rewritten(desc)| > MAX_LENGTH
    ensures CleanDescription(desc, toolName) == Trim(Rewritten(desc)[..CUT_LENGTH] + "...")
    ensures EndsWith(CleanDescription(desc, toolName), "...")
  {
    var u := Rewritten(desc)[..CUT_LENGTH] + "...";
    assert Limited(Rewritten(desc)) == u && |u| == MAX_LENGTH;
    assert Sized(Rewritten(desc), toolName) == u;
    TrimKeepsEllipsis(u);
  }

  /** A text ending in "..." still ends in it after trimming (a stop is not white space). */
  lemma TrimKeepsEllipsis(u: string)
    requires EndsWith(u, "...")
    ensures EndsWith(Trim(u), "...")
  {
    TrimKeepsSuffix(u, "...");
  }

  /** A text under 20 characters after the length rule is replaced by the fallback, trimmed. */
  lemma ShortDescriptionFallback(desc: string, toolName: string)
    requires desc != "" && |Limited(Rewritten(desc))| < MIN_LENGTH
    ensures CleanDescription(desc, toolName) == Trim(FallbackDescription(toolName))
    ensures StartsWith(CleanDescription(desc, toolName), FALLBACK_PREFIX[..|FALLBACK_PREFIX| - 1])
  {
    assert Sized(Rewritten(desc), toolName) == FallbackDescription(toolName);
    FallbackKeepsPrefix(toolName);
  }

  /** The trimmed fallback still starts with "AI-powered tool for" (only the space after it can go). */
  lemma FallbackKeepsPrefix(toolName: string)
    ensures StartsWith(Trim(FallbackDescription(toolName)), FALLBACK_PREFIX[..|FALLBACK_PREFIX| - 1])
  {
    var f := FallbackDescription(toolName);
    var n := |FALLBACK_PREFIX| - 1;
    assert f[..n + 1] == FALLBACK_PREFIX;
    assert f[0] == 'A' && f[n - 1] == 'r';
    TrimStartStops(f, 0);
    var t := TrimStart(f);
    assert t == f;
    TrimEndStops(t, n - 1);
    assert Trim(f)[..n] == f[..n];
  }

  // ---------------------------------------------------------------------------
  // The rewrite loop
  // ---------------------------------------------------------------------------

  /** The description the script computes for a tool. */
  function Cleaned(t: Tool): string {
    CleanDescription(t.description, t.name)
  }

  /** The entry with its description replaced by `clean`'s. */
  function Rewrite(clean: Tool -> string): Tool -> Tool {
    (t: Tool) => t.(description := clean(t))
  }

  /** `clean` gives the entry a description different from its own. */
  function ChangedBy(clean: Tool -> string): Tool -> bool {
    (t: Tool) => clean(t) != t.description
  }

  /**
   * The `forEach` of the script, for any cleaning function: a description is stored only
   * when it differs from the old one, and `fixed` counts exactly those entries.
   */
  method RewriteDescriptions(tools: array<Tool>, clean: Tool -> string) returns (fixed: nat)
    modifies tools
    ensures tools[..] == Map(Rewrite(clean), old(tools[..]))
    ensures fixed == |Filter(ChangedBy(clean), old(tools[..]))|
  {
    ghost var original := tools[..];
    ghost var changed := ChangedBy(clean);
    fixed := 0;
    for i := 0 to tools.Length
      invariant forall k :: i <= k < tools.Length ==> tools[k] == original[k]
      invariant forall k :: 0 <= k < i ==> tools[k] == Rewrite(clean)(original[k])
      invariant fixed == |Filter(changed, original[..i])|
    {
      FilterPrefixStep(changed, original, i);
      var cleaned := clean(tools[i]);
      if cleaned != tools[i].description {
        tools[i] := tools[i].(description := cleaned);
        fixed := fixed + 1;
      }
    }
    assert original[..tools.Length] == original;
  }

  /** The script's loop: every tool gets its cleaned description; `fixed` counts the changed ones. */
  method QuickFixAll(tools: array<Tool>) returns (fixed: nat)
    modifies tools
    ensures tools[..] == Map(Rewrite(Cleaned), old(tools[..]))
    ensures fixed == |Filter(ChangedBy(Cleaned), old(tools[..]))|
  {
    fixed := RewriteDescriptions(tools, Cleaned);
  }
}
