/**
 * The directory web page (`app.js`): the page state (the loaded tools, the selected
 * category chip and the lower-cased search box text), the selection logic that decides
 * which tools are shown and in which rows, the keyword recommender, and the clean-up of a
 * submitted tool. Rendering, modals, scrolling and the network are outside the model.
 */
module App {
  import opened Wrappers
  import opened Seqs
  import opened Text
  import opened ToolRecords

  // ---------------------------------------------------------------------------
  // Filtering
  // ---------------------------------------------------------------------------

  /** The chip value that selects every category. */
  const ALL: string := "all"

  /** The category chip admits `t`. */
  predicate MatchesCategory(t: Tool, category: string) {
    category == ALL || t.category == category
  }

  /** The (already lower-cased) search text occurs in the lower-cased name, description, category or a feature. */
  predicate MatchesSearch(t: Tool, query: string) {
    || query == ""
    || Contains(Lower(t.name), query)
    || Contains(Lower(t.description), query)
    || Contains(Lower(t.category), query)
    || exists k :: 0 <= k < |t.features| && Contains(Lower(t.features[k]), query)
  }

  /** `filterTools` for the given page state. */
  function Visible(tools: seq<Tool>, category: string, query: string): (r: seq<Tool>)
    ensures IsSubseq(r, tools)
    ensures forall t :: t in r <==> t in tools && MatchesCategory(t, category) && MatchesSearch(t, query)
    ensures category == ALL && query == "" ==> r == tools
    ensures forall t ::
              multiset(r)[t] == if MatchesCategory(t, category) && MatchesSearch(t, query) then multiset(tools)[t] else 0
  {
    var keep := t => MatchesCategory(t, category) && MatchesSearch(t, query);
    FilterSubseq(keep, tools);
    FilterMembers(keep, tools);
    FilterCounts(keep, tools);
    if category == ALL && query == "" then
      FilterAll(keep, tools);
      Filter(keep, tools)
    else
      Filter(keep, tools)
  }

  // ---------------------------------------------------------------------------
  // Recently added
  // ---------------------------------------------------------------------------

  /** Added at or after 24 hours before `now`; a tool without a date is never recent. */
  predicate IsRecent(t: Tool, now: int) {
    t.dateAdded.Some? && t.dateAdded.value >= now - DAY_MS
  }

  /** `getRecentlyAddedTools` at time `now`. */
  function RecentlyAdded(tools: seq<Tool>, now: int): (r: seq<Tool>)
    ensures IsSubseq(r, tools)
    ensures forall t :: t in r <==> t in tools && IsRecent(t, now)
    ensures forall t :: multiset(r)[t] == if IsRecent(t, now) then multiset(tools)[t] else 0
  {
    var keep := t => IsRecent(t, now);
    FilterSubseq(keep, tools);
    FilterMembers(keep, tools);
    FilterCounts(keep, tools);
    Filter(keep, tools)
  }

  // ---------------------------------------------------------------------------
  // Category display names
  // ---------------------------------------------------------------------------

  /** The hand-written row titles. */
  function CustomNames(): map<string, string> {
    map[
      "chat" := "Chat & AI Assistants", "image" := "AI Image Generation",
      "video" := "AI Video Creation", "audio" := "AI Audio & Music",
      "code" := "AI Code & Development", "writing" := "AI Writing & Content",
      "productivity" := "AI Productivity", "research" := "AI Research",
      "design" := "AI Design", "dating" := "AI Dating", "health" := "AI Health",
      "education" := "AI Education", "gaming" := "AI Gaming", "finance" := "AI Finance",
      "travel" := "AI Travel", "customer-service" := "AI Customer Service",
      "directory" := "AI Directories", "enterprise" := "Enterprise AI"]
  }

  /** `word.charAt(0).toUpperCase() + word.slice(1)`. */
  function Capitalize(word: string): (r: string)
    ensures |r| == |word|
  {
    if word == [] then [] else [UpperChar(word[0])] + word[1..]
  }

  /** `getCategoryDisplayName`. */
  function CategoryDisplayName(category: string): string {
    if category in CustomNames() then CustomNames()[category]
    else "AI " + Join(Map(Capitalize, Split(category, '-')), " ")
  }

  /**
   * The generated title, character by character: every '-' becomes a space and every
   * character that starts a word is upper-cased.
   */
  function Titled(s: string): (r: string)
    ensures |r| == |s|
  {
    seq(|s|, i requires 0 <= i < |s| =>
      if s[i] == '-' then ' '
      else if i == 0 || s[i - 1] == '-' then UpperChar(s[i])
      else s[i])
  }

  /** A word without hyphens is titled by capitalising it. */
  lemma TitledWord(w: string)
    requires '-' !in w
    ensures Titled(w) == Capitalize(w)
  {
    forall k | 0 <= k < |w| ensures Titled(w)[k] == Capitalize(w)[k] {
      assert w[k] != '-';
      if k > 0 { assert w[k - 1] != '-'; }
    }
  }

  /** Titling a string at its first hyphen: the first word capitalised, a space, the rest titled. */
  lemma TitledAtHyphen(head: string, rest: string)
    requires '-' !in head
    ensures Titled(head + "-" + rest) == Capitalize(head) + " " + Titled(rest)
  {
    var s := head + "-" + rest;
    var t := Capitalize(head) + " " + Titled(rest);
    var n := |head|;
    assert |t| == |s|;
    forall k | 0 <= k < |s| ensures Titled(s)[k] == t[k] {
      if k < n {
        assert s[k] == head[k] && head[k] != '-';
        if k > 0 { assert s[k - 1] == head[k - 1] && head[k - 1] != '-'; }
        assert t[k] == Capitalize(head)[k];
      } else if k == n {
        assert s[k] == '-';
      } else {
        assert s[k] == rest[k - n - 1];
        assert t[k] == Titled(rest)[k - n - 1];
        if k > n + 1 { assert s[k - 1] == rest[k - n - 2]; }
      }
    }
  }

  /** Splitting on hyphens, capitalising the words and joining with spaces is titling. */
  lemma {:induction false} CapitalizedWords(s: string)
    ensures Join(Map(Capitalize, Split(s, '-')), " ") == Titled(s)
    decreases |s|
  {
    match FindChar(s, '-')
    case None =>
      assert Split(s, '-') == [s];
      assert Map(Capitalize, [s]) == [Capitalize(s)];
      TitledWord(s);
    case Some(i) =>
      var head := s[..i];
      var rest := s[i + 1..];
      var tail := Split(rest, '-');
      CapitalizedWords(rest);
      assert Split(s, '-') == [head] + tail;
      MapCons(Capitalize, head, tail);
      var pieces := [Capitalize(head)] + Map(Capitalize, tail);
      assert |pieces| >= 2 && pieces[0] == Capitalize(head) && pieces[1..] == Map(Capitalize, tail);
      assert Join(pieces, " ") == Capitalize(head) + " " + Titled(rest);
      assert s == head + "-" + rest;
      TitledAtHyphen(head, rest);
  }

  /**
   * A category without a custom title is shown as "AI " and the category with its hyphens
   * turned into spaces and each word capitalised.
   */
  lemma GeneratedDisplayName(category: string)
    requires category !in CustomNames()
    ensures CategoryDisplayName(category) == "AI " + Titled(category)
    ensures |CategoryDisplayName(category)| == 3 + |category|
  {
    CapitalizedWords(category);
  }

  // ---------------------------------------------------------------------------
  // Grouping into rows
  // ---------------------------------------------------------------------------

  /** The tools of one category. */
  function InCategory(category: string): Tool -> bool {
    (t: Tool) => t.category == category
  }

  /** The categories of `s`, each once, in order of first appearance (the row order). */
  function FirstSeen(s: seq<Tool>): (cats: seq<string>)
    ensures forall i, j :: 0 <= i < j < |cats| ==> cats[i] != cats[j]
  {
    if s == [] then []
    else
      var cats := FirstSeen(s[..|s| - 1]);
      if s[|s| - 1].category in cats then cats else cats + [s[|s| - 1].category]
  }

  lemma {:induction false} FirstSeenCategories(s: seq<Tool>)
    ensures forall c :: c in FirstSeen(s) <==> exists i :: 0 <= i < |s| && s[i].category == c
  {
    if s != [] {
      var init := s[..|s| - 1];
      FirstSeenCategories(init);
      assert forall i :: 0 <= i < |init| ==> init[i] == s[i];
    }
  }

  /** The rows, one after the other. */
  function Rows(cats: seq<string>, s: seq<Tool>): seq<Tool> {
    if cats == [] then [] else Rows(cats[..|cats| - 1], s) + Filter(InCategory(cats[|cats| - 1]), s)
  }

  /** Appending a tool to the list adds it to its own row, if that row is listed. */
  lemma {:induction false} RowsSnoc(cats: seq<string>, s: seq<Tool>, t: Tool)
    requires forall i, j :: 0 <= i < j < |cats| ==> cats[i] != cats[j]
    ensures multiset(Rows(cats, s + [t])) ==
      multiset(Rows(cats, s)) + (if t.category in cats then multiset{t} else multiset{})
  {
    if cats != [] {
      var init := cats[..|cats| - 1];
      var c := cats[|cats| - 1];
      assert cats == init + [c];
      RowsSnoc(init, s, t);
      FilterSnoc(InCategory(c), s, t);
      var before, after := Filter(InCategory(c), s), Filter(InCategory(c), s + [t]);
      assert multiset(Rows(cats, s + [t])) == multiset(Rows(init, s + [t])) + multiset(after);
      assert multiset(Rows(cats, s)) == multiset(Rows(init, s)) + multiset(before);
      if t.category == c {
        assert t.category !in init;
        assert multiset(after) == multiset(before) + multiset{t};
      } else {
        assert after == before;
      }
    }
  }

  /** Filtering by a category absent from `s` leaves nothing. */
  lemma {:induction false} FilterAbsentCategory(s: seq<Tool>, c: string)
    requires forall i :: 0 <= i < |s| ==> s[i].category != c
    ensures Filter(InCategory(c), s) == []
  {
    if s != [] {
      FilterAbsentCategory(s[1..], c);
    }
  }

  /** The rows, in row order, hold exactly the filtered tools: a permutation of them. */
  lemma {:induction false} RowsPermute(s: seq<Tool>)
    ensures multiset(Rows(FirstSeen(s), s)) == multiset(s)
  {
    if s != [] {
      var init := s[..|s| - 1];
      var t := s[|s| - 1];
      assert s == init + [t];
      assert multiset(s) == multiset(init) + multiset{t};
      var cats := FirstSeen(init);
      RowsPermute(init);
      RowsSnoc(cats, init, t);
      if t.category !in cats {
        NewRow(init, t);
        var cats' := cats + [t.category];
        assert FirstSeen(s) == cats';
        assert cats'[..|cats'| - 1] == cats;
        assert Rows(cats', s) == Rows(cats, s) + [t];
      }
    }
  }


  /** `grouped` and its key order after the tools of `s` have been pushed. */
  ghost predicate GroupedAfter(s: seq<Tool>, order: seq<string>, grouped: map<string, seq<Tool>>) {
    && order == FirstSeen(s)
    && grouped.Keys == set c | c in order
    && forall c :: c in grouped ==> grouped[c] == Filter(InCategory(c), s)
  }

  /** Every category's list grows by the pushed tool exactly when it is of that category. */
  lemma PushedIntoOwnRow(s: seq<Tool>, t: Tool, cats: set<string>)
    ensures forall d :: d in cats ==>
      Filter(InCategory(d), s + [t]) == Filter(InCategory(d), s) + (if t.category == d then [t] else [])
  {
    forall d | d in cats
      ensures Filter(InCategory(d), s + [t]) == Filter(InCategory(d), s) + (if t.category == d then [t] else [])
    {
      FilterSnoc(InCategory(d), s, t);
    }
  }

  /** The first tool of a category starts a row of its own. */
  lemma NewRow(s: seq<Tool>, t: Tool)
    requires t.category !in FirstSeen(s)
    ensures Filter(InCategory(t.category), s + [t]) == [t]
  {
    FirstSeenCategories(s);
    FilterAbsentCategory(s, t.category);
    FilterSnoc(InCategory(t.category), s, t);
  }

  /** Pushing one more tool into its category's list (creating the list first if needed). */
  lemma GroupStep(s: seq<Tool>, order: seq<string>, grouped: map<string, seq<Tool>>, t: Tool,
                  order': seq<string>, grouped': map<string, seq<Tool>>)
    requires GroupedAfter(s, order, grouped)
    requires order' == if t.category in grouped then order else order + [t.category]
    requires grouped' == grouped[t.category := (if t.category in grouped then grouped[t.category] else []) + [t]]
    ensures GroupedAfter(s + [t], order', grouped')
  {
    assert (s + [t])[..|s|] == s;
    PushedIntoOwnRow(s, t, grouped.Keys);
    if t.category !in grouped {
      NewRow(s, t);
    }
  }

  /**
   * The grouping in `renderTools`: `grouped[category]` collects the tools of each category
   * in list order; `order` is the order in which the categories' keys were created.
   */
  method GroupByCategory(filtered: seq<Tool>) returns (order: seq<string>, grouped: map<string, seq<Tool>>)
    ensures GroupedAfter(filtered, order, grouped)
  {
    order, grouped := [], map[];
    for i := 0 to |filtered|
      invariant GroupedAfter(filtered[..i], order, grouped)
    {
      var tool := filtered[i];
      ghost var order0, grouped0 := order, grouped;
      if tool.category !in grouped {
        grouped := grouped[tool.category := []];
        order := order + [tool.category];
      }
      grouped := grouped[tool.category := grouped[tool.category] + [tool]];
      assert grouped == grouped0[tool.category := (if tool.category in grouped0 then grouped0[tool.category] else []) + [tool]];
      GroupStep(filtered[..i], order0, grouped0, tool, order, grouped);
      assert filtered[..i + 1] == filtered[..i] + [tool];
    }
    assert filtered[..|filtered|] == filtered;
  }

  // ---------------------------------------------------------------------------
  // Recommendations
  // ---------------------------------------------------------------------------

  /** The recommender's keyword table, in declaration order. */
  function RecommendKeywords(): seq<(string, seq<string>)> {
    [
      ("video", ["video", "film", "movie", "recording", "screen capture", "presentation"]),
      ("image", ["image", "photo", "picture", "art", "draw", "illustrate", "design graphic"]),
      ("chat", ["chat", "conversation", "talk", "assistant", "chatbot", "answer questions"]),
      ("code", ["code", "programming", "developer", "script", "software", "debug", "github"]),
      ("writing", ["write", "blog", "article", "content", "copy", "essay", "email"]),
      ("audio", ["audio", "voice", "music", "sound", "podcast", "speech"]),
      ("productivity", ["productivity", "organize", "schedule", "task", "meeting", "calendar"]),
      ("research", ["research", "paper", "study", "academic", "analyze"]),
      ("design", ["design", "ui", "ux", "website", "prototype", "mockup"]),
      ("presentation", ["presentation", "slides", "powerpoint", "deck"]),
      ("transcription", ["transcribe", "transcript", "speech to text"]),
      ("translation", ["translate", "language"]),
      ("summarize", ["summarize", "summary", "tldr"]),
      ("edit", ["edit", "enhance", "improve", "rewrite"])]
  }

  /** How many recommendations are shown. */
  const MAX_RECOMMENDATIONS: nat := 6

  /** `words.some(word => query.includes(word))`. */
  predicate MentionsAny(query: string, words: seq<string>) {
    exists k :: 0 <= k < |words| && Contains(query, words[k])
  }

  /** The keys of `table` whose words the query mentions, in table order. */
  function MatchedKeys(table: seq<(string, seq<string>)>, query: string): seq<string> {
    if table == [] then []
    else
      var last := table[|table| - 1];
      MatchedKeys(table[..|table| - 1], query) + (if MentionsAny(query, last.1) then [last.0] else [])
  }

  /** The fallback search: the query in the lower-cased name, description or a feature. */
  predicate FuzzyMatch(t: Tool, query: string) {
    || Contains(Lower(t.name), query)
    || Contains(Lower(t.description), query)
    || exists k :: 0 <= k < |t.features| && Contains(Lower(t.features[k]), query)
  }

  /** The tools a matched key brings in: its category, or the key in the lower-cased name or description. */
  predicate HitsKey(t: Tool, key: string) {
    t.category == key || Contains(Lower(t.name), key) || Contains(Lower(t.description), key)
  }

  /** The tools of all matched keys, key after key (a tool may occur once per key). */
  function KeyHits(tools: seq<Tool>, keys: seq<string>): (r: seq<Tool>)
    ensures forall t :: t in r ==> t in tools
  {
    if keys == [] then []
    else
      var hits := Filter(t => HitsKey(t, keys[|keys| - 1]), tools);
      FilterMembers(t => HitsKey(t, keys[|keys| - 1]), tools);
      KeyHits(tools, keys[..|keys| - 1]) + hits
  }

  /** The names of `s`, each once, in order of first appearance: the keys of `new Map(...)`. */
  function DistinctNames(s: seq<Tool>): (names: seq<string>)
    ensures forall i, j :: 0 <= i < j < |names| ==> names[i] != names[j]
    ensures forall n :: n in names <==> exists i :: 0 <= i < |s| && s[i].name == n
    ensures |names| <= |s|
  {
    if s == [] then []
    else
      var names := DistinctNames(s[..|s| - 1]);
      assert forall i :: 0 <= i < |s| - 1 ==> s[..|s| - 1][i] == s[i];
      if s[|s| - 1].name in names then names else names + [s[|s| - 1].name]
  }

  /** The last tool of `s` called `name`: the value `new Map(...)` keeps for that key. */
  function LastNamed(s: seq<Tool>, name: string): (t: Tool)
    requires exists i :: 0 <= i < |s| && s[i].name == name
    ensures t in s && t.name == name
  {
    if s[|s| - 1].name == name then s[|s| - 1]
    else
      assert forall i :: 0 <= i < |s| - 1 ==> s[..|s| - 1][i] == s[i];
      LastNamed(s[..|s| - 1], name)
  }

  /** `LastNamed` picks the tool at the last index carrying the name. */
  lemma {:induction false} LastNamedIsLast(s: seq<Tool>, name: string, j: nat)
    requires j < |s| && s[j].name == name
    requires forall k :: j < k < |s| ==> s[k].name != name
    ensures LastNamed(s, name) == s[j]
  {
    if j < |s| - 1 {
      LastNamedIsLast(s[..|s| - 1], name, j);
    }
  }

  /** `[...new Map(s.map(t => [t.name, t])).values()]`: one tool per name, the last one, in first-name order. */
  function DedupeByName(s: seq<Tool>): (r: seq<Tool>)
    ensures |r| <= |s|
    ensures UniqueNames(r)
    ensures forall t :: t in r ==> t in s
  {
    var names := DistinctNames(s);
    assert forall k :: 0 <= k < |names| ==> names[k] in names;
    var r := seq(|names|, k requires 0 <= k < |names| => LastNamed(s, names[k]));
    assert forall k :: 0 <= k < |names| ==> r[k].name == names[k];
    r
  }

  /** Every name of the input survives the de-duplication. */
  lemma DedupeKeepsEveryName(s: seq<Tool>, i: nat)
    requires i < |s|
    ensures exists k :: 0 <= k < |DedupeByName(s)| && DedupeByName(s)[k].name == s[i].name
  {
    var names := DistinctNames(s);
    assert s[i].name in names;
    var k :| 0 <= k < |names| && names[k] == s[i].name;
    assert DedupeByName(s)[k] == LastNamed(s, names[k]);
  }

  /** The tool kept for a name is the last tool of the input with that name (the `Map` overwrites). */
  lemma DedupeKeepsLast(s: seq<Tool>, k: nat, j: nat)
    requires k < |DedupeByName(s)| && j < |s| && s[j].name == DedupeByName(s)[k].name
    requires forall i :: j < i < |s| ==> s[i].name != s[j].name
    ensures DedupeByName(s)[k] == s[j]
  {
    var names := DistinctNames(s);
    assert names[k] in names;
    assert DedupeByName(s)[k] == LastNamed(s, names[k]);
    LastNamedIsLast(s, names[k], j);
  }

  /** The recommender's comparator: free before freemium before the rest. */
  function PricingCmp(a: Tool, b: Tool): int {
    if a.pricing == "free" then -1
    else if b.pricing == "free" then 1
    else if a.pricing == "freemium" then -1
    else if b.pricing == "freemium" then 1
    else 0
  }

  /** Inserts `x` before the first element the comparator puts after it. */
  function PricingInsert(x: Tool, s: seq<Tool>): (r: seq<Tool>)
    ensures multiset(r) == multiset(s) + multiset{x}
  {
    if s == [] || PricingCmp(x, s[0]) < 0 then [x] + s
    else
      assert s == [s[0]] + s[1..];
      [s[0]] + PricingInsert(x, s[1..])
  }

  /** The pricing sort; the comparator is not a consistent order, so only the permutation is promised. */
  function PricingSort(s: seq<Tool>): (r: seq<Tool>)
    ensures multiset(r) == multiset(s)
  {
    if s == [] then []
    else
      assert s == [s[0]] + s[1..];
      PricingInsert(s[0], PricingSort(s[1..]))
  }

  /** Two positions holding the same tool make it occur twice. */
  lemma TwoPositions(r: seq<Tool>, i: nat, j: nat)
    requires i < j < |r| && r[i] == r[j]
    ensures multiset(r)[r[i]] >= 2
  {
    assert r == r[..j] + [r[j]] + r[j + 1..];
    assert r[..j] == r[..i] + [r[i]] + r[i + 1..j];
    assert multiset(r) == multiset(r[..i]) + multiset{r[i]} + multiset(r[i + 1..j]) + multiset{r[j]} + multiset(r[j + 1..]);
  }

  /** In a list with unique names no tool occurs twice. */
  lemma {:induction false} UniqueNamesOnce(s: seq<Tool>, x: Tool)
    requires UniqueNames(s)
    ensures multiset(s)[x] <= 1
  {
    if s != [] {
      assert s == [s[0]] + s[1..];
      UniqueNamesOnce(s[1..], x);
      if s[0] == x {
        assert forall k :: 0 <= k < |s| - 1 ==> s[1..][k] == s[k + 1] && s[k + 1].name != x.name;
        assert x !in s[1..];
      }
    }
  }

  /** Two different tools of a list with unique names carry different names. */
  lemma DifferentToolsDifferentNames(s: seq<Tool>, x: Tool, y: Tool)
    requires UniqueNames(s) && x in s && y in s && x != y
    ensures x.name != y.name
  {
    var a :| 0 <= a < |s| && s[a] == x;
    var b :| 0 <= b < |s| && s[b] == y;
    if a < b { assert s[a].name != s[b].name; } else { assert s[b].name != s[a].name; }
  }

  /** A permutation of a list with unique names has unique names. */
  lemma PermutationKeepsUniqueNames(s: seq<Tool>, r: seq<Tool>)
    requires multiset(r) == multiset(s) && UniqueNames(s)
    ensures UniqueNames(r)
  {
    forall i, j | 0 <= i < j < |r| ensures r[i].name != r[j].name {
      if r[i] == r[j] {
        TwoPositions(r, i, j);
        UniqueNamesOnce(s, r[i]);
        assert false;
      }
      assert r[i] in multiset(s) && r[j] in multiset(s);
      DifferentToolsDifferentNames(s, r[i], r[j]);
    }
  }

  /** The recommendations before the pricing sort. */
  function Picks(tools: seq<Tool>, query: string): seq<Tool> {
    var keys := MatchedKeys(RecommendKeywords(), query);
    if keys == [] then Take(Filter(t => FuzzyMatch(t, query), tools), MAX_RECOMMENDATIONS)
    else Take(DedupeByName(KeyHits(tools, keys)), MAX_RECOMMENDATIONS)
  }

  /** What `getLocalAIRecommendations` returns for `query`. */
  function Recommendations(tools: seq<Tool>, query: string): seq<Tool> {
    PricingSort(Picks(tools, Lower(query)))
  }

  /** At most six picks, all from the directory; from the keyword table, no name twice. */
  lemma PicksBounded(tools: seq<Tool>, q: string)
    ensures |Picks(tools, q)| <= MAX_RECOMMENDATIONS
    ensures forall t :: t in Picks(tools, q) ==> t in tools
    ensures MatchedKeys(RecommendKeywords(), q) != [] ==> UniqueNames(Picks(tools, q))
  {
    var picks := Picks(tools, q);
    var keys := MatchedKeys(RecommendKeywords(), q);
    if keys == [] {
      var fuzzy := t => FuzzyMatch(t, q);
      FilterMembers(fuzzy, tools);
      var all := Filter(fuzzy, tools);
      assert picks == all[..|picks|];
      assert forall t :: t in picks ==> t in all;
    } else {
      var deduped := DedupeByName(KeyHits(tools, keys));
      assert picks == deduped[..|picks|];
      assert forall t :: t in picks ==> t in deduped;
      assert forall i, j :: 0 <= i < j < |picks| ==> picks[i] == deduped[i] && picks[j] == deduped[j];
    }
  }

  /**
   * At most six recommendations, all from the directory, and when the query hit the
   * keyword table no name is recommended twice.
   */
  lemma RecommendationsBounded(tools: seq<Tool>, query: string)
    ensures |Recommendations(tools, query)| <= MAX_RECOMMENDATIONS
    ensures forall t :: t in Recommendations(tools, query) ==> t in tools
    ensures MatchedKeys(RecommendKeywords(), Lower(query)) != [] ==> UniqueNames(Recommendations(tools, query))
  {
    var picks := Picks(tools, Lower(query));
    var r := Recommendations(tools, query);
    PicksBounded(tools, Lower(query));
    assert |r| == |multiset(r)| == |multiset(picks)| == |picks|;
    assert forall t :: t in r ==> t in multiset(picks);
    if MatchedKeys(RecommendKeywords(), Lower(query)) != [] {
      PermutationKeepsUniqueNames(picks, r);
    }
  }

  /** The loop over the keyword table: the keys whose words the lower-cased query mentions. */
  method MatchCategories(keywords: seq<(string, seq<string>)>, lowerQuery: string) returns (matchedCategories: seq<string>)
    ensures matchedCategories == MatchedKeys(keywords, lowerQuery)
  {
    matchedCategories := [];
    for i := 0 to |keywords|
      invariant matchedCategories == MatchedKeys(keywords[..i], lowerQuery)
    {
      assert keywords[..i + 1][..i] == keywords[..i];
      if MentionsAny(lowerQuery, keywords[i].1) {
        matchedCategories := matchedCategories + [keywords[i].0];
      }
    }
    assert keywords[..|keywords|] == keywords;
  }

  /** The loop over the matched keys: the tools each key brings in, key after key. */
  method GatherCategoryTools(tools: seq<Tool>, matchedCategories: seq<string>) returns (matchedTools: seq<Tool>)
    ensures matchedTools == KeyHits(tools, matchedCategories)
  {
    matchedTools := [];
    for k := 0 to |matchedCategories|
      invariant matchedTools == KeyHits(tools, matchedCategories[..k])
    {
      assert matchedCategories[..k + 1][..k] == matchedCategories[..k];
      var cat := matchedCategories[k];
      matchedTools := matchedTools + Filter(t => HitsKey(t, cat), tools);
    }
    assert matchedCategories[..|matchedCategories|] == matchedCategories;
  }

  /**
   * `getLocalAIRecommendations`: collects the keyword-table keys the lower-cased query
   * mentions; with none, falls back to a substring search; otherwise gathers the tools of
   * every matched key and keeps one per name; keeps the first six, free first.
   */
  method Recommend(tools: seq<Tool>, query: string) returns (matchedTools: seq<Tool>)
    ensures matchedTools == Recommendations(tools, query)
    ensures |matchedTools| <= MAX_RECOMMENDATIONS
    ensures forall t :: t in matchedTools ==> t in tools
  {
    var lowerQuery := Lower(query);
    var matchedCategories := MatchCategories(RecommendKeywords(), lowerQuery);
    if |matchedCategories| == 0 {
      matchedTools := Take(Filter(t => FuzzyMatch(t, lowerQuery), tools), MAX_RECOMMENDATIONS);
    } else {
      matchedTools := GatherCategoryTools(tools, matchedCategories);
      matchedTools := Take(DedupeByName(matchedTools), MAX_RECOMMENDATIONS);
    }
    matchedTools := PricingSort(matchedTools);
    RecommendationsBounded(tools, query);
  }

  // ---------------------------------------------------------------------------
  // Submissions
  // ---------------------------------------------------------------------------

  /** `url.trim()`, then "https://" in front unless it already names http or https. */
  function FixUrl(raw: string): (url: string)
    ensures StartsWith(url, "http://") || StartsWith(url, "https://")
  {
    var u := Trim(raw);
    if !StartsWith(u, "http://") && !StartsWith(u, "https://") then "https://" + u else u
  }

  /** A trimmed address behind "https://" is left alone by a second fix. */
  lemma PrefixedUrlKept(u: string)
    requires u == [] || (!IsSpace(u[0]) && !IsSpace(u[|u| - 1]))
    ensures FixUrl("https://" + u) == "https://" + u
  {
    var url := "https://" + u;
    assert url[..8] == "https://";
    assert url[0] == 'h' && !IsSpace('h');
    assert url[|url| - 1] == (if u == [] then '/' else u[|u| - 1]) && !IsSpace('/');
    TrimNoop(url);
  }

  /** A trimmed address that already has a scheme is left alone. */
  lemma SchemedUrlKept(u: string)
    requires u == [] || (!IsSpace(u[0]) && !IsSpace(u[|u| - 1]))
    requires StartsWith(u, "http://") || StartsWith(u, "https://")
    ensures FixUrl(u) == u
  {
    TrimNoop(u);
    assert Trim(u) == u;
  }

  /** Fixing a fixed URL changes nothing. */
  lemma FixUrlIdempotent(raw: string)
    ensures FixUrl(FixUrl(raw)) == FixUrl(raw)
  {
    var u := Trim(raw);
    if !StartsWith(u, "http://") && !StartsWith(u, "https://") {
      PrefixedUrlKept(u);
    } else {
      SchemedUrlKept(u);
    }
  }

  /** The lines of `lines` that are not blank, in order. */
  function NonBlank(lines: seq<string>): (r: seq<string>)
    ensures IsSubseq(r, lines)
    ensures forall line :: line in r <==> line in lines && Trim(line) != ""
  {
    var keep := (line: string) => Trim(line) != "";
    FilterMembers(keep, lines);
    FilterSubseq(keep, lines);
    Filter(keep, lines)
  }

  /** The features box: its non-blank lines, each as typed; no box gives none. */
  function SubmittedFeatures(raw: Option<string>): (features: seq<string>)
    ensures forall k :: 0 <= k < |features| ==> Trim(features[k]) != "" && '\n' !in features[k]
    ensures raw.Some? ==> forall line :: line in Split(raw.value, '\n') && Trim(line) != "" ==> line in features
    ensures raw.Some? ==> IsSubseq(features, Split(raw.value, '\n'))
    ensures raw.None? ==> features == []
  {
    match raw
    case None => []
    case Some(text) =>
      var lines := Split(text, '\n');
      var features := NonBlank(lines);
      assert forall k :: 0 <= k < |features| ==> features[k] in lines;
      features
  }

  /** What the submit form sends. */
  datatype Submission = Submission(
    name: string, url: string, category: string, description: string, pricing: string,
    features: seq<string>, submitterEmail: string)

  /** The submission built from the form fields; an empty e-mail field reads "Not provided". */
  function BuildSubmission(name: string, rawUrl: string, category: string, description: string,
                           pricing: string, rawFeatures: Option<string>, email: string): (s: Submission)
    ensures StartsWith(s.url, "http://") || StartsWith(s.url, "https://")
    ensures s.submitterEmail != ""
    ensures email != "" ==> s.submitterEmail == email
    ensures forall k :: 0 <= k < |s.features| ==> Trim(s.features[k]) != ""
  {
    Submission(name, FixUrl(rawUrl), category, description, pricing, SubmittedFeatures(rawFeatures),
               if email == "" then "Not provided" else email)
  }

  // ---------------------------------------------------------------------------
  // The page state
  // ---------------------------------------------------------------------------

  /** The module-level state of the page, updated by the load and by the two event handlers. */
  class Page {
    var allTools: seq<Tool>
    var currentCategory: string
    var searchQuery: string

    constructor ()
      ensures allTools == [] && currentCategory == ALL && searchQuery == ""
    {
      allTools := [];
      currentCategory := ALL;
      searchQuery := "";
    }

    /** `loadTools`: a successful fetch replaces the tool list; a failed one leaves it. */
    method Load(response: Option<seq<Tool>>)
      modifies this
      ensures response.Some? ==> allTools == response.value
      ensures response.None? ==> allTools == old(allTools)
      ensures currentCategory == old(currentCategory) && searchQuery == old(searchQuery)
    {
      if response.Some? {
        allTools := response.value;
      }
    }

    /** The search box listener: stores the box text lower-cased. */
    method OnSearchInput(value: string)
      modifies this
      ensures searchQuery == Lower(value)
      ensures allTools == old(allTools) && currentCategory == old(currentCategory)
    {
      searchQuery := Lower(value);
    }

    /** The chip listener: selects the chip's category. */
    method OnCategoryClick(category: string)
      modifies this
      ensures currentCategory == category
      ensures allTools == old(allTools) && searchQuery == old(searchQuery)
    {
      currentCategory := category;
    }

    /** `filterTools` on the current state. */
    function FilterTools(): seq<Tool>
      reads this
    {
      Visible(allTools, currentCategory, searchQuery)
    }

    /**
     * The rows `renderTools` shows: nothing at all when no tool passes the filters (the
     * empty state); otherwise the recent row's tools, then one row per category.
     */
    method RowsToRender(now: int) returns (recent: seq<Tool>, order: seq<string>, grouped: map<string, seq<Tool>>)
      ensures FilterTools() == [] ==> recent == [] && order == [] && grouped == map[]
      ensures FilterTools() != [] ==> recent == RecentlyAdded(allTools, now)
      ensures GroupedAfter(FilterTools(), order, grouped)
    {
      var filtered := FilterTools();
      if |filtered| == 0 {
        return [], [], map[];
      }
      recent := RecentlyAdded(allTools, now);
      order, grouped := GroupByCategory(filtered);
    }
  }
}
