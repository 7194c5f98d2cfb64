/**
 * The discovery agent (`ai-discovery-agent.js`): runs a fixed list of web searches, turns
 * search results into tool candidates, drops candidates whose domain or name is already
 * known, asks a language model to normalise and vet each remaining candidate, and merges
 * the accepted ones into the directory, sorted by category and name.
 *
 * The search engine, the language model and the WHATWG URL parser are outside the model:
 * they are the oracle parameters `search`, `classify` and `hostOf`.
 */
module Discovery {
  import opened Wrappers
  import opened Seqs
  import opened Text
  import opened ToolRecords
  import opened ToolOrder

  /** The search phrases, one search each, in this order. */
  function SearchQueries(): seq<string> { [
    "new AI chatbot 2025", "AI image generator tool", "AI video creation platform",
    "AI coding assistant", "AI writing tool", "AI voice generator", "AI music generator",
    "AI productivity tool", "AI design tool", "AI research assistant",
    "AI avatar generator", "AI presentation maker", "AI data analysis tool",
    "AI meeting assistant", "AI note taking app", "AI email assistant",
    "AI social media tool", "AI marketing automation", "AI customer support",
    "AI translation tool",
    "best free AI tools 2025", "AI tools for developers", "AI tools for content creators",
    "AI automation platform", "generative AI application"]
  }

  /**
   * The keyword table of the category heuristic, in declaration order (the order in which
   * the heuristic visits it, and so the order that decides ties).
   */
  function CategoryKeywords(): seq<(string, seq<string>)> { [
    ("chat", ["chatbot", "conversation", "assistant", "chat", "ai chat"]),
    ("image", ["image", "photo", "picture", "art", "visual", "illustration", "graphics"]),
    ("video", ["video", "film", "movie", "animation", "clips"]),
    ("audio", ["audio", "voice", "music", "sound", "speech", "podcast"]),
    ("code", ["code", "coding", "programming", "developer", "github", "IDE"]),
    ("writing", ["writing", "content", "blog", "article", "copywriting", "text"]),
    ("productivity", ["productivity", "task", "organize", "workflow", "efficiency"]),
    ("research", ["research", "analysis", "data", "insights", "study"]),
    ("design", ["design", "ui", "ux", "prototype", "mockup", "creative"]),
    ("dating", ["dating", "relationship", "match", "romance"]),
    ("health", ["health", "fitness", "medical", "wellness", "healthcare"]),
    ("education", ["education", "learning", "teaching", "training", "course"]),
    ("gaming", ["gaming", "game", "esports", "entertainment"]),
    ("finance", ["finance", "trading", "investment", "accounting", "money"]),
    ("travel", ["travel", "trip", "booking", "tourism", "hotel"]),
    ("customer-service", ["customer service", "support", "help desk", "crm"]),
    ("directory", ["directory", "catalog", "marketplace", "platform"]),
    ("enterprise", ["enterprise", "business", "corporate", "b2b", "saas"])]
  }

  /** The category used when no keyword matches. */
  const DEFAULT_CATEGORY: string := "productivity"

  /** The icon of each category. */
  function Icons(): map<string, string> { map[
    "chat" := "\U{1F4AC}", "image" := "\U{1F3A8}", "video" := "\U{1F3AC}",
    "audio" := "\U{1F3B5}", "code" := "\U{1F4BB}", "writing" := "\U{270D}\U{FE0F}",
    "productivity" := "\U{26A1}", "research" := "\U{1F52C}", "design" := "\U{1F3A8}",
    "dating" := "\U{2764}\U{FE0F}", "health" := "\U{1F3E5}", "education" := "\U{1F4DA}",
    "gaming" := "\U{1F3AE}", "finance" := "\U{1F4B0}", "travel" := "\U{2708}\U{FE0F}",
    "customer-service" := "\U{1F4DE}", "directory" := "\U{1F4C2}",
    "enterprise" := "\U{1F3E2}"]
  }

  /** The icon of anything that is not a category. */
  const ROBOT: string := "\U{1F916}"

  /** One web search hit; an absent description or thumbnail is the empty string. */
  datatype SearchResult = SearchResult(title: string, url: string, description: string, thumbnail: string)

  /** A search hit that passed the page filter, before vetting. */
  datatype Candidate = Candidate(name: string, url: string, description: string, logo: string)

  /**
   * The fields the language model's JSON reply carries. An absent `suggestedCategory` is
   * the empty string (both are falsy in the source); absent `features` is `None`.
   */
  datatype Reply = Reply(
    name: string,
    description: string,
    pricing: string,
    features: Option<seq<string>>,
    isValidAITool: bool,
    suggestedCategory: string)

  // ---------------------------------------------------------------------------
  // Domains and duplicates
  // ---------------------------------------------------------------------------

  /**
   * `extractDomain`: the host name with the FIRST occurrence of "www." removed, wherever
   * it occurs; `None` where the URL does not parse.
   */
  function ExtractDomain(url: string, hostOf: string -> Option<string>): (d: Option<string>)
    ensures d.None? <==> hostOf(url).None?
    ensures d.Some? && !Contains(hostOf(url).value, "www.") ==> d.value == hostOf(url).value
    ensures d.Some? && Contains(hostOf(url).value, "www.") ==>
      var h := hostOf(url).value;
      exists i :: OccursAt(h, "www.", i) && (forall j :: 0 <= j < i ==> !OccursAt(h, "www.", j))
        && d.value == h[..i] + h[i + 4..]
  {
    match hostOf(url)
    case None => None
    case Some(h) => Some(ReplaceFirst(h, "www.", ""))
  }

  /** A leading "www." is the first occurrence, so it is the one removed. */
  lemma LeadingWwwRemoved(url: string, hostOf: string -> Option<string>)
    requires hostOf(url).Some? && StartsWith(hostOf(url).value, "www.")
    ensures ExtractDomain(url, hostOf) == Some(hostOf(url).value[4..])
  {
    var h := hostOf(url).value;
    assert OccursAt(h, "www.", 0);
    assert IndexOf(h, "www.") == Some(0);
    assert h[..0] + "" + h[4..] == h[4..];
  }

  /** `existingTools.some(tool => extractDomain(tool.url) === domain)`. */
  function DomainExists(d: string, known: seq<Tool>, hostOf: string -> Option<string>): (b: bool)
    ensures b <==> exists i :: 0 <= i < |known| && ExtractDomain(known[i].url, hostOf) == Some(d)
  {
    if known == [] then false
    else
      assert forall i :: 1 <= i < |known| ==> known[i] == known[1..][i - 1];
      ExtractDomain(known[0].url, hostOf) == Some(d) || DomainExists(d, known[1..], hostOf)
  }

  /** `existingTools.some(tool => tool.name.toLowerCase() === name.toLowerCase())`. */
  function NameExists(name: string, known: seq<Tool>): (b: bool)
    ensures b <==> exists i :: 0 <= i < |known| && Lower(known[i].name) == Lower(name)
  {
    if known == [] then false
    else
      assert forall i :: 1 <= i < |known| ==> known[i] == known[1..][i - 1];
      Lower(known[0].name) == Lower(name) || NameExists(name, known[1..])
  }

  /**
   * `isDuplicate`: a candidate is rejected when its URL yields no domain or an empty one,
   * when a known tool has the same domain, or when a known tool has the same name up to case.
   */
  function IsDuplicate(url: string, name: string, known: seq<Tool>, hostOf: string -> Option<string>): (dup: bool)
    ensures !dup <==>
      var d := ExtractDomain(url, hostOf);
      && d.Some? && d.value != ""
      && (forall i :: 0 <= i < |known| ==> ExtractDomain(known[i].url, hostOf) != d)
      && (forall i :: 0 <= i < |known| ==> Lower(known[i].name) != Lower(name))
  {
    match ExtractDomain(url, hostOf)
    case None => true
    case Some(d) => d == "" || DomainExists(d, known, hostOf) || NameExists(name, known)
  }

  // ---------------------------------------------------------------------------
  // The category heuristic
  // ---------------------------------------------------------------------------

  /** How many of `keywords` occur in `text`. */
  function Score(text: string, keywords: seq<string>): (n: nat)
    ensures n <= |keywords|
  {
    if keywords == [] then 0
    else (if Contains(text, keywords[0]) then 1 else 0) + Score(text, keywords[1..])
  }

  /**
   * The score is `keywords.filter(k => text.includes(k)).length`, and it is zero exactly
   * when no keyword occurs.
   */
  lemma {:induction false} ScoreCountsMatches(text: string, keywords: seq<string>)
    ensures Score(text, keywords) == |Filter(kw => Contains(text, kw), keywords)|
    ensures Score(text, keywords) == 0 <==> forall k :: 0 <= k < |keywords| ==> !Contains(text, keywords[k])
  {
    if keywords != [] {
      ScoreCountsMatches(text, keywords[1..]);
      assert forall k :: 1 <= k < |keywords| ==> keywords[k] == keywords[1..][k - 1];
    }
  }

  /** The score of the `k`-th category of `table`. */
  function ScoreAt(table: seq<(string, seq<string>)>, text: string, k: nat): nat
    requires k < |table|
  {
    Score(text, table[k].1)
  }

  /** The first of the first `n` categories of `table` with the highest score. */
  function FirstBest(table: seq<(string, seq<string>)>, text: string, n: nat): (k: nat)
    requires 1 <= n <= |table|
    ensures k < n
    ensures forall j :: 0 <= j < n ==> ScoreAt(table, text, j) <= ScoreAt(table, text, k)
    ensures forall j :: 0 <= j < k ==> ScoreAt(table, text, j) < ScoreAt(table, text, k)
  {
    if n == 1 then 0
    else
      var k := FirstBest(table, text, n - 1);
      if ScoreAt(table, text, n - 1) > ScoreAt(table, text, k) then n - 1 else k
  }

  /** `name` is one of the categories of `table`. */
  predicate IsCategoryOf(table: seq<(string, seq<string>)>, name: string) {
    exists k :: 0 <= k < |table| && table[k].0 == name
  }

  /**
   * The category the heuristic picks from `table` for the lower-cased `text`: the first
   * category with the highest positive keyword count, or the default when no keyword occurs.
   */
  function BestCategory(table: seq<(string, seq<string>)>, text: string): (c: string)
    requires |table| > 0
    ensures (forall k :: 0 <= k < |table| ==> ScoreAt(table, text, k) == 0) ==> c == DEFAULT_CATEGORY
    ensures (exists k :: 0 <= k < |table| && ScoreAt(table, text, k) > 0) ==>
      exists k :: 0 <= k < |table| && table[k].0 == c
        && ScoreAt(table, text, k) > 0
        && (forall j :: 0 <= j < |table| ==> ScoreAt(table, text, j) <= ScoreAt(table, text, k))
        && (forall j :: 0 <= j < k ==> ScoreAt(table, text, j) < ScoreAt(table, text, k))
    ensures c == DEFAULT_CATEGORY || IsCategoryOf(table, c)
  {
    var k := FirstBest(table, text, |table|);
    if ScoreAt(table, text, k) == 0 then DEFAULT_CATEGORY else table[k].0
  }

  /** The text the heuristic reads: name, a space and description, lower-cased. */
  function CategoryText(name: string, description: string): string {
    Lower(name + " " + description)
  }

  /** `name` is one of the eighteen categories. */
  predicate IsCategory(name: string) {
    IsCategoryOf(CategoryKeywords(), name)
  }

  /** `determineCategory(name, description)` as a value. */
  function CategoryFor(name: string, description: string): (c: string)
    ensures IsCategory(c)
  {
    var table := CategoryKeywords();
    assert table[6].0 == DEFAULT_CATEGORY;
    BestCategory(table, CategoryText(name, description))
  }

  /** `determineCategory`: scores each category in table order and keeps the first strict best. */
  method DetermineCategory(name: string, description: string) returns (bestMatch: string)
    ensures bestMatch == BestCategory(CategoryKeywords(), CategoryText(name, description))
  {
    bestMatch := ScanCategories(CategoryKeywords(), CategoryText(name, description));
  }

  /** The loop of `determineCategory` over any non-empty table, starting from the default. */
  method ScanCategories(table: seq<(string, seq<string>)>, text: string) returns (bestMatch: string)
    requires |table| > 0
    ensures bestMatch == BestCategory(table, text)
  {
    bestMatch := DEFAULT_CATEGORY;
    var highestScore := 0;
    for i := 0 to |table|
      invariant i == 0 ==> highestScore == 0 && bestMatch == DEFAULT_CATEGORY
      invariant i > 0 ==> highestScore == ScoreAt(table, text, FirstBest(table, text, i))
      invariant i > 0 && highestScore == 0 ==> bestMatch == DEFAULT_CATEGORY
      invariant i > 0 && highestScore > 0 ==> bestMatch == table[FirstBest(table, text, i)].0
    {
      var score := Score(text, table[i].1);
      if score > highestScore {
        highestScore := score;
        bestMatch := table[i].0;
      }
    }
  }

  /** The keyword "IDE" is upper-case and the text is lower-cased, so it never counts. */
  lemma UpperCaseKeywordNeverMatches(name: string, description: string)
    ensures !Contains(CategoryText(name, description), "IDE")
  {
    var text := CategoryText(name, description);
    forall i | 0 <= i && i + 3 <= |text| ensures !OccursAt(text, "IDE", i) {
      assert text[i..i + 3][0] == text[i] == LowerChar((name + " " + description)[i]);
    }
  }

  // ---------------------------------------------------------------------------
  // Icons
  // ---------------------------------------------------------------------------

  /** `getIconForCategory`. */
  function IconFor(category: string): (icon: string)
    ensures category in Icons() ==> icon == Icons()[category]
    ensures category !in Icons() ==> icon == ROBOT
  {
    if category in Icons() then Icons()[category] else ROBOT
  }

  /** Every category of the keyword table has an icon of its own, not the robot. */
  lemma EveryCategoryHasIcon()
    ensures forall c :: IsCategory(c) ==> IconFor(c) != ROBOT
  {
    var table := CategoryKeywords();
    forall k | 0 <= k < |table| ensures table[k].0 in Icons() && Icons()[table[k].0] != ROBOT {
      if k < 9 {
        IconsOfFirstHalf(k);
      } else {
        IconsOfSecondHalf(k);
      }
    }
  }

  /** The first nine categories have an icon other than the robot. */
  lemma IconsOfFirstHalf(k: nat)
    requires k < 9
    ensures CategoryKeywords()[k].0 in Icons() && Icons()[CategoryKeywords()[k].0] != ROBOT
  {
    assert k < 3 || 3 <= k < 6 || 6 <= k;
  }

  /** The last nine categories have an icon other than the robot. */
  lemma IconsOfSecondHalf(k: nat)
    requires 9 <= k < 18
    ensures CategoryKeywords()[k].0 in Icons() && Icons()[CategoryKeywords()[k].0] != ROBOT
  {
    assert k < 12 || 12 <= k < 15 || 15 <= k;
  }

  /** A missing suggestion (the empty string) is not a category and gets the robot. */
  lemma NoSuggestionNoIcon()
    ensures !IsCategory("") && IconFor("") == ROBOT
  {
  }

  // ---------------------------------------------------------------------------
  // Candidates
  // ---------------------------------------------------------------------------

  /** The lower-cased URL mentions one of the six excluded sites. */
  predicate IsExcludedSite(url: string) {
    || Contains(url, "wikipedia.org")
    || Contains(url, "youtube.com")
    || Contains(url, "reddit.com")
    || Contains(url, "linkedin.com")
    || Contains(url, "twitter.com")
    || Contains(url, "facebook.com")
  }

  /** A listicle: the lower-cased title says best/top/list and the URL does not end in .ai/.io/.com. */
  predicate IsListPage(title: string, url: string) {
    && (Contains(title, "best") || Contains(title, "top") || Contains(title, "list"))
    && !(EndsWith(url, ".ai") || EndsWith(url, ".io") || EndsWith(url, ".com"))
  }

  /** The search hit survives the page filter. */
  predicate Keep(r: SearchResult) {
    !IsExcludedSite(Lower(r.url)) && !IsListPage(Lower(r.title), Lower(r.url))
  }

  /** A character the name cleanup keeps: `\w`, `\s` or '-'. */
  predicate IsNameChar(c: char) {
    IsWordChar(c) || IsSpace(c) || c == '-'
  }

  /** The candidate name: the title without other characters, trimmed. */
  function CandidateName(title: string): string {
    Trim(Filter(IsNameChar, title))
  }

  /** A candidate name holds only word characters, white space and '-', and no white space at its ends. */
  lemma CandidateNameChars(title: string)
    ensures forall k :: 0 <= k < |CandidateName(title)| ==> IsNameChar(CandidateName(title)[k])
    ensures var name := CandidateName(title); name == [] || (!IsSpace(name[0]) && !IsSpace(name[|name| - 1]))
  {
    TrimKeepsAll(Filter(IsNameChar, title), IsNameChar);
  }

  /** The candidate made from a kept search hit. */
  function CandidateOf(r: SearchResult): Candidate {
    Candidate(CandidateName(r.title), r.url, r.description, r.thumbnail)
  }

  /** The candidates of `rs`, in order: one per kept hit. */
  function Candidates(rs: seq<SearchResult>): (cs: seq<Candidate>)
    ensures |cs| <= |rs|
  {
    if rs == [] then []
    else if Keep(rs[0]) then [CandidateOf(rs[0])] + Candidates(rs[1..])
    else Candidates(rs[1..])
  }

  /** `extractCandidates`. */
  method ExtractCandidates(searchResults: seq<SearchResult>) returns (candidates: seq<Candidate>)
    ensures candidates == Candidates(searchResults)
  {
    candidates := [];
    for i := 0 to |searchResults|
      invariant candidates + Candidates(searchResults[i..]) == Candidates(searchResults)
    {
      assert searchResults[i..][1..] == searchResults[i + 1..];
      var result := searchResults[i];
      var url := Lower(result.url);
      var title := Lower(result.title);
      if IsExcludedSite(url) {
        continue;
      }
      if IsListPage(title, url) {
        continue;
      }
      candidates := candidates + [CandidateOf(result)];
    }
    assert searchResults[|searchResults|..] == [];
  }

  /** The candidates are the kept hits, in order, each made into a candidate. */
  lemma {:induction false} CandidatesFilterMap(rs: seq<SearchResult>)
    ensures Candidates(rs) == Map(CandidateOf, Filter(Keep, rs))
  {
    if rs != [] {
      CandidatesFilterMap(rs[1..]);
      if Keep(rs[0]) {
        MapCons(CandidateOf, rs[0], Filter(Keep, rs[1..]));
      }
    }
  }

  /** Every candidate is made from a kept hit, so none points at an excluded site. */
  lemma CandidatesSound(rs: seq<SearchResult>, j: nat)
    requires j < |Candidates(rs)|
    ensures exists i :: 0 <= i < |rs| && Keep(rs[i]) && Candidates(rs)[j] == CandidateOf(rs[i])
    ensures !IsExcludedSite(Lower(Candidates(rs)[j].url))
  {
    CandidatesFilterMap(rs);
    var kept := Filter(Keep, rs);
    FilterSource(Keep, rs, j);
    var i :| 0 <= i < |rs| && rs[i] == kept[j];
    assert Keep(rs[i]) && Candidates(rs)[j] == CandidateOf(rs[i]);
  }

  /** Every kept hit yields a candidate. */
  lemma {:induction false} CandidatesComplete(rs: seq<SearchResult>)
    ensures forall i :: 0 <= i < |rs| && Keep(rs[i]) ==> CandidateOf(rs[i]) in Candidates(rs)
  {
    if rs != [] {
      CandidatesComplete(rs[1..]);
      assert forall i :: 1 <= i < |rs| ==> rs[i] == rs[1..][i - 1];
    }
  }

  // ---------------------------------------------------------------------------
  // Vetting
  // ---------------------------------------------------------------------------

  /**
   * `normalizeWithGroq` after the reply is parsed: `None` stands for a failed request or an
   * unparsable reply, both of which the source turns into `null` too.
   */
  function NormalizeReply(c: Candidate, reply: Option<Reply>): (t: Option<Tool>)
    ensures t.None? <==> reply.None? || !reply.value.isValidAITool
    ensures t.Some? ==> t.value.url == c.url && t.value.logo == c.logo
    ensures t.Some? ==> t.value.name == reply.value.name && t.value.pricing == reply.value.pricing
    ensures t.Some? ==> t.value.description == reply.value.description
    ensures t.Some? && reply.value.suggestedCategory != "" ==> t.value.category == reply.value.suggestedCategory
    ensures t.Some? && reply.value.suggestedCategory == "" ==> IsCategory(t.value.category)
    ensures t.Some? ==> t.value.icon == IconFor(reply.value.suggestedCategory)
    ensures t.Some? && reply.value.features.None? ==> t.value.features == []
    ensures t.Some? && reply.value.features.Some? ==> t.value.features == reply.value.features.value
    ensures t.Some? ==> t.value.popularity.None? && t.value.dateAdded.None?
  {
    match reply
    case None => None
    case Some(r) =>
      if !r.isValidAITool then None
      else
        Some(Tool(
          name := r.name,
          category := if r.suggestedCategory != "" then r.suggestedCategory else CategoryFor(r.name, r.description),
          description := r.description,
          pricing := r.pricing,
          features := r.features.GetOr([]),
          url := c.url,
          logo := c.logo,
          icon := IconFor(r.suggestedCategory),
          popularity := None,
          dateAdded := None))
  }

  /** A reply that suggests no category gets a heuristic category but the robot icon. */
  lemma MissingSuggestionGetsRobot(c: Candidate, r: Reply)
    requires r.isValidAITool && r.suggestedCategory == ""
    ensures NormalizeReply(c, Some(r)).value.category == CategoryFor(r.name, r.description)
    ensures NormalizeReply(c, Some(r)).value.icon == ROBOT
  {
    NoSuggestionNoIcon();
  }

  // ---------------------------------------------------------------------------
  // The run
  // ---------------------------------------------------------------------------

  /** `parseInt(process.argv[2]) || 3`: a missing, unparsable or zero argument gives 3. */
  function MaxPerQueryArgument(parsed: Option<int>): (m: int)
    ensures m != 0
    ensures parsed.Some? && parsed.value != 0 ==> m == parsed.value
    ensures parsed.None? || parsed.value == 0 ==> m == 3
  {
    if parsed.None? || parsed.value == 0 then 3 else parsed.value
  }

  /** How many tools one query may add: `maxPerQuery` when positive, none otherwise. */
  function Cap(maxPerQuery: int): nat {
    if maxPerQuery > 0 then maxPerQuery else 0
  }

  function Sum(s: seq<nat>): nat {
    if s == [] then 0 else Sum(s[..|s| - 1]) + s[|s| - 1]
  }

  /** A sum of `|s|` terms each at most `cap` is at most `|s| * cap`. */
  lemma {:induction false} SumBound(s: seq<nat>, cap: nat)
    requires forall q :: 0 <= q < |s| ==> s[q] <= cap
    ensures Sum(s) <= |s| * cap
  {
    if s != [] {
      SumBound(s[..|s| - 1], cap);
      assert |s| * cap == (|s| - 1) * cap + cap;
    }
  }

  /**
   * Every new tool is the vetted form of a candidate that was not a duplicate of the
   * directory plus the tools accepted before it.
   */
  ghost predicate Accepted(existing: seq<Tool>, newTools: seq<Tool>, sources: seq<Candidate>,
                           classify: Candidate -> Option<Reply>, hostOf: string -> Option<string>)
  {
    && |sources| == |newTools|
    && forall j :: 0 <= j < |newTools| ==>
         && NormalizeReply(sources[j], classify(sources[j])) == Some(newTools[j])
         && !IsDuplicate(sources[j].url, sources[j].name, existing + newTools[..j], hostOf)
  }

  lemma AcceptedSnoc(existing: seq<Tool>, newTools: seq<Tool>, sources: seq<Candidate>,
                     classify: Candidate -> Option<Reply>, hostOf: string -> Option<string>,
                     c: Candidate, t: Tool)
    requires Accepted(existing, newTools, sources, classify, hostOf)
    requires NormalizeReply(c, classify(c)) == Some(t)
    requires !IsDuplicate(c.url, c.name, existing + newTools, hostOf)
    ensures Accepted(existing, newTools + [t], sources + [c], classify, hostOf)
  {
    var n := newTools + [t];
    assert n[..|newTools|] == newTools;
    forall j | 0 <= j < |newTools| ensures n[..j] == newTools[..j] { }
  }

  /** A domain that is present, not empty, and not the domain of any tool in `known`. */
  ghost predicate FreshDomain(url: string, known: seq<Tool>, hostOf: string -> Option<string>) {
    var d := ExtractDomain(url, hostOf);
    && d.Some? && d.value != ""
    && forall i :: 0 <= i < |known| ==> ExtractDomain(known[i].url, hostOf) != d
  }

  /** What `Accepted` says about each new tool: its domain is fresh, and it carries no scores yet. */
  lemma AcceptedToolsFresh(existing: seq<Tool>, newTools: seq<Tool>, sources: seq<Candidate>,
                           classify: Candidate -> Option<Reply>, hostOf: string -> Option<string>)
    requires Accepted(existing, newTools, sources, classify, hostOf)
    ensures forall j :: 0 <= j < |newTools| ==> FreshDomain(newTools[j].url, existing + newTools[..j], hostOf)
    ensures forall j :: 0 <= j < |newTools| ==> newTools[j].popularity.None? && newTools[j].dateAdded.None?
  {
    forall j | 0 <= j < |newTools|
      ensures FreshDomain(newTools[j].url, existing + newTools[..j], hostOf)
      ensures newTools[j].popularity.None? && newTools[j].dateAdded.None?
    {
      assert NormalizeReply(sources[j], classify(sources[j])) == Some(newTools[j]);
    }
  }

  /**
   * The tools `found` so far followed by those vetted from `candidates`, when `added` tools
   * came from the current query already: stop at the cap, skip duplicates of the directory
   * and of the tools found so far, skip what the model rejects, append the rest.
   */
  function VetFrom(
    existing: seq<Tool>, found: seq<Tool>, added: nat, candidates: seq<Candidate>, maxPerQuery: int,
    classify: Candidate -> Option<Reply>, hostOf: string -> Option<string>): (r: seq<Tool>)
    ensures |found| <= |r| && r[..|found|] == found
    ensures |r| <= |found| + |candidates|
    ensures |r| - |found| + added <= if added < maxPerQuery then maxPerQuery else added
    decreases |candidates|
  {
    if candidates == [] || added >= maxPerQuery then found
    else
      var c := candidates[0];
      if IsDuplicate(c.url, c.name, existing + found, hostOf) then
        VetFrom(existing, found, added, candidates[1..], maxPerQuery, classify, hostOf)
      else
        match NormalizeReply(c, classify(c))
        case None => VetFrom(existing, found, added, candidates[1..], maxPerQuery, classify, hostOf)
        case Some(t) =>
          var r := VetFrom(existing, found + [t], added + 1, candidates[1..], maxPerQuery, classify, hostOf);
          assert r[..|found|] == r[..|found| + 1][..|found|];
          r
  }

  /** The tools one run adds after the queries in `queries`, each vetted against those before it. */
  function Discovered(
    existing: seq<Tool>, maxPerQuery: int, search: string -> seq<SearchResult>,
    classify: Candidate -> Option<Reply>, hostOf: string -> Option<string>, queries: seq<string>): (r: seq<Tool>)
    ensures |r| <= |queries| * Cap(maxPerQuery)
  {
    if queries == [] then []
    else
      var before := Discovered(existing, maxPerQuery, search, classify, hostOf, queries[..|queries| - 1]);
      var r := VetFrom(existing, before, 0, Candidates(search(queries[|queries| - 1])), maxPerQuery, classify, hostOf);
      assert |queries| * Cap(maxPerQuery) == (|queries| - 1) * Cap(maxPerQuery) + Cap(maxPerQuery);
      r
  }

  /**
   * The inner loop of `discoverNewTools` for one query: walks the query's candidates,
   * stops once `maxPerQuery` tools were added, counts duplicates against the directory and
   * the tools found so far, and appends each candidate the model accepts.
   */
  method VetCandidates(
    existing: seq<Tool>, found: seq<Tool>, ghost foundSources: seq<Candidate>,
    candidates: seq<Candidate>, maxPerQuery: int,
    classify: Candidate -> Option<Reply>, hostOf: string -> Option<string>)
    returns (newTools: seq<Tool>, ghost sources: seq<Candidate>, addedFromQuery: nat, duplicates: nat)
    requires Accepted(existing, found, foundSources, classify, hostOf)
    ensures Accepted(existing, newTools, sources, classify, hostOf)
    ensures |newTools| == |found| + addedFromQuery
    ensures addedFromQuery <= Cap(maxPerQuery)
    ensures duplicates + addedFromQuery <= |candidates|
    ensures newTools == VetFrom(existing, found, 0, candidates, maxPerQuery, classify, hostOf)
  {
    newTools, sources := found, foundSources;
    addedFromQuery, duplicates := 0, 0;
    for j := 0 to |candidates|
      invariant addedFromQuery <= Cap(maxPerQuery)
      invariant |newTools| == |found| + addedFromQuery
      invariant duplicates + addedFromQuery <= j
      invariant Accepted(existing, newTools, sources, classify, hostOf)
      invariant VetFrom(existing, newTools, addedFromQuery, candidates[j..], maxPerQuery, classify, hostOf)
             == VetFrom(existing, found, 0, candidates, maxPerQuery, classify, hostOf)
    {
      if addedFromQuery >= maxPerQuery {
        break;
      }
      var candidate := candidates[j];
      assert candidates[j..][0] == candidate && candidates[j..][1..] == candidates[j + 1..];
      if IsDuplicate(candidate.url, candidate.name, existing + newTools, hostOf) {
        duplicates := duplicates + 1;
        continue;
      }
      var normalized := NormalizeReply(candidate, classify(candidate));
      if normalized.Some? {
        AcceptedSnoc(existing, newTools, sources, classify, hostOf, candidate, normalized.value);
        newTools := newTools + [normalized.value];
        sources := sources + [candidate];
        addedFromQuery := addedFromQuery + 1;
      }
    }
  }

  /**
   * The query loop of `discoverNewTools` over `queries`: each query's candidates are vetted
   * against the directory and the tools found for the queries before it.
   */
  method RunQueries(
    existing: seq<Tool>, queries: seq<string>, maxPerQuery: int,
    search: string -> seq<SearchResult>,
    classify: Candidate -> Option<Reply>,
    hostOf: string -> Option<string>)
    returns (newTools: seq<Tool>, totalCandidates: nat, duplicates: nat,
             ghost sources: seq<Candidate>, ghost perQuery: seq<nat>)
    ensures newTools == Discovered(existing, maxPerQuery, search, classify, hostOf, queries)
    ensures Accepted(existing, newTools, sources, classify, hostOf)
    ensures |perQuery| == |queries| && Sum(perQuery) == |newTools|
    ensures forall q :: 0 <= q < |perQuery| ==> perQuery[q] <= Cap(maxPerQuery)
    ensures duplicates + |newTools| <= totalCandidates
  {
    newTools, sources := [], [];
    totalCandidates, duplicates := 0, 0;
    perQuery := [];
    for i := 0 to |queries|
      invariant |perQuery| == i && Sum(perQuery) == |newTools|
      invariant forall q :: 0 <= q < i ==> perQuery[q] <= Cap(maxPerQuery)
      invariant duplicates + |newTools| <= totalCandidates
      invariant Accepted(existing, newTools, sources, classify, hostOf)
      invariant newTools == Discovered(existing, maxPerQuery, search, classify, hostOf, queries[..i])
    {
      assert queries[..i + 1][..i] == queries[..i];
      var results := search(queries[i]);
      var candidates := ExtractCandidates(results);
      totalCandidates := totalCandidates + |candidates|;
      var addedFromQuery, skipped;
      newTools, sources, addedFromQuery, skipped :=
        VetCandidates(existing, newTools, sources, candidates, maxPerQuery, classify, hostOf);
      duplicates := duplicates + skipped;
      assert (perQuery + [addedFromQuery])[..i] == perQuery;
      perQuery := perQuery + [addedFromQuery];
    }
    assert queries[..|queries|] == queries;
  }

  /**
   * `discoverNewTools`, after the API-key check. `search` stands for the web search (an
   * error gives an empty list), `classify` for the language model (an error gives `None`).
   * `saved` is the array written to the directory file, if one is written.
   */
  method DiscoverNewTools(
    existing: seq<Tool>, maxPerQuery: int,
    search: string -> seq<SearchResult>,
    classify: Candidate -> Option<Reply>,
    hostOf: string -> Option<string>)
    returns (newTools: seq<Tool>, saved: Option<seq<Tool>>, totalCandidates: nat, duplicates: nat,
             ghost sources: seq<Candidate>, ghost perQuery: seq<nat>)
    ensures newTools == Discovered(existing, maxPerQuery, search, classify, hostOf, SearchQueries())
    ensures Accepted(existing, newTools, sources, classify, hostOf)
    ensures forall j :: 0 <= j < |newTools| ==> FreshDomain(newTools[j].url, existing + newTools[..j], hostOf)
    ensures forall j :: 0 <= j < |newTools| ==> newTools[j].popularity.None? && newTools[j].dateAdded.None?
    ensures |perQuery| == |SearchQueries()| && Sum(perQuery) == |newTools|
    ensures forall q :: 0 <= q < |perQuery| ==> perQuery[q] <= Cap(maxPerQuery)
    ensures |newTools| <= |SearchQueries()| * Cap(maxPerQuery)
    ensures duplicates + |newTools| <= totalCandidates
    ensures saved.Some? <==> |newTools| > 0
    ensures saved.Some? ==> saved.value == SortByCategoryName(existing + newTools)
  {
    newTools, totalCandidates, duplicates, sources, perQuery :=
      RunQueries(existing, SearchQueries(), maxPerQuery, search, classify, hostOf);
    SumBound(perQuery, Cap(maxPerQuery));
    AcceptedToolsFresh(existing, newTools, sources, classify, hostOf);
    if |newTools| > 0 {
      saved := Some(SortByCategoryName(existing + newTools));
    } else {
      saved := None;
    }
  }

  /** The domains added by one run differ from each other and from the directory's. */
  lemma NewDomainsDistinct(existing: seq<Tool>, newTools: seq<Tool>, hostOf: string -> Option<string>)
    requires forall j :: 0 <= j < |newTools| ==> FreshDomain(newTools[j].url, existing + newTools[..j], hostOf)
    ensures forall j, k :: 0 <= j < k < |newTools| ==>
      ExtractDomain(newTools[j].url, hostOf) != ExtractDomain(newTools[k].url, hostOf)
    ensures forall j, i :: 0 <= j < |newTools| && 0 <= i < |existing| ==>
      ExtractDomain(newTools[j].url, hostOf) != ExtractDomain(existing[i].url, hostOf)
  {
    forall j, k | 0 <= j < k < |newTools|
      ensures ExtractDomain(newTools[j].url, hostOf) != ExtractDomain(newTools[k].url, hostOf)
    {
      assert FreshDomain(newTools[k].url, existing + newTools[..k], hostOf);
      assert (existing + newTools[..k])[|existing| + j] == newTools[j];
    }
    forall j, i | 0 <= j < |newTools| && 0 <= i < |existing|
      ensures ExtractDomain(newTools[j].url, hostOf) != ExtractDomain(existing[i].url, hostOf)
    {
      assert FreshDomain(newTools[j].url, existing + newTools[..j], hostOf);
      assert (existing + newTools[..j])[i] == existing[i];
    }
  }
}
