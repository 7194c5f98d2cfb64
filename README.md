# categorais: the directory's heuristics, in Dafny

categorais is a directory of AI tools. A JSON file holds the tool records (name,
category, description, pricing, features, URL, logo, icon, and optionally a popularity
score and the date the tool was added). A web page shows them. A handful of Node
scripts fill and repair the file:

- a discovery agent that searches the web and asks a language model to vet candidates;
- two description fixers;
- two backfill scripts;
- a script that stamps test dates.

This project models the logic of those programs and proves properties about it. It
leaves out the network, file and DOM plumbing around that logic.

Modules:

| module | file | what it models |
|---|---|---|
| `Wrappers` | wrappers.dfy | `Option` |
| `Seqs` | seqs.dfy | `filter`, `slice(0, n)`, `map` on sequences, with their lemmas |
| `Text` | text.dfy | the string built-ins used: `toLowerCase` (ASCII), `includes`, `startsWith`, `endsWith`, `trim` (the JS white-space set), `split`, `join`, the first-occurrence `replace` |
| `ToolRecords` | tool_records.dfy | the tool record and `findIndex(t => t.name === name)` |
| `Rewrites` | rewrites.dfy | the "find the entry by name, update one field" loop shared by two scripts, as a specification over the work list |
| `ToolOrder` | tool_order.dfy | the comparator of the discovery agent's final sort (category, then name) and a sort by it |
| `Discovery` | discovery.dfy | `ai-discovery-agent.js` |
| `App` | app.dfy | `app.js` |
| `Cleanup` | cleanup.dfy | `cleanup-descriptions.js` |
| `QuickFix` | quick_fix.dfy | `quick-fix-descriptions.js` |
| `Popularity` | popularity.dfy | `backfill-popularity.js` |
| `Dates` | dates.dfy | `backfill-dates.js` |
| `RecentTest` | recent_test.dfy | `test-recent-tools.js` |

How each kind of code is modelled:

- The JSON tool array that a script updates in place is an `array<Tool>`. The script's
  loop is a method over that array. Its `ensures` gives the new contents as a function
  of the old ones, and lemmas about that function state what changes and what does not.
- The page's module-level state (`allTools`, `currentCategory`, `searchQuery`) is the
  class `App.Page`.
- Pure helpers are functions.
- Everything the programs fetch is a function parameter (an oracle):
  - the web search;
  - the language model's reply;
  - the search-result count;
  - the host name of a URL;
  - the clock, as `now` in milliseconds.
- Timestamps are integer milliseconds.
- A missing description, suggested category or thumbnail is the empty string. Where the
  source only tests the field for truth, absent and empty behave alike. Where it calls a
  method on the field, a missing one throws; "## Left out" lists those places.

## Model

| member | source | states |
|---|---|---|
| ToolRecords.FindByName | cleanup-descriptions.js:141 | `findIndex` by name: -1 iff no entry has the name, otherwise the first entry carrying it |
| ToolRecords.FindByNameUnique | backfill-popularity.js:124 | with unique names, looking up an entry's name finds that entry |
| ToolRecords.FindByNameSameNames | backfill-popularity.js:124-126 | rewriting fields other than the name never moves the lookup |
| Rewrites.WriteBack | backfill-popularity.js:112-129 | the array after the work list is written back entry by entry; its length is unchanged |
| Rewrites.WriteBackKeeps | backfill-popularity.js:126 | whatever one update leaves alone stays the same in every entry after the whole loop |
| Rewrites.WriteBackNames | cleanup-descriptions.js:141-143 | updates that keep names keep every entry's name |
| Rewrites.WriteBackFinds | cleanup-descriptions.js:141-142 | a tool taken from the array is always found again, so the `toolIndex !== -1` guard always holds |
| Rewrites.WriteBackNext | backfill-popularity.js:124-126 | one loop step: the lookup lands inside the array, and the write there extends the specification by one tool |
| Rewrites.WriteBackUntouched | cleanup-descriptions.js:141-143 | an entry that is not the first with its name, or whose name is not in the work list, is never written |
| Rewrites.WriteBackStep | backfill-popularity.js:124-126 | with unique names, a tool's write lands on the tool's own index |
| Rewrites.WriteBackUnique | backfill-popularity.js:112-129 | with unique names, exactly the entries in the work list receive their update and the others are unchanged |
| ToolOrder.StrLeTotal | ai-discovery-agent.js:410-412 | the string order standing for `localeCompare` is total |
| ToolOrder.StrLeAntisymmetric | ai-discovery-agent.js:410-412 | the string order is antisymmetric |
| ToolOrder.StrLeTransitive | ai-discovery-agent.js:410-412 | the string order is transitive |
| ToolOrder.ToolLeTotal | ai-discovery-agent.js:408-413 | the (category, name) comparator orders any two tools |
| ToolOrder.ToolLeTransitive | ai-discovery-agent.js:408-413 | the (category, name) comparator is transitive |
| ToolOrder.Insert | ai-discovery-agent.js:408-413 | one insertion step adds exactly the inserted tool (a multiset) |
| ToolOrder.InsertKeepsOrder | ai-discovery-agent.js:408-413 | inserting into a sequence ordered by (category, name) keeps it ordered |
| ToolOrder.SortByCategoryName | ai-discovery-agent.js:405-413 | the saved list is a permutation of its input, ordered by category and then name |
| Discovery.ExtractDomain | ai-discovery-agent.js:129-136 | `None` iff the URL does not parse; otherwise the host with its first "www." removed wherever it occurs, or the host itself when there is none |
| Discovery.LeadingWwwRemoved | ai-discovery-agent.js:132 | a leading "www." is the occurrence that is removed |
| Discovery.DomainExists | ai-discovery-agent.js:146-149 | true iff some known tool's URL has the same domain |
| Discovery.NameExists | ai-discovery-agent.js:152-154 | true iff some known tool has the same lower-cased name |
| Discovery.IsDuplicate | ai-discovery-agent.js:141-157 | not a duplicate iff the domain exists, is not empty, and matches no known tool's domain and no known tool's name up to case |
| Discovery.Score | ai-discovery-agent.js:168 | a category's score is at most its keyword count |
| Discovery.ScoreCountsMatches | ai-discovery-agent.js:168 | the score is the length of the filtered keyword list, and it is 0 iff no keyword occurs |
| Discovery.FirstBest | ai-discovery-agent.js:167-173 | the index of the highest score among the first n categories, and no earlier category reaches it (ties go to the first) |
| Discovery.BestCategory | ai-discovery-agent.js:162-175 | 'productivity' when every score is 0; otherwise a category with the maximal, positive score that no earlier category ties; always 'productivity' or a table key |
| Discovery.CategoryFor | ai-discovery-agent.js:162-175 | `determineCategory` always returns one of the eighteen categories |
| Discovery.DetermineCategory | ai-discovery-agent.js:162-176 | the method over the category table returns `BestCategory` of the lower-cased "name description" |
| Discovery.ScanCategories | ai-discovery-agent.js:164-173 | the strict-`>` loop over any non-empty table computes `BestCategory` |
| Discovery.UpperCaseKeywordNeverMatches | ai-discovery-agent.js:56 | the keyword "IDE" never occurs in the lower-cased text |
| Discovery.IconFor | ai-discovery-agent.js:263-285 | the table icon for one of the eighteen table keys, the robot for any other string |
| Discovery.EveryCategoryHasIcon | ai-discovery-agent.js:51-70 | every category of the keyword table has an icon other than the robot |
| Discovery.IconsOfFirstHalf | ai-discovery-agent.js:52-60 | the first nine categories have an icon other than the robot |
| Discovery.IconsOfSecondHalf | ai-discovery-agent.js:61-69 | the last nine categories have an icon other than the robot |
| Discovery.NoSuggestionNoIcon | ai-discovery-agent.js:284 | a missing suggestion is not a category and gets the robot |
| Discovery.CandidateNameChars | ai-discovery-agent.js:317 | a candidate name holds only word characters, white space and '-', and has no white space at its ends |
| Discovery.Candidates | ai-discovery-agent.js:290-325 | no more candidates than search results |
| Discovery.ExtractCandidates | ai-discovery-agent.js:290-325 | the `for` loop with its two `continue`s computes `Candidates` |
| Discovery.CandidatesFilterMap | ai-discovery-agent.js:290-325 | the candidates are the kept results, in order, each turned into a candidate |
| Discovery.CandidatesSound | ai-discovery-agent.js:299-314 | every candidate comes from a kept result, so none points at one of the six excluded sites |
| Discovery.CandidatesComplete | ai-discovery-agent.js:293-321 | every kept result yields a candidate |
| Discovery.NormalizeReply | ai-discovery-agent.js:238-252 | null iff there is no reply or it is not a valid AI tool; otherwise the reply's name, description and pricing; the candidate's URL and logo; the suggested category, or the heuristic's when none is suggested; the icon of the suggestion; the reply's features, or [] when it has none; no popularity or date |
| Discovery.MissingSuggestionGetsRobot | ai-discovery-agent.js:245-247 | without a suggestion the category comes from the heuristic but the icon is the robot |
| Discovery.MaxPerQueryArgument | ai-discovery-agent.js:424 | `parseInt(arg) \|\| 3`: 3 for a missing, unparsable or zero argument, otherwise the number |
| Discovery.SumBound | ai-discovery-agent.js:356-384 | per-query counts bounded by the cap sum to at most the number of queries times the cap |
| Discovery.AcceptedSnoc | ai-discovery-agent.js:365-378 | appending a vetted, non-duplicate candidate keeps every new tool accepted |
| Discovery.AcceptedToolsFresh | ai-discovery-agent.js:358-378 | each accepted tool's domain differs from those of the directory and of the tools accepted before it, because the checked URL is the stored URL |
| Discovery.VetFrom | ai-discovery-agent.js:356-384 | the vetted list extends the tools found so far, adds at most one tool per candidate, and never goes past the per-query cap |
| Discovery.VetCandidates | ai-discovery-agent.js:356-384 | the new list is exactly `VetFrom` of the query's candidates: the earlier tools followed by the accepted candidates in order; one query adds at most `maxPerQuery` tools (none when it is not positive), all accepted; duplicates plus additions never exceed the candidates |
| Discovery.Discovered | ai-discovery-agent.js:345-387 | the tools of a run over some queries number at most the queries times the per-query cap |
| Discovery.RunQueries | ai-discovery-agent.js:345-387 | the query loop's tools are exactly `Discovered` over its queries, all accepted; the per-query counts sum to them and each is at most the cap |
| Discovery.DiscoverNewTools | ai-discovery-agent.js:338-419 | the new tools are exactly `Discovered` over the search queries; the per-query counts sum to the new tools; each is at most the cap; every new tool has a fresh domain; a file is saved iff a tool was found, and it is the directory plus the new tools sorted by (category, name) |
| Discovery.NewDomainsDistinct | ai-discovery-agent.js:365 | the domains added by one run differ from each other and from the directory's |
| App.Visible | app.js:40-50 | `filterTools`: an order-preserving subsequence holding exactly the tools that match the category chip and the search text, each as often as in the list; everything for 'all' and an empty query |
| App.RecentlyAdded | app.js:88-97 | an order-preserving subsequence holding exactly the tools whose `dateAdded` is at or after now minus 24 hours (never a tool without a date), each as often as in the list |
| App.Capitalize | app.js:83 | capitalising a word (ASCII letters only) keeps its length |
| App.Titled | app.js:81-84 | the generated title keeps the length of the category |
| App.TitledWord | app.js:83 | a single word is titled by capitalising it |
| App.TitledAtHyphen | app.js:82-84 | titling at the first hyphen: the first word capitalised, a space, the rest titled |
| App.CapitalizedWords | app.js:81-84 | split on '-', capitalise, join with ' ' is exactly titling |
| App.GeneratedDisplayName | app.js:53-85 | a category outside the eighteen custom names shows as "AI " plus its hyphen-separated words, capitalised and joined by spaces |
| App.FirstSeen | app.js:134-138 | the row order lists each category once |
| App.FirstSeenCategories | app.js:134-138 | the row order holds exactly the categories of the filtered tools |
| App.RowsSnoc | app.js:135-137 | pushing a tool adds it to exactly its own row |
| App.FilterAbsentCategory | app.js:136 | a category no tool has gets no tools |
| App.RowsPermute | app.js:134-138 | the rows together are a permutation of the filtered list |
| App.PushedIntoOwnRow | app.js:137 | a push grows only the pushed tool's category |
| App.NewRow | app.js:136-137 | the first tool of a category starts a row of its own |
| App.GroupStep | app.js:135-138 | one iteration of the grouping loop keeps the grouping invariant |
| App.GroupByCategory | app.js:134-138 | `grouped[c]` is the filtered tools of category c in list order, and the key order is the order of first appearance |
| App.KeyHits | app.js:398-405 | every tool gathered for the matched keys comes from the directory |
| App.DistinctNames | app.js:408 | the names of a list, each once, in first-appearance order |
| App.LastNamed | app.js:408 | the tool `new Map` keeps for a name is a tool of the list with that name |
| App.LastNamedIsLast | app.js:408 | that tool is the last one with the name |
| App.DedupeByName | app.js:408 | de-duplication gives no more tools than it is given, all from the input, with no name twice |
| App.DedupeKeepsEveryName | app.js:408 | every name of the input survives |
| App.DedupeKeepsLast | app.js:408 | the tool kept for a name is the last one carrying it |
| App.PricingInsert | app.js:412-418 | one insertion step of the pricing sort adds exactly the inserted tool |
| App.PricingSort | app.js:412-418 | the pricing sort permutes its input |
| App.TwoPositions | app.js:408 | a tool at two positions occurs at least twice |
| App.UniqueNamesOnce | app.js:408 | in a list with unique names no tool occurs twice |
| App.DifferentToolsDifferentNames | app.js:408 | two different tools of such a list have different names |
| App.PermutationKeepsUniqueNames | app.js:408-418 | sorting a list with unique names keeps the names unique |
| App.PicksBounded | app.js:389-409 | before sorting: at most 6 tools, all from the directory, and no name twice in the keyword branch |
| App.RecommendationsBounded | app.js:351-421 | `getLocalAIRecommendations` returns at most 6 tools, all from the directory, with no name twice when the query matched the keyword table |
| App.MatchCategories | app.js:382-387 | the loop over the keyword table collects exactly the keys whose words the query mentions, in table order |
| App.GatherCategoryTools | app.js:398-405 | the loop over matched keys gathers each key's tools, key after key |
| App.Recommend | app.js:351-421 | the method computes `Recommendations`: at most 6 tools, all from the directory |
| App.FixUrl | app.js:567-570 | the submitted URL starts with "http://" or "https://" |
| App.PrefixedUrlKept | app.js:567-570 | a trimmed address behind "https://" survives a second fix unchanged |
| App.SchemedUrlKept | app.js:567-570 | a trimmed address that already has a scheme is kept |
| App.FixUrlIdempotent | app.js:567-570 | fixing a fixed URL changes nothing |
| App.SubmittedFeatures | app.js:578 | the features are an order-preserving selection of the box's lines: every feature is a single non-blank line, and every non-blank line of the box is a feature; no box gives no features |
| App.BuildSubmission | app.js:572-580 | the URL has a scheme; the e-mail is the one typed or "Not provided"; no feature is blank |
| App.Page.constructor | app.js:1-4 | no tools, the 'all' chip and an empty search at start |
| App.Page.Load | app.js:19-36 | a successful load replaces the tool list; a failed one leaves it; nothing else changes |
| App.Page.OnSearchInput | app.js:477-480 | the search text becomes the box value lower-cased; nothing else changes |
| App.Page.OnCategoryClick | app.js:482-489 | the chip's category becomes current; nothing else changes |
| App.Page.RowsToRender | app.js:100-138 | nothing when no tool passes the filters; otherwise the recent row and the category rows grouped from the filtered tools |
| Cleanup.LongLineFlagged | cleanup-descriptions.js:22 | a description of 150 characters or more without a line break always needs fixing |
| Cleanup.PassingDescription | cleanup-descriptions.js:28-32 | a description that passes has at least 20 characters, does not end with "...", and has a line break within every 150 characters |
| Cleanup.StripQuotes | cleanup-descriptions.js:87 | the result is a slice of the text: its first character is dropped iff it is a quote, and the last character of what remains is dropped iff it is a quote |
| Cleanup.StripQuotesRoundTrip | cleanup-descriptions.js:87 | quoting a text and stripping the quotes gives it back |
| Cleanup.StripQuotesUnquoted | cleanup-descriptions.js:87 | a text not quoted at either end is left alone |
| Cleanup.FixDescription | cleanup-descriptions.js:84-92 | on failure the tool's own description; otherwise at most 150 characters |
| Cleanup.FixDescriptionFromReply | cleanup-descriptions.js:84-87 | the stored rewrite is a piece of the trimmed reply, starting at its first or second character |
| Cleanup.CleanReplyKept | cleanup-descriptions.js:84-87 | a clean reply of at most 150 characters is stored verbatim |
| Cleanup.FlaggedFromFile | cleanup-descriptions.js:111 | every selected tool comes from the file and needs fixing |
| Cleanup.CleanedOnlyDescriptions | cleanup-descriptions.js:134-147 | the loop changes only descriptions: length, names and every other field stay |
| Cleanup.CleanedSkipsLaterDuplicates | cleanup-descriptions.js:141-143 | an entry that is not the first with its name is never written |
| Cleanup.CleanedUnique | cleanup-descriptions.js:111-147 | with unique names, exactly the flagged tools get the rewrite computed from their own entry |
| Cleanup.CleanupDescriptions | cleanup-descriptions.js:111-147 | the array after the loop is `Cleaned`, and `fixed` counts every flagged tool |
| QuickFix.NoTagCons | quick-fix-descriptions.js:17 | a character in front of a tag-free text keeps it tag-free unless it opens a tag |
| QuickFix.NoTagSlice | quick-fix-descriptions.js:20-38 | a piece of a tag-free text is tag-free |
| QuickFix.NoTagAppend | quick-fix-descriptions.js:23-37 | appending text without '<' or '>' keeps a text tag-free |
| QuickFix.NoTagTrim | quick-fix-descriptions.js:31-45 | trimming keeps a text tag-free |
| QuickFix.StripTags | quick-fix-descriptions.js:17 | `replace(/<[^>]*>/g, '')` leaves no `<...>` tag and never makes the text longer |
| QuickFix.StripTagsKeepsPlainText | quick-fix-descriptions.js:17 | a text without tags is left alone |
| QuickFix.VerdictEnd | quick-fix-descriptions.js:20 | the lazy match ends inside the text |
| QuickFix.SkipSpace | quick-fix-descriptions.js:20 | skipping white space stays inside the text |
| QuickFix.DropTestReport | quick-fix-descriptions.js:20 | the "We performed ... winner." opening is removed: the result is a suffix, tag-free if the input was |
| QuickFix.FirstCapitalTail | quick-fix-descriptions.js:23 | a match of the "... Capital" tail lies inside the text |
| QuickFix.CutCapitalTail | quick-fix-descriptions.js:23 | never longer, and tag-free if the input was |
| QuickFix.CutTrailingEllipsis | quick-fix-descriptions.js:24 | the result is a prefix, tag-free if the input was |
| QuickFix.FindStop | quick-fix-descriptions.js:29 | the first sentence stop from k on, with none in between |
| QuickFix.SkipStops | quick-fix-descriptions.js:29 | the end of a run of sentence stops |
| QuickFix.SecondSentence | quick-fix-descriptions.js:29-31 | present iff the text splits on runs of stops into a second piece (iff it contains a stop), and then exactly that piece: after the first run of stops, up to the next stop or the end; it has no stop, is shorter, and is tag-free if the text was |
| QuickFix.ReplaceArticleOpening | quick-fix-descriptions.js:27-33 | the trimmed second sentence for an article-like opening that has one, the text unchanged otherwise; never longer, and tag-free if the input was |
| QuickFix.ArticleOpeningReplaced | quick-fix-descriptions.js:27-33 | an article opening with a sentence stop leaves a text without any stop |
| QuickFix.FallbackDescription | quick-fix-descriptions.js:42 | the fallback is no longer than prefix plus name and contains neither '<' nor '>' |
| QuickFix.Rewritten | quick-fix-descriptions.js:17-33 | the text after the rewrites holds no tag |
| QuickFix.Limited | quick-fix-descriptions.js:36-38 | at most 150 characters; text of 150 or fewer is untouched; tag-freedom is kept |
| QuickFix.Sized | quick-fix-descriptions.js:36-43 | a cut text of 20 or more characters is kept, and is then between 20 and 150 characters; a shorter one is replaced by the fallback; tag-freedom is kept |
| QuickFix.CleanDescription | quick-fix-descriptions.js:13-46 | '' for no description; at most 150 characters when the fallback does not fire, at most the prefix plus the name when it does; never a `<...>` tag |
| QuickFix.LongDescriptionCut | quick-fix-descriptions.js:36-45 | text still over 150 characters becomes its first 147 characters plus "...", trimmed, and ends with "..." |
| QuickFix.TrimKeepsEllipsis | quick-fix-descriptions.js:37-45 | the final trim keeps the "..." ending |
| QuickFix.ShortDescriptionFallback | quick-fix-descriptions.js:41-45 | text under 20 characters becomes the trimmed fallback, which starts with "AI-powered tool for" |
| QuickFix.FallbackKeepsPrefix | quick-fix-descriptions.js:42-45 | the trimmed fallback starts with "AI-powered tool for" |
| QuickFix.RewriteDescriptions | quick-fix-descriptions.js:55-64 | each entry gets the cleaned description; `fixed` counts exactly the entries whose description changed |
| QuickFix.QuickFixAll | quick-fix-descriptions.js:53-64 | the script's loop with `cleanDescription` |
| Popularity.CalculatePopularity | backfill-popularity.js:32-36 | 50 for a zero count; never above 100; at least 50 for a positive count; `50 + round(10·log10)` below the cap, exactly 100 at or above it |
| Popularity.Selected | backfill-popularity.js:91-99 | the work list has at most `MAX_TOOLS` tools when that is positive |
| Popularity.SelectedInOrder | backfill-popularity.js:91-99 | the work list is an order-preserving selection from the file |
| Popularity.SelectedMembers | backfill-popularity.js:91-93 | every tool of the work list comes from the file and needs a score |
| Popularity.SelectedWithLimit | backfill-popularity.js:96-99 | with a positive limit the work list is the first min(`MAX_TOOLS`, n) of the n tools needing a score |
| Popularity.SelectedWithoutLimit | backfill-popularity.js:91-93 | without a limit, a tool is selected iff it is in the file and has no score, 0 or 50 |
| Popularity.BackfilledOnlyScores | backfill-popularity.js:124-129 | only scores change: length, names and every other field stay |
| Popularity.BackfilledUnique | backfill-popularity.js:112-129 | with unique names, exactly the selected tools get the score of their own search count |
| Popularity.FailedSearchSelectedAgain | backfill-popularity.js:33-67 | a failed search gives 50, so the tool is selected again by the next run |
| Popularity.BackfillPopularity | backfill-popularity.js:90-143 | the array is `Backfilled`; `updated + failed` is the size of the work list; without an API key everything fails and nothing changes; the file is written iff something was selected |
| Dates.BackfillStamp | backfill-dates.js:23-24 | the backfilled date is more than a day before the run |
| Dates.DateTool | backfill-dates.js:26-33 | an undated tool gets the run's stamp and can never be recent afterwards; a dated tool is untouched; only `dateAdded` changes |
| Dates.SecondRunChangesNothing | backfill-dates.js:26-39 | a second run changes nothing and counts no update, so it writes nothing |
| Dates.NoneUndated | backfill-dates.js:27 | with every tool dated nothing is counted |
| Dates.BackfillDates | backfill-dates.js:19-39 | the array is every tool dated; `updated` counts the undated ones; `updated + skipped` is the length; the file is written iff `updated > 0` |
| RecentTest.HoursAgo | test-recent-tools.js:19-25 | five stamp ages |
| RecentTest.RecentDates | test-recent-tools.js:19-25 | the stamps are now minus 2, 5, 10, 15 and 20 hours |
| RecentTest.RecentDatesDecrease | test-recent-tools.js:19-25 | the stamps strictly decrease with the index |
| RecentTest.RecentDatesAreRecent | test-recent-tools.js:19-25 | every stamp is in the recently-added window from the run until 4 hours later |
| RecentTest.StampRecent | test-recent-tools.js:29-32 | only the first min(5, n) entries change, and only their `dateAdded` |
| RecentTest.StampedToolsShow | test-recent-tools.js:29-30 | after the script the stamped tools show in the recently-added row |

## Left out

- The network (web search, language-model and form-relay requests), file reads and
  writes, the backup copy, environment checks, `process.exit` and logging. The data they
  produce is a parameter. A failed call is `None`, or 0 for the search count.
- quick-test.js and test-agent.js: they only exercise that plumbing.
- Rendering, HTML templates, modals, scrolling and the event listeners' DOM work in app.js.
  `App.Page` keeps only the state the listeners change.
- `generateResponseText` (app.js:462-474): it picks its text with `Math.random`.
- Rate-limit delays (`setTimeout`): timing only.
- Popularity.CalculatePopularity: the floating-point `Math.round(Math.log10(count) * 10)`
  is a parameter `tenLog`. Only the zero guard, the +50 and the cap at 100 are modelled.
- Discovery.ExtractDomain: host-name parsing per the WHATWG URL Standard is a parameter
  `hostOf`.
- Discovery.DiscoverNewTools: the per-query search and the language model are parameters.
  `normalizeWithGroq`'s prompt and JSON parsing are not modelled. A failed or unparsable
  reply is `None`.
- ToolOrder.StrLe: `localeCompare` is modelled as lexicographic order on code points.
  Locale collation rules are not modelled.
- Text.Lower: `toLowerCase` folds only ASCII letters. Unicode case mapping and UTF-16
  code units are not modelled.
- App.PricingSort: the comparator is not a consistent order, so only the permutation is
  promised, not an order. The engine's exact sort algorithm is not modelled.
- App.GroupByCategory: the rows are in order of first appearance. `Object.entries` would
  list integer-like category keys first; that case is not modelled.
- App.RecentlyAdded: the window is exactly 24 hours of milliseconds.
  `setHours(getHours() - 24)` can differ by an hour across a daylight-saving change.
- Dates.BackfillStamp: likewise 30 days of milliseconds, where `setDate(getDate() - 30)`
  is calendar-based. The ISO-8601 text of the dates is not modelled.
- QuickFix.RewriteDescriptions: a missing description is the empty string. The source
  would store '' in place of a missing field and count it as a change.
- QuickFix.CleanDescription: a text of 20 or more characters that is mostly white space
  can trim to fewer than 20. The final trim runs after the fallback check. The model
  keeps this order and claims no lower bound.
- Cleanup.CleanupDescriptions and Popularity.BackfillPopularity: the work list holds the
  same objects as the array. The model reads the work list's values as they were when it
  was built. This matches the source: a later entry is never written before it is read,
  because writes go to the first entry with a name and the list keeps file order.
- Discovery.IconFor: `icons[category]` also finds the names every object inherits
  ("constructor", "toString", "__proto__" and the like) and returns that inherited value,
  which the saved JSON then drops. The model gives the robot for every string outside the table.
- App.GeneratedDisplayName: likewise `customNames[category]` returns the inherited value for
  such a name instead of the generated "AI ..." title. The model generates the title.
- App.GroupByCategory: for a category with such a name `grouped[tool.category]` is the
  inherited value, so `push` throws and `renderTools` renders nothing. The model starts a
  row for it like for any other category.
- Discovery.NormalizeReply: the reply's fields are taken to be strings. A valid reply
  without a string `name` would make a later `isDuplicate` (ai-discovery-agent.js:153) throw,
  which ends the run before anything is saved. The model has no such failure, so
  Discovery.DiscoverNewTools promises a saved file whenever a tool was found.
- App.Visible: a tool without a `description` or `features` makes `filterTools` throw when a
  search query is set (app.js:45 and app.js:47), so nothing is rendered. The model reads a
  missing description as '' and missing features as [].
- App.Recommend: likewise the fuzzy and category filters (app.js:393-394 and app.js:402) throw
  on a tool without a `description` or `features` that they reach. The model has no such failure.
- Cleanup.CleanupDescriptions: a missing description is flagged for fixing (cleanup-descriptions.js:29). If that
  tool is among the first ten flagged, the preview's `tool.description.substring` (cleanup-descriptions.js:121)
  throws before any fix or write. The model reads the missing description as ''.
- App.Capitalize: `toUpperCase` is modelled on ASCII letters only. Unicode upper-casing can
  change the length ('ß' becomes "SS"), which the length promise does not cover.
- ToolOrder.SortByCategoryName: the relative order of tools with equal category and name is
  not promised. The engine's sort is stable; the model does not state it.
- Dates.DateTool: an empty `dateAdded` string in the file counts as missing, because
  both are falsy. The model has no empty date: a date is `None` or a number.
