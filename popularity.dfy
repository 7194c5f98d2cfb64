/**
 * The popularity backfill script (`backfill-popularity.js`): the score computed from a
 * search-result count, the selection of tools still without a real score, and the loop
 * that writes each new score into the tool array.
 *
 * The search is a parameter: `searchCount(name)` is the result count the search returns for
 * the tool, already 0 whenever the request fails (the script catches those errors). A
 * missing API key is the one error the script does not catch: it is raised before the
 * request, so every tool of the run then counts as failed.
 */
module Popularity {
  import opened Wrappers
  import opened Seqs
  import opened ToolRecords
  import opened Rewrites

  /** The score of a tool nobody searched for, and the lowest score a count can give. */
  const BASE_SCORE: int := 50
  const MAX_SCORE: int := 100

  /**
   * `calculatePopularity`: 50 for a zero count; otherwise `50 + log10(count) * 10`, rounded,
   * and at most 100. `tenLog(count)` stands for `Math.round(Math.log10(count) * 10)`: adding
   * the whole number 50 and capping at the whole number 100 commute with the rounding.
   */
  function CalculatePopularity(searchCount: nat, tenLog: nat -> int): (score: int)
    ensures searchCount == 0 ==> score == BASE_SCORE
    ensures score <= MAX_SCORE
    ensures searchCount > 0 && tenLog(searchCount) >= 0 ==> BASE_SCORE <= score
    ensures searchCount > 0 && tenLog(searchCount) <= 50 ==> score == BASE_SCORE + tenLog(searchCount)
    ensures searchCount > 0 && tenLog(searchCount) >= 50 ==> score == MAX_SCORE
  {
    if searchCount == 0 then BASE_SCORE
    else
      var raw := BASE_SCORE + tenLog(searchCount);
      if raw < MAX_SCORE then raw else MAX_SCORE
  }

  /** `!tool.popularity || tool.popularity === 50`: no score, a zero score, or the default score. */
  predicate NeedsScore(t: Tool) {
    t.popularity.None? || t.popularity.value == 0 || t.popularity.value == BASE_SCORE
  }

  /**
   * The work list: the tools needing a score, in file order, cut to the first `MAX_TOOLS`
   * when that is set to a positive number (`None` for unset or not a number).
   */
  function Selected(tools: seq<Tool>, maxTools: Option<int>): (r: seq<Tool>)
    ensures maxTools.Some? && maxTools.value > 0 ==> |r| <= maxTools.value
  {
    var needing := Filter(NeedsScore, tools);
    if maxTools.Some? && maxTools.value > 0 then Take(needing, maxTools.value) else needing
  }

  /** The work list is an order-preserving selection from the file. */
  lemma SelectedInOrder(tools: seq<Tool>, maxTools: Option<int>)
    ensures IsSubseq(Selected(tools, maxTools), tools)
  {
    var needing := Filter(NeedsScore, tools);
    FilterSubseq(NeedsScore, tools);
    if maxTools.Some? && maxTools.value > 0 {
      PrefixSubseq(needing, |Take(needing, maxTools.value)|);
      SubseqTrans(Take(needing, maxTools.value), needing, tools);
    }
  }

  /** Every tool of the work list comes from the file and needs a score. */
  lemma SelectedMembers(tools: seq<Tool>, maxTools: Option<int>)
    ensures forall t :: t in Selected(tools, maxTools) ==> t in tools && NeedsScore(t)
  {
    var needing := Filter(NeedsScore, tools);
    FilterMembers(NeedsScore, tools);
    if maxTools.Some? && maxTools.value > 0 {
      assert forall t :: t in Take(needing, maxTools.value) ==> t in needing;
    }
  }

  /** Without a limit the work list holds exactly the tools that need a score. */
  lemma SelectedWithoutLimit(tools: seq<Tool>, maxTools: Option<int>, t: Tool)
    requires maxTools.None? || maxTools.value <= 0
    ensures t in Selected(tools, maxTools) <==> t in tools && NeedsScore(t)
  {
    FilterMembers(NeedsScore, tools);
  }

  /** With a positive limit the work list is the first `MAX_TOOLS` tools needing a score, or all of them when fewer. */
  lemma SelectedWithLimit(tools: seq<Tool>, maxTools: Option<int>)
    requires maxTools.Some? && maxTools.value > 0
    ensures var needing := Filter(NeedsScore, tools);
      |Selected(tools, maxTools)| == (if maxTools.value < |needing| then maxTools.value else |needing|) &&
      Selected(tools, maxTools) == needing[..|Selected(tools, maxTools)|]
  {
  }

  /** The write-back of one tool: the first entry with its name gets the tool's new score. */
  function ScoreUpdate(searchCount: string -> nat, tenLog: nat -> int): (Tool, Tool) -> Tool {
    (q: Tool, e: Tool) => e.(popularity := Some(CalculatePopularity(searchCount(q.name), tenLog)))
  }

  /** The array after the script has run: nothing is written without an API key. */
  function Backfilled(tools: seq<Tool>, apiKey: bool, searchCount: string -> nat, tenLog: nat -> int, maxTools: Option<int>): seq<Tool> {
    if apiKey then WriteBack(tools, Selected(tools, maxTools), ScoreUpdate(searchCount, tenLog)) else tools
  }

  /** Only scores change: length, names and every other field stay as they were. */
  lemma BackfilledOnlyScores(tools: seq<Tool>, apiKey: bool, searchCount: string -> nat, tenLog: nat -> int, maxTools: Option<int>)
    ensures |Backfilled(tools, apiKey, searchCount, tenLog, maxTools)| == |tools|
    ensures forall i :: 0 <= i < |tools| ==>
      var r := Backfilled(tools, apiKey, searchCount, tenLog, maxTools);
      r[i] == tools[i].(popularity := r[i].popularity)
  {
    if apiKey {
      var keep := (t: Tool) => t.(popularity := None);
      var upd := ScoreUpdate(searchCount, tenLog);
      WriteBackKeeps(tools, Selected(tools, maxTools), upd, keep);
      var r := Backfilled(tools, apiKey, searchCount, tenLog, maxTools);
      forall i | 0 <= i < |tools| ensures r[i] == tools[i].(popularity := r[i].popularity) {
        assert keep(r[i]) == keep(tools[i]);
      }
    }
  }

  /**
   * With unique names and an API key, exactly the selected tools get the score of their
   * own search count; every other entry is unchanged.
   */
  lemma BackfilledUnique(tools: seq<Tool>, searchCount: string -> nat, tenLog: nat -> int, maxTools: Option<int>, i: nat)
    requires UniqueNames(tools) && i < |tools|
    ensures Backfilled(tools, true, searchCount, tenLog, maxTools)[i] ==
      if tools[i] in Selected(tools, maxTools)
      then tools[i].(popularity := Some(CalculatePopularity(searchCount(tools[i].name), tenLog)))
      else tools[i]
  {
    var selected := Selected(tools, maxTools);
    SelectedMembers(tools, maxTools);
    assert forall k :: 0 <= k < |selected| ==> selected[k] in tools by {
      assert forall k :: 0 <= k < |selected| ==> selected[k] in selected;
    }
    WriteBackUnique(tools, selected, ScoreUpdate(searchCount, tenLog), i);
  }

  /** A selected tool whose search found nothing gets 50 and so is selected again by the next run. */
  lemma FailedSearchSelectedAgain(tools: seq<Tool>, searchCount: string -> nat, tenLog: nat -> int, maxTools: Option<int>, i: nat)
    requires UniqueNames(tools) && i < |tools|
    requires tools[i] in Selected(tools, maxTools) && searchCount(tools[i].name) == 0
    ensures Backfilled(tools, true, searchCount, tenLog, maxTools)[i].popularity == Some(BASE_SCORE)
    ensures NeedsScore(Backfilled(tools, true, searchCount, tenLog, maxTools)[i])
  {
    BackfilledUnique(tools, searchCount, tenLog, maxTools, i);
  }

  /**
   * `backfillPopularity` after the file is read: with nothing selected it returns at once
   * without writing. Otherwise each selected tool either throws (no API key: `failed`) or
   * has its score written into the first entry with its name (`updated`: the entry always
   * exists, since the tool was taken from the array and names never change), and the file
   * is written.
   */
  method BackfillPopularity(tools: array<Tool>, apiKey: bool, searchCount: string -> nat, tenLog: nat -> int, maxTools: Option<int>)
    returns (updated: nat, failed: nat, written: bool)
    modifies tools
    ensures tools[..] == Backfilled(old(tools[..]), apiKey, searchCount, tenLog, maxTools)
    ensures updated + failed == |Selected(old(tools[..]), maxTools)|
    ensures updated == if apiKey then |Selected(old(tools[..]), maxTools)| else 0
    ensures written <==> Selected(old(tools[..]), maxTools) != []
  {
    ghost var original := tools[..];
    var toolsNeedingScores := Selected(tools[..], maxTools);
    updated, failed, written := 0, 0, false;
    if |toolsNeedingScores| == 0 {
      return;
    }
    SelectedMembers(original, maxTools);
    ghost var upd := ScoreUpdate(searchCount, tenLog);
    for i := 0 to |toolsNeedingScores|
      invariant apiKey ==> tools[..] == WriteBack(original, toolsNeedingScores[..i], upd)
      invariant !apiKey ==> tools[..] == original
      invariant updated + failed == i
      invariant apiKey ==> failed == 0
      invariant !apiKey ==> updated == 0
    {
      var tool := toolsNeedingScores[i];
      if !apiKey {
        failed := failed + 1;
      } else {
        var popularity := CalculatePopularity(searchCount(tool.name), tenLog);
        assert tool in toolsNeedingScores;
        WriteBackNext(original, toolsNeedingScores, upd, i);
        var toolIndex := FindByName(tools[..], tool.name);
        tools[toolIndex] := tools[toolIndex].(popularity := Some(popularity));
        updated := updated + 1;
      }
    }
    assert toolsNeedingScores[..|toolsNeedingScores|] == toolsNeedingScores;
    written := true;
  }
}
