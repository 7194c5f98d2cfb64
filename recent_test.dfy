/**
 * The recently-added test script (`test-recent-tools.js`): the first five tools of the file
 * get timestamps 2, 5, 10, 15 and 20 hours before the run, so that the recently-added row of
 * the page has something to show. The clock is a parameter (`now`, in milliseconds).
 */
module RecentTest {
  import opened Wrappers
  import opened Seqs
  import opened ToolRecords
  import opened App

  /** How many tools the script stamps, at most. */
  const STAMPED: nat := 5

  /** The ages of the five stamps, in hours. */
  function HoursAgo(): (hours: seq<int>)
    ensures |hours| == STAMPED
  {
    [2, 5, 10, 15, 20]
  }

  /** `recentDates`: the five timestamps, newest first. */
  function RecentDates(now: int): (dates: seq<int>)
    ensures |dates| == STAMPED
    ensures forall i :: 0 <= i < STAMPED ==> dates[i] == now - HoursAgo()[i] * HOUR_MS
  {
    Map((h: int) => now - h * HOUR_MS, HoursAgo())
  }

  /** The stamps strictly decrease with the index. */
  lemma RecentDatesDecrease(now: int, i: nat, j: nat)
    requires i < j < STAMPED
    ensures RecentDates(now)[i] > RecentDates(now)[j]
  {
    var hours := HoursAgo();
    assert hours[i] < hours[j];
  }

  /** Every stamp is in the recently-added window from the run time until 4 hours later. */
  lemma RecentDatesAreRecent(now: int, later: int, i: nat, t: Tool)
    requires i < STAMPED && now <= later <= now + 4 * HOUR_MS
    ensures IsRecent(t.(dateAdded := Some(RecentDates(now)[i])), later)
  {
    var hours := HoursAgo();
    assert 2 <= hours[i] <= 20;
  }

  /** Entry `i` after the script: one of the first five gets its stamp, the rest are unchanged. */
  function Stamped(now: int, i: nat, t: Tool): Tool {
    if i < STAMPED then t.(dateAdded := Some(RecentDates(now)[i])) else t
  }

  /**
   * The `for` loop over `i < 5 && i < tools.length`: only the first `min(5, n)` entries change,
   * and only in their `dateAdded`.
   */
  method StampRecent(tools: array<Tool>, now: int)
    modifies tools
    ensures forall i :: 0 <= i < tools.Length ==> tools[i] == Stamped(now, i, old(tools[i]))
  {
    var recentDates := RecentDates(now);
    var i := 0;
    while i < STAMPED && i < tools.Length
      invariant 0 <= i <= STAMPED && i <= tools.Length
      invariant forall k :: 0 <= k < i ==> tools[k] == Stamped(now, k, old(tools[k]))
      invariant forall k :: i <= k < tools.Length ==> tools[k] == old(tools[k])
    {
      tools[i] := tools[i].(dateAdded := Some(recentDates[i]));
      i := i + 1;
    }
  }

  /** After the script the first `min(5, n)` tools all show in the recently-added row for 4 hours. */
  lemma StampedToolsShow(s: seq<Tool>, now: int, later: int, i: nat)
    requires i < |s| && i < STAMPED && now <= later <= now + 4 * HOUR_MS
    ensures var after := seq(|s|, k requires 0 <= k < |s| => Stamped(now, k, s[k]));
      after[i] in RecentlyAdded(after, later)
  {
    var after := seq(|s|, k requires 0 <= k < |s| => Stamped(now, k, s[k]));
    RecentDatesAreRecent(now, later, i, s[i]);
    assert after[i] in after;
  }
}
