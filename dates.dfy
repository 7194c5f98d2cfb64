/**
 * The date backfill script (`backfill-dates.js`): every tool without a `dateAdded` gets the
 * same timestamp, 30 days before the run, so that old entries never show as recently added.
 * The clock is a parameter (`now`, in milliseconds).
 */
module Dates {
  import opened Wrappers
  import opened Seqs
  import opened ToolRecords
  import opened App

  /** How far back the backfilled date lies. */
  const BACKFILL_AGE: int := 30 * DAY_MS

  /** `!tool.dateAdded`: the tool has no date yet. */
  predicate Undated(t: Tool) {
    t.dateAdded.None?
  }

  /** The timestamp given to every undated tool of a run started at `now`. */
  function BackfillStamp(now: int): (stamp: int)
    ensures stamp < now - DAY_MS
  {
    now - BACKFILL_AGE
  }

  /**
   * One tool after the run: an undated tool gets the run's stamp, a dated one is left alone.
   * Either way it then has a date, and a backfilled tool lies outside the recently-added
   * window at the run time and at every later time.
   */
  function DateTool(now: int, t: Tool): (r: Tool)
    ensures !Undated(r)
    ensures Undated(t) ==> r.dateAdded == Some(now - BACKFILL_AGE)
    ensures !Undated(t) ==> r == t
    ensures Undated(t) ==> forall later :: now <= later ==> !IsRecent(r, later)
    ensures r.(dateAdded := t.dateAdded) == t
  {
    if Undated(t) then t.(dateAdded := Some(BackfillStamp(now))) else t
  }

  /** `DateTool` as a value, for mapping over the array. */
  function Dated(now: int): Tool -> Tool {
    (t: Tool) => DateTool(now, t)
  }

  /** A second run, at any time, changes nothing and counts no update, so it writes nothing. */
  lemma SecondRunChangesNothing(s: seq<Tool>, now: int, later: int)
    ensures Map(Dated(later), Map(Dated(now), s)) == Map(Dated(now), s)
    ensures Filter(Undated, Map(Dated(now), s)) == []
  {
    var once := Map(Dated(now), s);
    NoneUndated(once);
  }

  /** With every tool dated, nothing is left to count. */
  lemma {:induction false} NoneUndated(s: seq<Tool>)
    requires forall i :: 0 <= i < |s| ==> !Undated(s[i])
    ensures Filter(Undated, s) == []
  {
    if s != [] {
      NoneUndated(s[1..]);
    }
  }

  /**
   * The top-level `forEach`: undated tools get the stamp and count as updated, the rest are
   * skipped; the file is written only when something was updated.
   */
  method BackfillDates(tools: array<Tool>, now: int) returns (updated: nat, skipped: nat, written: bool)
    modifies tools
    ensures tools[..] == Map(Dated(now), old(tools[..]))
    ensures updated == |Filter(Undated, old(tools[..]))|
    ensures updated + skipped == tools.Length
    ensures written <==> updated > 0
  {
    ghost var original := tools[..];
    var thirtyDaysAgo := BackfillStamp(now);
    updated, skipped := 0, 0;
    for i := 0 to tools.Length
      invariant forall k :: i <= k < tools.Length ==> tools[k] == original[k]
      invariant forall k :: 0 <= k < i ==> tools[k] == Dated(now)(original[k])
      invariant updated == |Filter(Undated, original[..i])|
      invariant updated + skipped == i
    {
      FilterPrefixStep(Undated, original, i);
      if tools[i].dateAdded.None? {
        tools[i] := tools[i].(dateAdded := Some(thirtyDaysAgo));
        updated := updated + 1;
      } else {
        skipped := skipped + 1;
      }
    }
    assert original[..tools.Length] == original;
    written := updated > 0;
  }
}
