/**
 * The description clean-up script (`cleanup-descriptions.js`): which descriptions count as
 * poor, how a rewritten description sent back by the language model is post-processed, and
 * the loop that writes the rewrites into the tool array. The model's reply is a parameter:
 * `None` stands for every failure (network, HTTP status, a reply without content).
 */
module Cleanup {
  import opened Wrappers
  import opened Seqs
  import opened Text
  import opened ToolRecords
  import opened Rewrites

  /** Descriptions shorter than this are poor. */
  const MIN_LENGTH: nat := 20
  /** A run of this many characters on one line is too long; rewrites are cut to this length. */
  const MAX_LENGTH: nat := 150

  /** No line terminator in `s[a..b]`: the span a regular-expression `.` run can cover. */
  predicate OneLine(s: string, a: int, b: int)
    requires 0 <= a <= b <= |s|
  {
    forall k :: a <= k < b ==> !IsLineTerminator(s[k])
  }

  /** `/series of.*sprints/i` matches with "series of" at `i` and "sprints" at `j`. */
  predicate SprintsAt(s: string, i: int, j: int) {
    OccursAtCI(s, "series of", i) && OccursAtCI(s, "sprints", j) && i + 9 <= j && OneLine(s, i + 9, j)
  }

  /** `/.{150,}/` matches at `i`. */
  predicate LongLineAt(s: string, i: int) {
    0 <= i && i + MAX_LENGTH <= |s| && OneLine(s, i, i + MAX_LENGTH)
  }

  /**
   * `needsFixing`: missing or shorter than 20 characters, or one of the poor-description
   * patterns matches (article openings, "series of ... sprints" on one line, a trailing
   * "...", or 150 characters or more on one line).
   */
  predicate NeedsFixing(description: string) {
    || |description| < MIN_LENGTH
    || StartsWithCI(description, "we performed")
    || StartsWithCI(description, "i tested")
    || StartsWithCI(description, "this article")
    || StartsWithCI(description, "in this")
    || (exists i, j :: 0 <= i <= j <= |description| && SprintsAt(description, i, j))
    || EndsWith(description, "...")
    || (exists i :: 0 <= i <= |description| && LongLineAt(description, i))
  }

  /** A description of 150 characters or more without a line break is always flagged. */
  lemma LongLineFlagged(d: string)
    requires |d| >= MAX_LENGTH
    requires forall k :: 0 <= k < |d| ==> !IsLineTerminator(d[k])
    ensures NeedsFixing(d)
  {
    assert LongLineAt(d, 0);
  }

  /** The 150 characters from `i` on include a line terminator. */
  predicate BreakWithin(d: string, i: int) {
    exists k :: 0 <= i <= k < i + MAX_LENGTH && k < |d| && IsLineTerminator(d[k])
  }

  /**
   * A description that passes is at least 20 characters long, does not end with "...",
   * and every window of 150 characters holds a line break.
   */
  lemma PassingDescription(d: string)
    requires !NeedsFixing(d)
    ensures |d| >= MIN_LENGTH && !EndsWith(d, "...")
    ensures forall i :: 0 <= i && i + MAX_LENGTH <= |d| ==> BreakWithin(d, i)
  {
    forall i | 0 <= i && i + MAX_LENGTH <= |d| ensures BreakWithin(d, i) {
      assert !LongLineAt(d, i);
    }
  }

  predicate IsQuote(c: char) { c == '"' || c == '\'' }

  /** `replace(/^["']|["']$/g, '')`: one quote dropped at the start and one at the end. */
  function StripQuotes(s: string): (r: string)
    ensures |r| <= |s| <= |r| + 2
    ensures var a := if |s| > 0 && IsQuote(s[0]) then 1 else 0;
      && a + |r| <= |s| && r == s[a..a + |r|]
      && (a + |r| == |s| || a + |r| == |s| - 1)
      && (a + |r| == |s| - 1 <==> a < |s| && IsQuote(s[|s| - 1]))
  {
    var a := if |s| > 0 && IsQuote(s[0]) then 1 else 0;
    var b := if |s| > a && IsQuote(s[|s| - 1]) then |s| - 1 else |s|;
    s[a..b]
  }

  /** Quoting a text and stripping the quotes gives the text back. */
  lemma StripQuotesRoundTrip(t: string, open: char, close: char)
    requires IsQuote(open) && IsQuote(close)
    ensures StripQuotes([open] + t + [close]) == t
  {
    var s := [open] + t + [close];
    assert s[1..|s| - 1] == t;
  }

  /** A text without quotes at its ends is left as it is. */
  lemma StripQuotesUnquoted(t: string)
    requires t == [] || (!IsQuote(t[0]) && !IsQuote(t[|t| - 1]))
    ensures StripQuotes(t) == t
  {
  }

  /**
   * `fixDescription`: the reply trimmed, its quotes stripped and cut to 150 characters; on
   * any failure the tool's own description.
   */
  function FixDescription(tool: Tool, reply: Option<string>): (d: string)
    ensures reply.None? ==> d == tool.description
    ensures reply.Some? ==> |d| <= MAX_LENGTH
  {
    match reply
    case None => tool.description
    case Some(content) => Take(StripQuotes(Trim(content)), MAX_LENGTH)
  }

  /** The stored rewrite is a piece of the trimmed reply, starting at its first or second character. */
  lemma FixDescriptionFromReply(tool: Tool, content: string)
    ensures var d := FixDescription(tool, Some(content)); var t := Trim(content);
      |d| <= |t| && (d == t[..|d|] || (1 + |d| <= |t| && d == t[1..1 + |d|]))
  {
    var t := Trim(content);
    var a := if |t| > 0 && IsQuote(t[0]) then 1 else 0;
    var d := FixDescription(tool, Some(content));
    assert d == t[a..a + |d|];
  }

  /** A clean reply (no surrounding quotes or white space, at most 150 characters) is stored verbatim. */
  lemma CleanReplyKept(tool: Tool, content: string)
    requires |content| <= MAX_LENGTH
    requires content == [] || (!IsQuote(content[0]) && !IsQuote(content[|content| - 1]))
    requires content == [] || (!IsSpace(content[0]) && !IsSpace(content[|content| - 1]))
    ensures FixDescription(tool, Some(content)) == content
  {
    TrimNoop(content);
    StripQuotesUnquoted(content);
  }

  /** The tools the script selects, in file order. */
  function Flagged(tools: seq<Tool>): seq<Tool> {
    Filter((t: Tool) => NeedsFixing(t.description), tools)
  }

  /** Every selected tool comes from the file. */
  lemma FlaggedFromFile(tools: seq<Tool>)
    ensures forall k :: 0 <= k < |Flagged(tools)| ==> Flagged(tools)[k] in tools && NeedsFixing(Flagged(tools)[k].description)
  {
    var flagged := Flagged(tools);
    FilterMembers((t: Tool) => NeedsFixing(t.description), tools);
    assert forall k :: 0 <= k < |flagged| ==> flagged[k] in flagged;
  }

  /** The write-back of one rewrite: the entry's description becomes the fix of the flagged tool. */
  function FixUpdate(reply: Tool -> Option<string>): (Tool, Tool) -> Tool {
    (q: Tool, e: Tool) => e.(description := FixDescription(q, reply(q)))
  }

  /** The array after the script has run. */
  function Cleaned(tools: seq<Tool>, reply: Tool -> Option<string>): seq<Tool> {
    WriteBack(tools, Flagged(tools), FixUpdate(reply))
  }

  /** Only descriptions change: length, names and every other field stay as they were. */
  lemma CleanedOnlyDescriptions(tools: seq<Tool>, reply: Tool -> Option<string>)
    ensures |Cleaned(tools, reply)| == |tools|
    ensures forall i :: 0 <= i < |tools| ==> Cleaned(tools, reply)[i] == tools[i].(description := Cleaned(tools, reply)[i].description)
  {
    var keep := (t: Tool) => t.(description := "");
    WriteBackKeeps(tools, Flagged(tools), FixUpdate(reply), keep);
    var r := Cleaned(tools, reply);
    forall i | 0 <= i < |tools| ensures r[i] == tools[i].(description := r[i].description) {
      assert keep(r[i]) == keep(tools[i]);
    }
  }

  /** An entry that is not the first with its name is never written (duplicates write into the first). */
  lemma CleanedSkipsLaterDuplicates(tools: seq<Tool>, reply: Tool -> Option<string>, i: nat)
    requires i < |tools| && FindByName(tools, tools[i].name) != i
    ensures Cleaned(tools, reply)[i] == tools[i]
  {
    WriteBackUntouched(tools, Flagged(tools), FixUpdate(reply), i);
  }

  /**
   * With unique names, exactly the flagged tools get a new description, each computed from
   * its own entry; every other entry is unchanged.
   */
  lemma CleanedUnique(tools: seq<Tool>, reply: Tool -> Option<string>, i: nat)
    requires UniqueNames(tools) && i < |tools|
    ensures Cleaned(tools, reply)[i] ==
      if NeedsFixing(tools[i].description)
      then tools[i].(description := FixDescription(tools[i], reply(tools[i])))
      else tools[i]
  {
    var pending := Flagged(tools);
    FlaggedFromFile(tools);
    FilterMembers((t: Tool) => NeedsFixing(t.description), tools);
    WriteBackUnique(tools, pending, FixUpdate(reply), i);
  }

  /**
   * `cleanupDescriptions`: selects the flagged tools, then for each writes its rewrite into
   * the first entry with its name. The entry always exists (the tool itself carries the
   * name), so `fixed` counts every flagged tool. With nothing flagged nothing is written.
   */
  method CleanupDescriptions(tools: array<Tool>, reply: Tool -> Option<string>) returns (fixed: nat)
    modifies tools
    ensures tools[..] == Cleaned(old(tools[..]), reply)
    ensures fixed == |Flagged(old(tools[..]))|
  {
    ghost var original := tools[..];
    var needsFix := Flagged(tools[..]);
    fixed := 0;
    if |needsFix| == 0 {
      return;
    }
    FlaggedFromFile(original);
    for k := 0 to |needsFix|
      invariant tools[..] == WriteBack(original, needsFix[..k], FixUpdate(reply))
      invariant fixed == k
    {
      var tool := needsFix[k];
      var newDescription := FixDescription(tool, reply(tool));
      WriteBackNext(original, needsFix, FixUpdate(reply), k);
      var toolIndex := FindByName(tools[..], tool.name);
      tools[toolIndex] := tools[toolIndex].(description := newDescription);
      fixed := fixed + 1;
    }
    assert needsFix[..|needsFix|] == needsFix;
  }
}
