/**
 * The write-back loop the maintenance scripts share: for each tool of a work list taken
 * from the file, `const i = tools.findIndex(t => t.name === tool.name)` and, when found,
 * an update of one field of `tools[i]`. The work list holds the values read before the
 * loop; the update may depend on that value and on the entry being overwritten.
 */
module Rewrites {
  import opened ToolRecords

  /** The file after the first `|pending|` write-backs, in work-list order. */
  function WriteBack(s: seq<Tool>, pending: seq<Tool>, upd: (Tool, Tool) -> Tool): (r: seq<Tool>)
    ensures |r| == |s|
  {
    if pending == [] then s
    else
      var r := WriteBack(s, pending[..|pending| - 1], upd);
      var q := pending[|pending| - 1];
      var i := FindByName(r, q.name);
      if i == -1 then r else r[i := upd(q, r[i])]
  }

  /** Whatever the update leaves alone (the projection `keep`) is the same in every entry afterwards. */
  lemma {:induction false} WriteBackKeeps<T>(s: seq<Tool>, pending: seq<Tool>, upd: (Tool, Tool) -> Tool, keep: Tool -> T)
    requires forall q, e :: keep(upd(q, e)) == keep(e)
    ensures forall i :: 0 <= i < |s| ==> keep(WriteBack(s, pending, upd)[i]) == keep(s[i])
  {
    if pending != [] {
      WriteBackKeeps(s, pending[..|pending| - 1], upd, keep);
    }
  }

  /** An update that keeps names keeps every entry's name. */
  lemma WriteBackNames(s: seq<Tool>, pending: seq<Tool>, upd: (Tool, Tool) -> Tool)
    requires forall q, e :: upd(q, e).name == e.name
    ensures SameNames(s, WriteBack(s, pending, upd))
  {
    WriteBackKeeps(s, pending, upd, (t: Tool) => t.name);
  }

  /** A tool taken from the file is always found again: names never change. */
  lemma WriteBackFinds(s: seq<Tool>, pending: seq<Tool>, upd: (Tool, Tool) -> Tool, q: Tool)
    requires forall q, e :: upd(q, e).name == e.name
    requires q in s
    ensures FindByName(WriteBack(s, pending, upd), q.name) != -1
  {
    WriteBackNames(s, pending, upd);
    var m :| 0 <= m < |s| && s[m] == q;
    assert WriteBack(s, pending, upd)[m].name == q.name;
  }

  /** One more step of the loop: the next tool of the work list lands on an entry that exists. */
  lemma WriteBackNext(s: seq<Tool>, pending: seq<Tool>, upd: (Tool, Tool) -> Tool, k: nat)
    requires forall q, e :: upd(q, e).name == e.name
    requires k < |pending| && pending[k] in s
    ensures var r := WriteBack(s, pending[..k], upd); var i := FindByName(r, pending[k].name);
      0 <= i < |r| && WriteBack(s, pending[..k + 1], upd) == r[i := upd(pending[k], r[i])]
  {
    assert pending[..k + 1][..k] == pending[..k];
    WriteBackFinds(s, pending[..k], upd, pending[k]);
  }

  /**
   * An entry that is not the first with its name, or whose name no pending tool carries,
   * is never written.
   */
  lemma {:induction false} WriteBackUntouched(s: seq<Tool>, pending: seq<Tool>, upd: (Tool, Tool) -> Tool, i: nat)
    requires forall q, e :: upd(q, e).name == e.name
    requires i < |s|
    requires FindByName(s, s[i].name) != i || forall k :: 0 <= k < |pending| ==> pending[k].name != s[i].name
    ensures WriteBack(s, pending, upd)[i] == s[i]
  {
    if pending != [] {
      var init := pending[..|pending| - 1];
      WriteBackUntouched(s, init, upd, i);
      WriteBackNames(s, init, upd);
      FindByNameSameNames(s, WriteBack(s, init, upd), pending[|pending| - 1].name);
    }
  }

  /** With unique names, the write-back of `q` lands on `q`'s own index. */
  lemma WriteBackStep(s: seq<Tool>, pending: seq<Tool>, upd: (Tool, Tool) -> Tool, m: nat)
    requires forall q, e :: upd(q, e).name == e.name
    requires UniqueNames(s)
    requires pending != [] && m < |s| && s[m] == pending[|pending| - 1]
    ensures var r := WriteBack(s, pending[..|pending| - 1], upd);
      WriteBack(s, pending, upd) == r[m := upd(s[m], r[m])]
  {
    var r := WriteBack(s, pending[..|pending| - 1], upd);
    WriteBackNames(s, pending[..|pending| - 1], upd);
    FindByNameSameNames(s, r, s[m].name);
    FindByNameUnique(s, m);
  }

  /**
   * When names are unique and the update does nothing the second time, each entry ends up
   * updated by its own value exactly when it is on the work list.
   */
  lemma {:induction false} WriteBackUnique(s: seq<Tool>, pending: seq<Tool>, upd: (Tool, Tool) -> Tool, i: nat)
    requires forall q, e :: upd(q, e).name == e.name
    requires forall q, e :: upd(q, upd(q, e)) == upd(q, e)
    requires UniqueNames(s)
    requires forall k :: 0 <= k < |pending| ==> pending[k] in s
    requires i < |s|
    ensures WriteBack(s, pending, upd)[i] == if s[i] in pending then upd(s[i], s[i]) else s[i]
  {
    if pending != [] {
      var init := pending[..|pending| - 1];
      var q := pending[|pending| - 1];
      assert pending == init + [q];
      assert forall k :: 0 <= k < |init| ==> init[k] == pending[k];
      var m :| 0 <= m < |s| && s[m] == q;
      WriteBackStep(s, pending, upd, m);
      WriteBackUnique(s, init, upd, i);
      if i == m {
        WriteBackUnique(s, init, upd, m);
        assert upd(q, WriteBack(s, init, upd)[m]) == upd(q, q);
      } else {
        if i < m { assert s[i].name != s[m].name; } else { assert s[m].name != s[i].name; }
        assert s[i] in pending <==> s[i] in init;
      }
    }
  }
}
