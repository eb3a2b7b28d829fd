/** The log records the agent-run reporter builds (dashboard/provisioner/hivra-agent-trace.py). */
module TraceRecord {
  import opened Common

  /** Identifiers and names are only ever compared, and can be encoded; their text does not matter here. */
  type Id = int
  type Key = int
  type Name = int

  const MAX_DURATION_MS := 604_800_000

  datatype Role = RunStarted | RunCompleted | RunFailed | RunStopped | ToolStarted | ToolCompleted | ToolFailed

  /** A tool call is named by its own key, or by the position of a record that has none. */
  datatype Call = Keyed(key: Key) | Positional(path: Id, offset: nat)

  /** One record before the `None` filter: without a time it is dropped, though the parser moved on. */
  datatype Rec = Rec(
    conversation: Id, run: Id, role: Role, at: Option<int>, call: Option<Call>, tool: Option<Name>,
    success: Option<bool>, durationMs: Option<int>, errorType: Option<Name>)

  predicate IsToolEnd(role: Role) {
    role == ToolCompleted || role == ToolFailed
  }

  predicate IsTool(role: Role) {
    role == ToolStarted || IsToolEnd(role)
  }

  predicate IsRunEnd(role: Role) {
    role == RunCompleted || role == RunFailed || role == RunStopped
  }

  /** A record of one run, as `native_record` normalises it. */
  function RunRecord(conversation: Id, run: Id, role: Role, at: Option<int>, durationMs: Option<int>,
                     errorType: Option<Name>): Rec
  {
    Rec(conversation, run, role, at, None, None, None,
        if role != RunStarted && durationMs.Some? && 0 <= durationMs.value <= MAX_DURATION_MS then durationMs else None,
        if role == RunFailed then errorType else None)
  }

  /** A record of one tool call, as `native_record` normalises it. */
  function ToolRecord(conversation: Id, run: Id, role: Role, at: Option<int>, call: Call, tool: Option<Name>,
                      success: Option<bool>, durationMs: Option<int>): Rec
  {
    var bounded := durationMs.Some? && 0 <= durationMs.value <= MAX_DURATION_MS;
    Rec(conversation, run, role, at, Some(call), tool, if IsToolEnd(role) then success else None,
        if role != ToolStarted && bounded then durationMs else None, None)
  }

  /** `_refine`: a millisecond time within the second of a whole-second one is the finer of the two. */
  function Refine(coarse: Option<int>, precise: Option<int>): Option<int> {
    if coarse == None then precise
    else if precise.Some? && 0 <= precise.value - coarse.value < 1_000_000_000 then precise
    else coarse
  }

  /** `_elapsed_ms`, over nanosecond times. */
  function ElapsedMs(start: Option<int>, end: Option<int>): Option<int> {
    if start == None || end == None || end.value < start.value then None
    else Some((end.value - start.value) / 1_000_000)
  }

  /** Whole milliseconds from one time to the other, if both are known and in order and not more than a week apart. */
  predicate Lasted(start: Option<int>, end: Option<int>, ms: Option<int>) {
    if start.Some? && end.Some? && 0 <= end.value - start.value < (MAX_DURATION_MS + 1) * 1_000_000 then
      ms.Some? && ms.value * 1_000_000 <= end.value - start.value < (ms.value + 1) * 1_000_000
    else ms == None
  }

  lemma ElapsedLasted(start: Option<int>, end: Option<int>)
    ensures var d := ElapsedMs(start, end);
            Lasted(start, end, if d.Some? && 0 <= d.value <= MAX_DURATION_MS then d else None)
  {
  }

  // ---- matching tool ends with tool starts ----

  /** out[i] starts the call that out[j] ends: same call, run and name, and nothing of that call between. */
  ghost predicate StartsFor(out: seq<Rec>, i: nat, j: nat)
    requires i < j < |out|
  {
    && out[i].role == ToolStarted
    && out[i].call == out[j].call && out[i].conversation == out[j].conversation
    && out[i].run == out[j].run && out[i].tool == out[j].tool
    && (forall m :: i < m < j ==> out[m].call != out[j].call)
  }

  ghost predicate HasStart(out: seq<Rec>, j: nat)
    requires j < |out|
  {
    exists i: nat :: i < j && StartsFor(out, i, j)
  }

  /** Every end of a keyed tool call follows its own start; no start has two ends. */
  ghost predicate EndsMatched(out: seq<Rec>) {
    forall j: nat :: j < |out| && IsToolEnd(out[j].role) && out[j].call.Some? && out[j].call.value.Keyed? ==>
      HasStart(out, j)
  }

  /** The last record of a call is its start: the call is open. */
  ghost predicate OpenCall(out: seq<Rec>, key: Key, conversation: Id, run: Id, tool: Option<Name>) {
    exists i: nat :: i < |out| && OpenAt(out, i, key, conversation, run, tool)
  }

  ghost predicate OpenAt(out: seq<Rec>, i: nat, key: Key, conversation: Id, run: Id, tool: Option<Name>)
    requires i < |out|
  {
    && out[i].role == ToolStarted && out[i].call == Some(Keyed(key)) && out[i].conversation == conversation
    && out[i].run == run && out[i].tool == tool
    && (forall m :: i < m < |out| ==> out[m].call != Some(Keyed(key)))
  }

  lemma OpenCallStays(out: seq<Rec>, more: seq<Rec>, key: Key, conversation: Id, run: Id, tool: Option<Name>)
    requires OpenCall(out, key, conversation, run, tool)
    requires forall r :: r in more ==> r.call != Some(Keyed(key))
    ensures OpenCall(out + more, key, conversation, run, tool)
  {
    var i: nat :| i < |out| && OpenAt(out, i, key, conversation, run, tool);
    var all := out + more;
    forall m | i < m < |all| ensures all[m].call != Some(Keyed(key)) {
      if m >= |out| {
        assert all[m] == more[m - |out|];
      }
    }
    assert OpenAt(all, i, key, conversation, run, tool);
  }

  lemma OpenCallBegins(out: seq<Rec>, r: Rec, key: Key)
    requires r.role == ToolStarted && r.call == Some(Keyed(key))
    ensures OpenCall(out + [r], key, r.conversation, r.run, r.tool)
  {
    assert OpenAt(out + [r], |out|, key, r.conversation, r.run, r.tool);
  }

  lemma {:induction false} EndsMatchedMore(out: seq<Rec>, more: seq<Rec>)
    requires EndsMatched(out)
    requires forall r :: r in more ==> !IsToolEnd(r.role) || r.call == None || r.call.value.Positional?
    ensures EndsMatched(out + more)
  {
    var all := out + more;
    forall j: nat | j < |all| && IsToolEnd(all[j].role) && all[j].call.Some? && all[j].call.value.Keyed?
      ensures HasStart(all, j)
    {
      assert HasStart(out, j);
      var i: nat :| i < j && StartsFor(out, i, j);
      assert StartsFor(all, i, j);
    }
  }

  lemma EndsMatchedEnd(out: seq<Rec>, r: Rec, key: Key)
    requires EndsMatched(out) && r.call == Some(Keyed(key)) && OpenCall(out, key, r.conversation, r.run, r.tool)
    ensures EndsMatched(out + [r])
  {
    var all := out + [r];
    forall j: nat | j < |all| && IsToolEnd(all[j].role) && all[j].call.Some? && all[j].call.value.Keyed?
      ensures HasStart(all, j)
    {
      if j < |out| {
        assert HasStart(out, j);
        var i: nat :| i < j && StartsFor(out, i, j);
        assert StartsFor(all, i, j);
      } else {
        var i: nat :| i < |out| && OpenAt(out, i, key, r.conversation, r.run, r.tool);
        assert StartsFor(all, i, j);
      }
    }
  }

  // ---- where something stored was put ----

  /** What is stored at the end was put by the last step that put anything. */
  lemma {:induction false} LastPut<T>(stored: seq<Option<T>>, put: seq<bool>) returns (i: nat)
    requires |stored| == |put| + 1 && stored[0] == None && stored[|put|].Some?
    requires forall k :: 0 <= k < |put| && stored[k + 1].Some? && !put[k] ==> stored[k] == stored[k + 1]
    ensures i < |put| && put[i] && stored[i + 1] == stored[|put|] && forall j :: i < j < |put| ==> !put[j]
    decreases |put|
  {
    if put == [] {
      assert false;
    } else {
      var n := |put| - 1;
      if put[n] {
        i := n;
      } else {
        assert stored[n] == stored[n + 1];
        i := LastPut(stored[..n + 1], put[..n]);
      }
    }
  }
}
