/**
  What the records of a Codex transcript say: each tool end says what the item of its own call said,
  each run end how its task ended, and a pruning forgets exactly what is old. The events are those
  of `CodexParser`; what a record owes to an earlier line is traced to that line.
*/
module CodexRecords {
  import opened Common
  import opened OrderedDict
  import opened TraceRecord
  import opened CodexParser
  import opened CodexProofs

  // ---- lines ----

  /** The line is one of this thread: its session is known, and it is no replay of a parent's. */
  predicate Read(p: Parser, e: Event) {
    && e.Line? && e.record.Entry? && p.conversation.Some?
    && !(p.bound > 0 && e.record.ordinal.Some? && e.record.ordinal.value < p.bound)
  }

  /** The parser before the i-th event. */
  function ParserAt(events: seq<Event>, i: nat): Parser
    requires i <= |events|
  {
    Fold(FRESH, events[..i]).p
  }

  /** The time of day a record carries: the millisecond time if it lies within the whole second given. */
  predicate Refined(coarse: Option<int>, precise: Option<int>, time: Option<int>) {
    if coarse == None then time == precise
    else if precise.Some? && coarse.value <= precise.value < coarse.value + 1_000_000_000 then time == precise
    else time == coarse
  }

  // ---- what an item says ----

  predicate SaysFailed(body: Body)
    requires body.ItemCompleted?
  {
    body.status == FailedStatus || (body.exitCode.Some? && body.exitCode.value != 0)
  }

  predicate SaysSucceeded(body: Body)
    requires body.ItemCompleted?
  {
    body.status == CompletedStatus && body.exitCode == Some(0)
  }

  /** The duration an item gives, if it is a possible one. */
  predicate Measures(body: Body, ms: int)
    requires body.ItemCompleted?
  {
    && body.startedMs.Some? && body.completedMs.Some?
    && ms == body.completedMs.value - body.startedMs.value && 0 <= ms <= MAX_DURATION_MS
  }

  /** The line is a completed item under this key, it names an open call and it says something. */
  predicate TellsOf(p: Parser, e: Event, key: Key) {
    && Read(p, e) && e.record.body.ItemCompleted? && e.record.body.item == Some(key)
    && (key in p.tools.values || key in p.aliases)
    && var body := e.record.body;
       SaysFailed(body) || SaysSucceeded(body)
       || (body.startedMs.Some? && body.completedMs.Some?
           && 0 <= body.completedMs.value - body.startedMs.value <= MAX_DURATION_MS)
  }

  /** The join says what the item said. */
  ghost predicate JoinSays(join: Join, body: Body)
    requires body.ItemCompleted?
  {
    && (join.ok == Some(false) <==> SaysFailed(body))
    && (join.ok == Some(true) <==> SaysSucceeded(body))
    && (forall ms :: join.durationMs == Some(ms) <==> Measures(body, ms))
  }

  lemma JoinOfSays(p: Parser, body: Body)
    requires body.ItemCompleted?
    ensures JoinSays(JoinOf(p, body), body) && JoinOf(p, body).run == p.run
    ensures JoinOf(p, body).ok == None && JoinOf(p, body).durationMs == None <==>
            !(SaysFailed(body) || SaysSucceeded(body)
              || (body.startedMs.Some? && body.completedMs.Some?
                  && 0 <= body.completedMs.value - body.startedMs.value <= MAX_DURATION_MS))
  {
  }

  /** A telling item is entered under its key: the newest of at most 256 joins. */
  lemma ItemEnters(p: Parser, e: Event, key: Key)
    requires Invariant(p) && TellsOf(p, e, key)
    ensures var q := Apply(p, e).p;
            && key in q.joins.values && JoinSays(q.joins.values[key], e.record.body) && q.joins.values[key].run == p.run
            && q == p.(joins := q.joins) && Apply(p, e).out == []
  {
    var body := e.record.body;
    JoinOfSays(p, body);
    var put := p.joins.Put(key, JoinOf(p, body));
    PutValid(p.joins, key, JoinOf(p, body));
    if |put.keys| > MAX_ITEM_CACHE {
      assert put.keys[0] == p.joins.keys[0] && p.joins.keys[0] in p.joins.values;
    }
  }

  /** The join an output of the call uses: the one under its own key, else the one under its alias. */
  function JoinUsed(p: Parser, call: Key): Option<Key>
    requires call in p.tools.values
  {
    if call in p.joins.values then Some(call)
    else
      var alias := p.tools.values[call].alias;
      if alias.Some? && alias.value in p.joins.values then alias else None
  }

  /** The open call a line is the output of: by its own key, else as an alias of it. */
  predicate Finishes(p: Parser, e: Event, call: Key) {
    && Read(p, e) && e.record.body.ToolOutput? && call in p.tools.values
    && var named := if e.record.body.callId.Some? then e.record.body.callId else e.record.body.id;
       && named.Some?
       && if named.value in p.tools.values then call == named.value
          else named.value in p.aliases && call == p.aliases[named.value]
  }

  // ---- where the joins come from, and where they go ----

  lemma ItemStep(p: Parser, e: Event, key: Key)
    requires Invariant(p) && Read(p, e) && e.record.body.ItemCompleted? && !TellsOf(p, e, key)
    ensures var q := Apply(p, e).p; key in q.joins.values ==>
                     key in p.joins.values && q.joins.values[key] == p.joins.values[key]
  {
    JoinOfSays(p, e.record.body);
  }

  /** No other line enters a join, or changes one. */
  lemma JoinStep(p: Parser, e: Event, key: Key)
    requires Invariant(p) && !TellsOf(p, e, key)
    ensures var q := Apply(p, e).p; key in q.joins.values ==>
                     key in p.joins.values && q.joins.values[key] == p.joins.values[key]
  {
    if Read(p, e) {
      match e.record.body {
        case ItemCompleted(_, _, _, _, _) => ItemStep(p, e, key);
        case _ =>
      }
    }
  }

  lemma EventAt(events: seq<Event>, i: nat)
    requires i < |events|
    ensures Invariant(ParserAt(events, i)) && ParserAt(events, i + 1) == Apply(ParserAt(events, i), events[i]).p
  {
    ReachableCodex(events[..i]);
    assert events[..i + 1][..i] == events[..i];
  }

  predicate TellsAt(events: seq<Event>, i: nat, key: Key)
    requires i < |events|
  {
    TellsOf(ParserAt(events, i), events[i], key)
  }

  /** The i-th line is the item the join under this key says. */
  ghost predicate JoinedAt(events: seq<Event>, i: nat, key: Key, join: Join)
    requires i < |events|
  {
    TellsAt(events, i, key) && JoinSays(join, events[i].record.body) && join.run == ParserAt(events, i).run
  }

  /** The join under this key before the i-th event. */
  function JoinUnder(events: seq<Event>, key: Key, i: nat): Option<Join>
    requires i <= |events|
  {
    var joins := ParserAt(events, i).joins.values;
    if key in joins then Some(joins[key]) else None
  }

  lemma JoinPut(events: seq<Event>, key: Key, i: nat)
    requires i < |events| && JoinUnder(events, key, i + 1).Some?
    ensures var join := JoinUnder(events, key, i + 1);
            if TellsAt(events, i, key) then JoinedAt(events, i, key, join.value) else JoinUnder(events, key, i) == join
  {
    EventAt(events, i);
    if TellsAt(events, i, key) {
      ItemEnters(ParserAt(events, i), events[i], key);
    } else {
      JoinStep(ParserAt(events, i), events[i], key);
    }
  }

  /** Every join says what the last telling item under its key said. */
  lemma JoinCameFrom(events: seq<Event>, key: Key) returns (i: nat)
    requires key in ParserAt(events, |events|).joins.values
    ensures i < |events| && JoinedAt(events, i, key, ParserAt(events, |events|).joins.values[key])
    ensures forall j :: i < j < |events| ==> !TellsAt(events, j, key)
  {
    var stored := seq(|events| + 1, k requires 0 <= k <= |events| => JoinUnder(events, key, k));
    var put := seq(|events|, k requires 0 <= k < |events| => TellsAt(events, k, key));
    forall k | 0 <= k < |put| && stored[k + 1].Some? && !put[k] ensures stored[k] == stored[k + 1] {
      JoinPut(events, key, k);
    }
    i := LastPut(stored, put);
    JoinPut(events, key, i);
    forall j | i < j < |events| ensures !TellsAt(events, j, key) {
      assert !put[j];
    }
  }

  // ---- where the tools and the runs come from ----

  /** The line calls a tool under a key that is not open, while a run is. */
  predicate Calls(p: Parser, e: Event, call: Key) {
    && Read(p, e) && e.record.body.ToolCall? && p.run.Some? && call !in p.tools.values
    && Some(call) == if e.record.body.callId.Some? then e.record.body.callId else e.record.body.id
  }

  /** The tool is the one the line calls, with the item id as its alias if that is another key. */
  predicate ToolSays(tool: Tool, p: Parser, e: Event, call: Key)
    requires Calls(p, e, call)
  {
    && tool.run == p.run.value && tool.name == e.record.body.name && tool.at == e.record.at
    && tool.alias == if e.record.body.id == Some(call) then None else e.record.body.id
  }

  /** A call is entered as the newest of at most 1024 open tools, and its start is told. */
  lemma CallEnters(p: Parser, e: Event, call: Key)
    requires Invariant(p) && Calls(p, e, call)
    ensures var q, out := Apply(p, e).p, Apply(p, e).out;
            && call in q.tools.values && ToolSays(q.tools.values[call], p, e, call)
            && q == p.(tools := q.tools, aliases := q.aliases)
            && out == [Rec(p.conversation.value, p.run.value, ToolStarted, e.record.at,
                           Some(Keyed(call)), e.record.body.name,
                           None, None, None)]
  {
    var body := e.record.body;
    var alias := if body.id.Some? && body.id.value != call then body.id else None;
    var put := p.tools.Put(call, Tool(p.run.value, body.name, e.record.at, alias));
    PutValid(p.tools, call, Tool(p.run.value, body.name, e.record.at, alias));
    if |put.keys| > MAX_OPEN_TOOLS {
      assert put.keys[0] == p.tools.keys[0] && p.tools.keys[0] in p.tools.values;
    }
  }

  predicate SameTool(p: Parser, q: Parser, call: Key) {
    call in q.tools.values ==> call in p.tools.values && q.tools.values[call] == p.tools.values[call]
  }

  lemma CallStep(p: Parser, e: Event, call: Key)
    requires Invariant(p) && Read(p, e) && e.record.body.ToolCall? && !Calls(p, e, call)
    ensures SameTool(p, Apply(p, e).p, call)
  {
  }

  lemma OutputStep(p: Parser, e: Event, call: Key)
    requires Invariant(p) && Read(p, e) && e.record.body.ToolOutput?
    ensures SameTool(p, Apply(p, e).p, call)
  {
  }

  lemma CloseStep(p: Parser, run: Id, call: Key)
    ensures SameTool(p, CloseRun(p, run), call)
  {
  }

  lemma StartStep(p: Parser, e: Event, call: Key)
    requires Read(p, e) && e.record.body.TaskStarted?
    ensures SameTool(p, Apply(p, e).p, call)
  {
    if p.run.Some? {
      CloseStep(p, p.run.value, call);
    }
  }

  lemma EndStep(p: Parser, e: Event, call: Key)
    requires Read(p, e) && e.record.body.TaskEnded?
    ensures SameTool(p, Apply(p, e).p, call)
  {
    var named := Either(e.record.body.turn, p.run);
    if named.Some? {
      CloseStep(p, named.value, call);
    }
  }

  lemma PruneStep(p: Parser, cutoff: int, call: Key)
    ensures SameTool(p, Prune(p, cutoff), call)
  {
  }

  /** No other line enters a tool, or changes one. */
  lemma ToolStep(p: Parser, e: Event, call: Key)
    requires Invariant(p) && !Calls(p, e, call)
    ensures SameTool(p, Apply(p, e).p, call)
  {
    if Read(p, e) {
      match e.record.body {
        case ToolCall(_, _, _) => CallStep(p, e, call);
        case ToolOutput(_, _) => OutputStep(p, e, call);
        case TaskStarted(_, _) => StartStep(p, e, call);
        case TaskEnded(_, _, _, _, _, _) => EndStep(p, e, call);
        case _ =>
      }
    } else if e.Pruned? {
      PruneStep(p, e.cutoff, call);
    }
  }

  predicate CallsAt(events: seq<Event>, i: nat, call: Key)
    requires i < |events|
  {
    Calls(ParserAt(events, i), events[i], call)
  }

  function ToolUnder(events: seq<Event>, call: Key, i: nat): Option<Tool>
    requires i <= |events|
  {
    var tools := ParserAt(events, i).tools.values;
    if call in tools then Some(tools[call]) else None
  }

  lemma ToolPut(events: seq<Event>, call: Key, i: nat)
    requires i < |events| && ToolUnder(events, call, i + 1).Some?
    ensures var tool := ToolUnder(events, call, i + 1);
            if CallsAt(events, i, call) then ToolSays(tool.value, ParserAt(events, i), events[i], call)
            else ToolUnder(events, call, i) == tool
  {
    EventAt(events, i);
    if CallsAt(events, i, call) {
      CallEnters(ParserAt(events, i), events[i], call);
    } else {
      ToolStep(ParserAt(events, i), events[i], call);
    }
  }

  /** Every open tool is the one its last call said. */
  lemma ToolCameFrom(events: seq<Event>, call: Key) returns (i: nat)
    requires call in ParserAt(events, |events|).tools.values
    ensures i < |events| && CallsAt(events, i, call)
    ensures ToolSays(ParserAt(events, |events|).tools.values[call], ParserAt(events, i), events[i], call)
    ensures forall j :: i < j < |events| ==> !CallsAt(events, j, call)
  {
    var stored := seq(|events| + 1, k requires 0 <= k <= |events| => ToolUnder(events, call, k));
    var put := seq(|events|, k requires 0 <= k < |events| => CallsAt(events, k, call));
    forall k | 0 <= k < |put| && stored[k + 1].Some? && !put[k] ensures stored[k] == stored[k + 1] {
      ToolPut(events, call, k);
    }
    i := LastPut(stored, put);
    ToolPut(events, call, i);
    forall j | i < j < |events| ensures !CallsAt(events, j, call) {
      assert !put[j];
    }
  }

  /** The line starts a task whose run is not open. */
  predicate Starts(p: Parser, e: Event, run: Id) {
    Read(p, e) && e.record.body.TaskStarted? && e.record.body.turn == Some(run) && run !in p.runs
  }

  lemma RunEnters(p: Parser, e: Event, run: Id)
    requires Invariant(p) && Starts(p, e, run)
    ensures var q := Apply(p, e).p;
            q.runs.Keys == {run} && q.run == Some(run) && Refined(e.record.body.startedAt, e.record.at, q.runs[run])
  {
    if p.run.Some? {
      CloseRunKeeps(p, p.run.value);
    }
  }

  lemma RunStep(p: Parser, e: Event, run: Id)
    requires Invariant(p) && !Starts(p, e, run)
    ensures var q := Apply(p, e).p; run in q.runs ==> run in p.runs && q.runs[run] == p.runs[run]
  {
    if Read(p, e) && e.record.body.TaskStarted? && p.run.Some? {
      CloseRunKeeps(p, p.run.value);
    }
  }

  predicate StartsAt(events: seq<Event>, i: nat, run: Id)
    requires i < |events|
  {
    Starts(ParserAt(events, i), events[i], run)
  }

  function RunUnder(events: seq<Event>, run: Id, i: nat): Option<Option<int>>
    requires i <= |events|
  {
    var runs := ParserAt(events, i).runs;
    if run in runs then Some(runs[run]) else None
  }

  lemma RunPut(events: seq<Event>, run: Id, i: nat)
    requires i < |events| && RunUnder(events, run, i + 1).Some?
    ensures var start := RunUnder(events, run, i + 1);
            if StartsAt(events, i, run) then Refined(events[i].record.body.startedAt, events[i].record.at, start.value)
            else RunUnder(events, run, i) == start
  {
    EventAt(events, i);
    if StartsAt(events, i, run) {
      RunEnters(ParserAt(events, i), events[i], run);
    } else {
      RunStep(ParserAt(events, i), events[i], run);
    }
  }

  /** The start time of the open run is that of its last start. */
  lemma RunCameFrom(events: seq<Event>, run: Id) returns (i: nat)
    requires run in ParserAt(events, |events|).runs
    ensures i < |events| && StartsAt(events, i, run)
    ensures Refined(events[i].record.body.startedAt, events[i].record.at, ParserAt(events, |events|).runs[run])
    ensures forall j :: i < j < |events| ==> !StartsAt(events, j, run)
  {
    var stored := seq(|events| + 1, k requires 0 <= k <= |events| => RunUnder(events, run, k));
    var put := seq(|events|, k requires 0 <= k < |events| => StartsAt(events, k, run));
    forall k | 0 <= k < |put| && stored[k + 1].Some? && !put[k] ensures stored[k] == stored[k + 1] {
      RunPut(events, run, k);
    }
    i := LastPut(stored, put);
    RunPut(events, run, i);
    forall j | i < j < |events| ensures !StartsAt(events, j, run) {
      assert !put[j];
    }
  }

  // ---- what an output tells ----

  /** The end of a call says what the join says: failure, success, or neither; and how long it took. */
  predicate EndSays(r: Rec, p: Parser, e: Event, call: Key)
    requires Finishes(p, e, call)
  {
    var tool, used := p.tools.values[call], JoinUsed(p, call);
    var join := if used.Some? then p.joins.values[used.value] else Join(None, None, None);
    && r == Rec(p.conversation.value, tool.run, r.role, e.record.at,
               Some(Keyed(call)), tool.name, r.success, r.durationMs,
                None)
    && r.success == join.ok
    && (r.role == ToolFailed <==> r.success == Some(false)) && (r.role == ToolCompleted <==> r.success != Some(false))
    && if join.durationMs.Some? && 0 <= join.durationMs.value <= MAX_DURATION_MS then r.durationMs == join.durationMs
       else join.durationMs == None ==> Lasted(tool.at, e.record.at, r.durationMs)
  }

  /** The output of an open call: its end is told, and the call goes with its alias and the join used. */
  lemma FinishTells(p: Parser, e: Event, call: Key)
    requires Invariant(p) && Finishes(p, e, call)
    ensures var q, out, used := Apply(p, e).p, Apply(p, e).out, JoinUsed(p, call);
            && |out| == 1 && EndSays(out[0], p, e, call)
            && q == p.(tools := q.tools, aliases := q.aliases, joins := q.joins)
            && q.tools.values == p.tools.values - {call}
            && q.joins.values == p.joins.values - if used.Some? then {used.value} else {}
  {
    ElapsedLasted(p.tools.values[call].at, e.record.at);
    assert p.joins.values - {} == p.joins.values;
  }

  /**
    The end of a tool call, traced to its lines: it carries the run, the name and the start time of
    the line that called it. It failed exactly when the last telling item under the call's own key,
    or without one under its alias, says a failed status or a nonzero exit code; it succeeded exactly
    when that item says completed with exit code 0; and without such an item it says neither. It
    lasted as long as the item says, and otherwise from the call to the output.
  */
  lemma EndTellsItsCall(events: seq<Event>, e: Event, call: Key) returns (c: nat, used: Option<Key>, j: nat)
    requires Finishes(ParserAt(events, |events|), e, call)
    ensures c < |events| && CallsAt(events, c, call) && forall k :: c < k < |events| ==> !CallsAt(events, k, call)
    ensures var p := ParserAt(events, |events|);
            && used == JoinUsed(p, call)
            && (used.Some? ==>
                  && j < |events| && JoinedAt(events, j, used.value, p.joins.values[used.value])
                  && forall k :: j < k < |events| ==> !TellsAt(events, k, used.value))
    ensures var out, called := Apply(ParserAt(events, |events|), e).out, events[c].record;
            && |out| == 1 && var r := out[0];
            && r.call == Some(Keyed(call)) && Some(r.run) == ParserAt(events, c).run && r.tool == called.body.name
            && r.at == e.record.at
            && (r.role == ToolFailed <==> used.Some? && SaysFailed(events[j].record.body))
            && (r.success == Some(false) <==> r.role == ToolFailed)
            && (r.success == Some(true) <==> used.Some? && SaysSucceeded(events[j].record.body))
            && (r.role == ToolCompleted <==> r.role != ToolFailed)
            && (forall ms :: used.Some? && Measures(events[j].record.body, ms) ==> r.durationMs == Some(ms))
            && ((used.Some? ==> forall ms :: !Measures(events[j].record.body, ms)) ==>
                    Lasted(called.at, e.record.at, r.durationMs))
  {
    var p := ParserAt(events, |events|);
    ReachableCodex(events);
    assert events[..|events|] == events;
    FinishTells(p, e, call);
    c := ToolCameFrom(events, call);
    used, j := JoinUsed(p, call), 0;
    if used.Some? {
      j := JoinCameFrom(events, used.value);
    }
  }

  // ---- what a task tells ----

  /** A task starts: another open run is stopped, and its own run begins unless it is open already. */
  lemma StartTells(p: Parser, e: Event, run: Id)
    requires Invariant(p) && Read(p, e) && e.record.body.TaskStarted? && e.record.body.turn == Some(run)
    ensures var q, out := Apply(p, e).p, Apply(p, e).out;
            var replaced := p.run.Some? && p.run.value != run;
            && q.run == Some(run) && |out| == (if replaced then 1 else 0) + (if p.run == Some(run) then 0 else 1)
            && (replaced ==>
                  var r := out[0];
                  && r == Rec(p.conversation.value, p.run.value, RunStopped, r.at, None, None, None, r.durationMs, None)
                  && Refined(e.record.body.startedAt, e.record.at, r.at)
                   && Lasted(p.runs[p.run.value], r.at, r.durationMs))
            && (p.run != Some(run) ==>
                  var r := out[|out| - 1];
                  && r == Rec(p.conversation.value, run, RunStarted, r.at, None, None, None, None, None)
                  && Refined(e.record.body.startedAt, e.record.at, r.at))
  {
    if p.run.Some? && p.run.value != run {
      CloseRunKeeps(p, p.run.value);
      ElapsedLasted(p.runs[p.run.value], Refine(e.record.body.startedAt, e.record.at));
    }
  }

  /** The run an end names: its own, else the open one. */
  function Named(p: Parser, e: Event): Option<Id>
    requires Read(p, e) && e.record.body.TaskEnded?
  {
    if e.record.body.turn.Some? then e.record.body.turn else p.run
  }

  /** How long an ended run took: as its end says, else from its start if it is the open one. */
  predicate RunLasted(p: Parser, e: Event, run: Id, r: Rec)
    requires Read(p, e) && e.record.body.TaskEnded?
  {
    var told := e.record.body.durationMs;
    if told.Some? then r.durationMs == if 0 <= told.value <= MAX_DURATION_MS then told else None
    else if run in p.runs then Lasted(p.runs[run], r.at, r.durationMs)
    else r.durationMs == None
  }

  /** A task ends: stopped exactly when it was aborted, else failed exactly when an error was given, else completed. */
  lemma EndTells(p: Parser, e: Event)
    requires Invariant(p) && Read(p, e) && e.record.body.TaskEnded? && Named(p, e).Some?
    ensures var out, run, body := Apply(p, e).out, Named(p, e).value, e.record.body;
            && |out| == 1 && var r := out[0];
            && r == Rec(p.conversation.value, run, r.role, r.at, None, None, None, r.durationMs, r.errorType)
            && (r.role == RunStopped <==> body.aborted)
            && (r.role == RunFailed <==> !body.aborted && body.failed)
            && (r.role == RunCompleted <==> !body.aborted && !body.failed)
            && r.errorType == (if r.role == RunFailed then body.errorType else None)
            && Refined(body.completedAt, e.record.at, r.at) && RunLasted(p, e, run, r)
  {
    var body, run := e.record.body, Named(p, e).value;
    ElapsedLasted(if run in p.runs then p.runs[run] else None, Refine(body.completedAt, e.record.at));
  }

  /** The end of the open run leaves only the session header; the end of any other run changes nothing. */
  lemma EndClears(p: Parser, e: Event)
    requires Invariant(p) && Read(p, e) && e.record.body.TaskEnded? && Named(p, e).Some?
    ensures Apply(p, e).p == if Named(p, e) == p.run
                             then FRESH.(conversation := p.conversation, meta := p.meta, bound := p.bound) else p
  {
    CloseRunKeeps(p, Named(p, e).value);
  }

  /** The end of the open run is measured from the line that started it. */
  lemma RunEndTells(events: seq<Event>, e: Event) returns (i: nat, began: Option<int>)
    requires var p := ParserAt(events, |events|);
             Read(p, e) && e.record.body.TaskEnded? && p.run.Some? && Named(p, e) == p.run
    ensures var p := ParserAt(events, |events|);
            && i < |events| && StartsAt(events, i, p.run.value)
            && (forall j :: i < j < |events| ==> !StartsAt(events, j, p.run.value))
            && Refined(events[i].record.body.startedAt, events[i].record.at, began)
            && var out, body := Apply(p, e).out, e.record.body;
               && |out| == 1 && out[0].run == p.run.value
               && (out[0].role == RunStopped <==> body.aborted)
               && (out[0].role == RunFailed <==> !body.aborted && body.failed)
               && (out[0].role == RunCompleted <==> !body.aborted && !body.failed)
               && (body.durationMs == None ==> Lasted(began, out[0].at, out[0].durationMs))
  {
    var p := ParserAt(events, |events|);
    ReachableCodex(events);
    assert events[..|events|] == events;
    EndTells(p, e);
    i := RunCameFrom(events, p.run.value);
    began := p.runs[p.run.value];
  }

  // ---- and nothing else tells anything ----

  /** The line is a web search while a run is open: told at once, under its own position. */
  predicate Searches(p: Parser, e: Event) {
    Read(p, e) && e.record.body.WebSearch? && p.run.Some?
  }

  lemma SearchTells(p: Parser, e: Event)
    requires Searches(p, e)
    ensures Apply(p, e) == Parsed(p, [Rec(p.conversation.value, p.run.value, ToolCompleted, e.record.at,
                                          Some(Positional(e.place.path, e.place.offset)),
                                           Some(WEB_SEARCH), None, None, None)])
  {
  }

  /** The line tells something: it starts or ends a task, calls a tool, is the output of an open call, or a search. */
  predicate Telling(p: Parser, e: Event) {
    && Read(p, e)
    && match e.record.body
       case TaskStarted(turn, _) => turn.Some?
       case TaskEnded(_, turn, _, _, _, _) => turn.Some? || p.run.Some?
       case ToolCall(callId, id, _) =>
         var call := if callId.Some? then callId else id;
         call.Some? && Calls(p, e, call.value)
       case ToolOutput(callId, id) =>
         var named := if callId.Some? then callId else id;
         && named.Some?
         && (Finishes(p, e, named.value) || (named.value in p.aliases && Finishes(p, e, p.aliases[named.value])))
       case WebSearch => p.run.Some?
       case _ => false
  }

  /** Every other event, prunings among them, tells nothing. */
  lemma OthersTellNothing(p: Parser, e: Event)
    requires Invariant(p) && !Telling(p, e)
    ensures Apply(p, e).out == []
  {
    if Read(p, e) {
      match e.record.body {
        case ToolCall(_, _, _) =>
        case ToolOutput(_, _) =>
        case _ =>
      }
    }
  }
}
