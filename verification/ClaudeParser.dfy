/**
  The Claude Code transcript parser (dashboard/provisioner/hivra-agent-trace.py, `parse_claude`,
  `claude_envelope`, `claude_flush`, `claude_settle`, `claude_close`). JSON decoding and the
  envelope patterns are outside; a decoded line arrives as an `Event`.
*/
module ClaudeParser {
  import opened Common
  import opened OrderedDict
  import opened TraceRecord

  const MAX_OPEN_TOOLS := 1024

  datatype Tool = Tool(run: Id, conversation: Id, name: Option<Name>, at: Option<int>)

  /** An end that is known but not final yet. */
  datatype Held = Held(at: Option<int>, durationMs: Option<int>)

  /** A tool result whose time is unknown until the next record that has one. */
  datatype Deferred = Deferred(key: Key, tool: Tool)

  /** r with c (the current run and its conversation), t, o, e, T and P of the file's dict `p`. */
  datatype Parser = Parser(
    run: Option<Owner>, start: Option<int>, live: bool, held: Option<Held>, tools: Dict<Key, Tool>,
      deferred: seq<Deferred>)
  datatype Owner = Owner(run: Id, conversation: Id)

  const FRESH := Parser(None, None, false, None, Dict([], map[]), [])

  datatype Result = Result(call: Option<Key>, isError: Option<bool>)
  datatype Use = Use(call: Option<Key>, name: Option<Name>)

  /**
    What a record says once it is decoded. `Other` is a record of another kind, without a session
    id, or on an inline sidechain; a prompt's run is the subagent, the prompt id or the record's own.
  */
  datatype Body =
    | Other
    | Results(results: seq<Result>)
    | Prompt(run: Option<Id>, conversation: Id, subagent: bool)
    | Assistant(uses: seq<Use>, apiError: bool, errorType: Option<Name>, terminal: bool)
    | TurnDuration(durationMs: Option<int>)

  datatype Event =
    | Record(at: Option<int>, body: Body)
    | Envelope(call: Option<Key>, at: Option<int>, success: Option<bool>)
    | Quiet(mtime: int)
    | Pruned(cutoff: int)

  datatype Parsed = Parsed(p: Parser, out: seq<Rec>)

  /** `claude_flush` */
  function Flush(p: Parser): Parsed {
    if p.held == None || !p.live || p.run == None then Parsed(p.(held := None), [])
    else
      var held := p.held.value;
      var duration := if held.durationMs.Some? then held.durationMs else ElapsedMs(p.start, held.at);
      Parsed(p.(live := false, held := None),
             [RunRecord(p.run.value.conversation, p.run.value.run, RunCompleted, held.at, duration, None)])
  }

  /** `claude_close` */
  function Close(p: Parser, at: Option<int>): Parsed {
    if p.run == None || !p.live then Parsed(p, [])
    else if p.held.Some? then Flush(p)
    else
      Parsed(p.(live := false),
             [RunRecord(p.run.value.conversation, p.run.value.run, RunStopped, at, ElapsedMs(p.start, at), None)])
  }

  function SettledRecords(deferred: seq<Deferred>, at: Option<int>): seq<Rec> {
    seq(|deferred|, i requires 0 <= i < |deferred| =>
          var tool := deferred[i].tool;
          ToolRecord(tool.conversation, tool.run, ToolCompleted, at, Keyed(deferred[i].key), tool.name, None, None))
  }

  /** `claude_settle` */
  function Settle(p: Parser, at: Option<int>): Parsed {
    if p.deferred == [] || at == None then Parsed(p, [])
    else Parsed(p.(deferred := []), SettledRecords(p.deferred, at))
  }

  function EndOfTool(key: Key, tool: Tool, at: Option<int>, success: Option<bool>): Rec {
    var role := if success == Some(false) then ToolFailed else ToolCompleted;
    ToolRecord(tool.conversation, tool.run, role, at, Keyed(key), tool.name, success, ElapsedMs(tool.at, at))
  }

  /** The tool results of a user record, block by block. */
  function TakeResults(p: Parser, at: Option<int>, results: seq<Result>): Parsed {
    if results == [] then Parsed(p, [])
    else
      var earlier := TakeResults(p, at, results[..|results| - 1]);
      var last := results[|results| - 1];
      if last.call == None || last.call.value !in earlier.p.tools.values then earlier
      else
        var key := last.call.value;
        var success := if last.isError.Some? then Some(!last.isError.value) else None;
        Parsed(earlier.p.(tools := earlier.p.tools.Without({key})),
               earlier.out + [EndOfTool(key, earlier.p.tools.values[key], at, success)])
  }

  function Evict(tools: Dict<Key, Tool>): Dict<Key, Tool> {
    if |tools.keys| > MAX_OPEN_TOOLS then tools.Without({tools.keys[0]}) else tools
  }

  /** The tool uses of an assistant record, block by block; each one revives a held end. */
  function TakeUses(p: Parser, owner: Owner, at: Option<int>, uses: seq<Use>): Parsed {
    if uses == [] then Parsed(p, [])
    else
      var earlier := TakeUses(p, owner, at, uses[..|uses| - 1]);
      var last := uses[|uses| - 1];
      if last.call == None || last.call.value in earlier.p.tools.values then earlier
      else
        var key := last.call.value;
        var put := earlier.p.tools.Put(key, Tool(owner.run, owner.conversation, last.name, at));
        var start := ToolRecord(owner.conversation, owner.run, ToolStarted, at, Keyed(key), last.name, None, None);
        Parsed(earlier.p.(tools := Evict(put), held := None), earlier.out + [start])
  }

  predicate HasOpenTool(p: Parser, run: Id) {
    exists call :: call in p.tools.values && p.tools.values[call].run == run
  }

  /** `_claude_assistant` */
  function Answer(p: Parser, at: Option<int>, body: Body): Parsed
    requires body.Assistant?
  {
    if p.run == None then Parsed(p, [])
    else
      var owner := p.run.value;
      var used := TakeUses(p, owner, at, body.uses);
      if body.apiError then
        if !used.p.live then used
        else
          Parsed(used.p.(live := false, held := None),
                 used.out + [RunRecord(owner.conversation, owner.run, RunFailed, at, ElapsedMs(p.start, at),
                                       body.errorType)])
      else if body.terminal && used.p.live && !HasOpenTool(used.p, owner.run) then
        var held := used.p.held;
        Parsed(used.p.(held := Some(Held(if at.Some? || held == None then at else held.value.at,
                                         if held.Some? then held.value.durationMs else None))),
               used.out)
      else used
  }

  /** A user prompt: the run it names begins, and whatever was open before it is closed. */
  function Ask(p: Parser, at: Option<int>, body: Body): Parsed
    requires body.Prompt?
  {
    if body.run == None then Parsed(p, [])
    else
      var owner := Owner(body.run.value, body.conversation);
      if p.run.Some? && p.run.value.run == owner.run
        && (body.subagent || p.run.value.conversation == owner.conversation)
      then Parsed(p, [])
      else
        var closed := Close(p, at);
        Parsed(closed.p.(run := Some(owner), start := at, live := true, held := None),
               closed.out + [RunRecord(owner.conversation, owner.run, RunStarted, at, None, None)])
  }

  /** `_parse_claude` */
  function Parse(p: Parser, at: Option<int>, body: Body): Parsed {
    match body
    case Other => Parsed(p, [])
    case Results(results) => TakeResults(p, at, results)
    case Prompt(_, _, _) => Ask(p, at, body)
    case Assistant(_, _, _, _) => Answer(p, at, body)
    case TurnDuration(duration) =>
      if p.held.Some? && duration.Some? && 0 <= duration.value <= MAX_DURATION_MS
      then Flush(p.(held := Some(p.held.value.(durationMs := duration)))) else Parsed(p, [])
  }

  function Last(deferred: seq<Deferred>): seq<Deferred> {
    if |deferred| <= MAX_OPEN_TOOLS then deferred else deferred[|deferred| - MAX_OPEN_TOOLS..]
  }

  function Then(first: Parsed, second: Parsed): Parsed {
    Parsed(second.p, first.out + second.out)
  }

  predicate Before(at: Option<int>, cutoff: int) {
    (if at.Some? then at.value else 0) < cutoff
  }

  function Recent(deferred: seq<Deferred>, cutoff: int): (kept: seq<Deferred>)
    ensures |kept| <= |deferred|
  {
    if deferred == [] then []
    else (if Before(deferred[0].tool.at, cutoff) then [] else [deferred[0]]) + Recent(deferred[1..], cutoff)
  }

  /** A parsed line, a recovered tool result, a quiet file, or a pruning. */
  function Apply(p: Parser, e: Event): Parsed {
    match e
    case Record(at, body) =>
      var settled := Settle(p, at);
      Then(settled, Parse(settled.p, at, body))
    case Envelope(call, at, success) =>
      if call == None || call.value !in p.tools.values then Parsed(p, [])
      else
        var tool, q := p.tools.values[call.value], p.(tools := p.tools.Without({call.value}));
        if at == None then Parsed(q.(deferred := Last(p.deferred + [Deferred(call.value, tool)])), [])
        else Parsed(q, [EndOfTool(call.value, tool, at, success)])
    case Quiet(mtime) =>
      var settled := Settle(p, Some(mtime));
      Then(settled, Flush(settled.p))
    case Pruned(cutoff) =>
      var gone := set call | call in p.tools.values && Before(p.tools.values[call].at, cutoff);
      var stale := p.live && Before(p.start, cutoff);
      Parsed(p.(tools := p.tools.Without(gone), live := p.live && !stale, held := if stale then None else p.held,
                deferred := Recent(p.deferred, cutoff)), [])
  }

  function Fold(p: Parser, events: seq<Event>): Parsed {
    if events == [] then Parsed(p, [])
    else
      var earlier := Fold(p, events[..|events| - 1]);
      Then(earlier, Apply(earlier.p, events[|events| - 1]))
  }

  // ---- what every reachable state keeps ----

  /** A held end belongs to a live run none of whose tracked tools is open. */
  ghost predicate HeldIsQuiet(p: Parser) {
    && (p.live ==> p.run.Some?)
    && (p.held.Some? ==>
          p.live && forall call :: call in p.tools.values ==> p.tools.values[call].run != p.run.value.run)
  }

  ghost predicate Invariant(p: Parser) {
    && HeldIsQuiet(p)
    && p.tools.Valid() && |p.tools.keys| <= 1024
    && |p.deferred| <= 1024
  }

  lemma {:induction false} TakeResultsKeeps(p: Parser, at: Option<int>, results: seq<Result>)
    requires Invariant(p)
    ensures var q := TakeResults(p, at, results);
            && Invariant(q.p) && q.p == p.(tools := q.p.tools)
            && (forall r :: r in q.out ==> IsTool(r.role))
  {
    if results != [] {
      var before, last := results[..|results| - 1], results[|results| - 1];
      TakeResultsKeeps(p, at, before);
      var earlier := TakeResults(p, at, before);
      if last.call.Some? {
        WithoutValid(earlier.p.tools, {last.call.value});
      }
    }
  }

  lemma {:induction false} TakeUsesKeeps(p: Parser, owner: Owner, at: Option<int>, uses: seq<Use>)
    requires Invariant(p) && p.run == Some(owner)
    ensures var q := TakeUses(p, owner, at, uses);
            && Invariant(q.p) && q.p == p.(tools := q.p.tools, held := q.p.held)
            && (forall r :: r in q.out ==> IsTool(r.role))
  {
    if uses != [] {
      var before, last := uses[..|uses| - 1], uses[|uses| - 1];
      TakeUsesKeeps(p, owner, at, before);
      var earlier := TakeUses(p, owner, at, before);
      if last.call.Some? && last.call.value !in earlier.p.tools.values {
        var tool := Tool(owner.run, owner.conversation, last.name, at);
        PutValid(earlier.p.tools, last.call.value, tool);
        var put := earlier.p.tools.Put(last.call.value, tool);
        if |put.keys| > MAX_OPEN_TOOLS {
          assert put.keys[0] in put.values;
          WithoutValid(put, {put.keys[0]});
        }
      }
    }
  }

  // ---- runs in the records ----

  /** The run whose start is the last run record, if any: the run that is open. */
  function OpenRun(out: seq<Rec>): Option<Owner> {
    if out == [] then None
    else
      var last := out[|out| - 1];
      if last.role == RunStarted then Some(Owner(last.run, last.conversation))
      else if IsRunEnd(last.role) then None
      else OpenRun(out[..|out| - 1])
  }

  /** Starts and ends of runs strictly alternate, and each end names the run of the start before it. */
  predicate Alternates(out: seq<Rec>) {
    out == [] ||
    var earlier, last := out[..|out| - 1], out[|out| - 1];
    && Alternates(earlier)
    && (last.role == RunStarted ==> OpenRun(earlier) == None)
    && (IsRunEnd(last.role) ==> OpenRun(earlier) == Some(Owner(last.run, last.conversation)))
  }

  lemma AlternatesSnoc(out: seq<Rec>, r: Rec)
    requires Alternates(out)
    requires r.role == RunStarted ==> OpenRun(out) == None
    requires IsRunEnd(r.role) ==> OpenRun(out) == Some(Owner(r.run, r.conversation))
    ensures Alternates(out + [r])
    ensures OpenRun(out + [r]) ==
            if r.role == RunStarted then Some(Owner(r.run, r.conversation))
            else if IsRunEnd(r.role) then None
            else OpenRun(out)
  {
    assert (out + [r])[..|out|] == out;
  }

  lemma {:induction false} AlternatesTools(out: seq<Rec>, tools: seq<Rec>)
    requires Alternates(out) && forall r :: r in tools ==> IsTool(r.role)
    ensures Alternates(out + tools) && OpenRun(out + tools) == OpenRun(out)
    decreases |tools|
  {
    if tools == [] {
      assert out + tools == out;
    } else {
      var fewer, last := tools[..|tools| - 1], tools[|tools| - 1];
      AlternatesTools(out, fewer);
      assert out + tools == out + fewer + [last];
      AlternatesSnoc(out + fewer, last);
    }
  }

  /** The parser's live run is the one open in its records. */
  predicate InStep(p: Parser, out: seq<Rec>) {
    Alternates(out) && OpenRun(out) == if p.live then p.run else None
  }

  // ---- one event ----

  lemma AnswerKeeps(p: Parser, at: Option<int>, body: Body)
    requires Invariant(p) && body.Assistant?
    ensures Invariant(Answer(p, at, body).p)
  {
    if p.run.Some? {
      TakeUsesKeeps(p, p.run.value, at, body.uses);
    }
  }

  lemma ApplyKeeps(p: Parser, e: Event)
    requires Invariant(p)
    ensures Invariant(Apply(p, e).p)
  {
    match e
    case Record(at, body) =>
      var settled := Settle(p, at).p;
      match body {
        case Results(results) => TakeResultsKeeps(settled, at, results);
        case Assistant(_, _, _, _) => AnswerKeeps(settled, at, body);
        case _ =>
      }
    case _ => ApplyOtherKeeps(p, e);
  }

  lemma ApplyOtherKeeps(p: Parser, e: Event)
    requires Invariant(p) && !e.Record?
    ensures Invariant(Apply(p, e).p)
  {
    match e
    case Envelope(call, _, _) =>
      if call.Some? {
        WithoutValid(p.tools, {call.value});
      }
    case Quiet(_) =>
    case Pruned(cutoff) =>
      WithoutValid(p.tools, set call | call in p.tools.values && Before(p.tools.values[call].at, cutoff));
  }

  /** run.completed is told of the held run only, and only while none of its tracked tools is open. */
  lemma CompletedOf(p: Parser, e: Event, r: Rec)
    requires Invariant(p) && r in Apply(p, e).out && r.role == RunCompleted
    ensures p.live && p.run == Some(Owner(r.run, r.conversation))
    ensures Apply(p, e).p.tools == p.tools && !HasOpenTool(p, r.run)
  {
    match e
    case Record(at, body) =>
      var settled := Settle(p, at);
      assert r !in settled.out;
      match body {
        case Results(results) =>
          TakeResultsKeeps(settled.p, at, results);
          assert false;
        case Assistant(uses, _, _, _) =>
          if settled.p.run.Some? {
            TakeUsesKeeps(settled.p, settled.p.run.value, at, uses);
          }
          assert false;
        case _ =>
      }
    case Quiet(mtime) =>
      assert r !in Settle(p, Some(mtime)).out;
    case _ =>
  }

  lemma ToolsInStep(p: Parser, out: seq<Rec>, tools: seq<Rec>, q: Parser)
    requires InStep(p, out) && (forall r :: r in tools ==> IsTool(r.role)) && q.live == p.live && q.run == p.run
    ensures InStep(q, out + tools)
  {
    AlternatesTools(out, tools);
  }

  lemma AnswerInStep(p: Parser, out: seq<Rec>, at: Option<int>, body: Body)
    requires Invariant(p) && InStep(p, out) && body.Assistant?
    ensures var step := Answer(p, at, body); InStep(step.p, out + step.out)
  {
    var step := Answer(p, at, body);
    if p.run.Some? {
      var used := TakeUses(p, p.run.value, at, body.uses);
      TakeUsesKeeps(p, p.run.value, at, body.uses);
      ToolsInStep(p, out, used.out, used.p);
      if |step.out| > |used.out| {
        AlternatesSnoc(out + used.out, step.out[|used.out|]);
        assert out + step.out == out + used.out + [step.out[|used.out|]];
      }
    } else {
      assert out + [] == out;
    }
  }

  lemma FlushInStep(p: Parser, out: seq<Rec>)
    requires Invariant(p) && InStep(p, out)
    ensures var step := Flush(p); InStep(step.p, out + step.out)
  {
    var step := Flush(p);
    if step.out != [] {
      AlternatesSnoc(out, step.out[0]);
    } else {
      assert out + [] == out;
    }
  }

  lemma AskInStep(p: Parser, out: seq<Rec>, at: Option<int>, body: Body)
    requires Invariant(p) && InStep(p, out) && body.Prompt?
    ensures var step := Ask(p, at, body); InStep(step.p, out + step.out)
  {
    var closed, step := Close(p, at), Ask(p, at, body);
    if step.out == [] {
      assert out + [] == out;
    } else if closed.out == [] {
      AlternatesSnoc(out, step.out[0]);
    } else {
      AlternatesSnoc(out, step.out[0]);
      AlternatesSnoc(out + [step.out[0]], step.out[1]);
      assert out + step.out == out + [step.out[0]] + [step.out[1]];
    }
  }

  lemma ParseInStep(p: Parser, out: seq<Rec>, at: Option<int>, body: Body)
    requires Invariant(p) && InStep(p, out)
    ensures var step := Parse(p, at, body); InStep(step.p, out + step.out)
  {
    match body {
      case Results(results) =>
        TakeResultsKeeps(p, at, results);
        ToolsInStep(p, out, TakeResults(p, at, results).out, TakeResults(p, at, results).p);
      case Assistant(_, _, _, _) => AnswerInStep(p, out, at, body);
      case Prompt(_, _, _) => AskInStep(p, out, at, body);
      case TurnDuration(duration) =>
        if p.held.Some? && duration.Some? && 0 <= duration.value <= MAX_DURATION_MS {
          FlushInStep(p.(held := Some(p.held.value.(durationMs := duration))), out);
        } else {
          assert out + [] == out;
        }
      case Other => assert out + [] == out;
    }
  }

  lemma SettleInStep(p: Parser, out: seq<Rec>, at: Option<int>)
    requires Invariant(p) && InStep(p, out)
    ensures var step := Settle(p, at); Invariant(step.p) && InStep(step.p, out + step.out)
  {
    ToolsInStep(p, out, Settle(p, at).out, Settle(p, at).p);
  }

  /** A pruning that finds the live run more than a day old forgets it without a record. */
  predicate Forgets(p: Parser, e: Event) {
    e.Pruned? && p.live && Before(p.start, e.cutoff)
  }

  lemma RecordInStep(p: Parser, out: seq<Rec>, at: Option<int>, body: Body)
    requires Invariant(p) && InStep(p, out)
    ensures var step := Apply(p, Record(at, body)); InStep(step.p, out + step.out)
  {
    var settled := Settle(p, at);
    SettleInStep(p, out, at);
    ParseInStep(settled.p, out + settled.out, at, body);
    assert out + (settled.out + Parse(settled.p, at, body).out) == out + settled.out + Parse(settled.p, at, body).out;
  }

  lemma ApplyInStep(p: Parser, out: seq<Rec>, e: Event)
    requires Invariant(p) && InStep(p, out) && !Forgets(p, e)
    ensures var step := Apply(p, e); InStep(step.p, out + step.out)
  {
    match e
    case Record(at, body) =>
      RecordInStep(p, out, at, body);
    case Envelope(_, _, _) => ToolsInStep(p, out, Apply(p, e).out, Apply(p, e).p);
    case Quiet(mtime) =>
      var settled := Settle(p, Some(mtime));
      SettleInStep(p, out, Some(mtime));
      FlushInStep(settled.p, out + settled.out);
      assert out + (settled.out + Flush(settled.p).out) == out + settled.out + Flush(settled.p).out;
    case Pruned(_) => assert out + [] == out;
  }

  // ---- whole transcripts ----

  lemma {:induction false} ReachableClaude(events: seq<Event>)
    ensures Invariant(Fold(FRESH, events).p)
  {
    if events != [] {
      ReachableClaude(events[..|events| - 1]);
      ApplyKeeps(Fold(FRESH, events[..|events| - 1]).p, events[|events| - 1]);
    }
  }

  /** In every transcript, run.completed is never emitted while a tracked tool of that run is open. */
  lemma CompletedWhenNoToolIsOpen(events: seq<Event>, e: Event, r: Rec)
    requires r in Apply(Fold(FRESH, events).p, e).out && r.role == RunCompleted
    ensures var p := Fold(FRESH, events).p;
            && p.live && p.run == Some(Owner(r.run, r.conversation))
            && Apply(p, e).p.tools == p.tools && !HasOpenTool(p, r.run)
  {
    ReachableClaude(events);
    CompletedOf(Fold(FRESH, events).p, e, r);
  }

  /** No pruning of the transcript forgets a live run. */
  predicate NeverForgets(events: seq<Event>) {
    events == [] ||
    var before := events[..|events| - 1];
    NeverForgets(before) && !Forgets(Fold(FRESH, before).p, events[|events| - 1])
  }

  /**
    As long as no pruning forgets a live run (in particular without pruning), run starts and ends
    strictly alternate, each end naming the run of the start before it.
  */
  lemma {:induction false} RunsAlternate(events: seq<Event>)
    requires NeverForgets(events)
    ensures InStep(Fold(FRESH, events).p, Fold(FRESH, events).out)
  {
    if events != [] {
      var before, last := events[..|events| - 1], events[|events| - 1];
      RunsAlternate(before);
      ReachableClaude(before);
      ApplyInStep(Fold(FRESH, before).p, Fold(FRESH, before).out, last);
    }
  }

  // ---- what forgetting a live run does ----

  /** The event is the prompt of another run than the current one: that run begins. */
  predicate Begins(p: Parser, e: Event) {
    && e.Record? && e.body.Prompt? && e.body.run.Some?
    && !(&& p.run.Some? && p.run.value.run == e.body.run.value
         && (e.body.subagent || p.run.value.conversation == e.body.conversation))
  }

  /** A run was forgotten: it is open in the records and not in the parser. */
  predicate Dangling(p: Parser, out: seq<Rec>) {
    !p.live && Alternates(out) && OpenRun(out).Some?
  }

  lemma ForgetDangles(p: Parser, out: seq<Rec>, e: Event)
    requires Invariant(p) && InStep(p, out) && Forgets(p, e)
    ensures var step := Apply(p, e); Dangling(step.p, out + step.out)
  {
    assert out + [] == out;
  }

  /** With no live run, an event that begins none emits tool records only. */
  lemma IdleStep(p: Parser, e: Event)
    requires Invariant(p) && !p.live && !Begins(p, e)
    ensures var step := Apply(p, e); !step.p.live && forall r :: r in step.out ==> IsTool(r.role)
  {
    if e.Record? {
      var settled := Settle(p, e.at);
      if e.body.Results? {
        TakeResultsKeeps(settled.p, e.at, e.body.results);
      } else if e.body.Assistant? && settled.p.run.Some? {
        TakeUsesKeeps(settled.p, settled.p.run.value, e.at, e.body.uses);
      }
    }
  }

  lemma DanglingStays(p: Parser, out: seq<Rec>, e: Event)
    requires Invariant(p) && Dangling(p, out) && !Begins(p, e)
    ensures var step := Apply(p, e); Dangling(step.p, out + step.out)
  {
    IdleStep(p, e);
    AlternatesTools(out, Apply(p, e).out);
  }

  /** The first run that begins after a forgotten one follows a start without an end. */
  lemma DanglingBreaks(p: Parser, out: seq<Rec>, e: Event)
    requires Invariant(p) && Dangling(p, out) && Begins(p, e)
    ensures !Alternates(out + Apply(p, e).out)
  {
    var settled, step := Settle(p, e.at), Apply(p, e);
    var start := RunRecord(e.body.conversation, e.body.run.value, RunStarted, e.at, None, None);
    AlternatesTools(out, settled.out);
    assert step.out == settled.out + [start];
    assert out + step.out == (out + settled.out) + [start];
    assert ((out + settled.out) + [start])[..|out + settled.out|] == out + settled.out;
  }

  lemma {:induction false} AlternatesPrefix(out: seq<Rec>, more: seq<Rec>)
    requires Alternates(out + more)
    ensures Alternates(out)
    decreases |more|
  {
    if more == [] {
      assert out + more == out;
    } else {
      assert (out + more)[..|out + more| - 1] == out + more[..|more| - 1];
      AlternatesPrefix(out, more[..|more| - 1]);
    }
  }

  predicate ForgetsAt(events: seq<Event>, i: nat)
    requires i < |events|
  {
    Forgets(Fold(FRESH, events[..i]).p, events[i])
  }

  predicate BeginsAt(events: seq<Event>, i: nat)
    requires i < |events|
  {
    Begins(Fold(FRESH, events[..i]).p, events[i])
  }

  /** No run begins after a pruning has forgotten a live one. */
  predicate NoneBeginsForgotten(events: seq<Event>) {
    forall i, j :: 0 <= i < j < |events| && ForgetsAt(events, i) ==> !BeginsAt(events, j)
  }

  lemma PrefixEvents(events: seq<Event>, k: nat, i: nat)
    requires i < k <= |events|
    ensures ForgetsAt(events[..k], i) == ForgetsAt(events, i) && BeginsAt(events[..k], i) == BeginsAt(events, i)
  {
    assert events[..k][..i] == events[..i];
  }

  lemma {:induction false} ForgetsSomewhere(events: seq<Event>)
    ensures NeverForgets(events) <==> forall i :: 0 <= i < |events| ==> !ForgetsAt(events, i)
  {
    if events != [] {
      var k := |events| - 1;
      ForgetsSomewhere(events[..k]);
      assert NeverForgets(events) == (NeverForgets(events[..k]) && !ForgetsAt(events, k));
      forall i | 0 <= i < k ensures ForgetsAt(events[..k], i) == ForgetsAt(events, i) {
        PrefixEvents(events, k, i);
      }
    }
  }

  lemma ForgottenPrefix(events: seq<Event>)
    requires events != []
    ensures var k := |events| - 1; var before := events[..k];
            NoneBeginsForgotten(events)
            <==> NoneBeginsForgotten(before) && (NeverForgets(before) || !Begins(Fold(FRESH, before).p, events[k]))
  {
    var k := |events| - 1;
    var before := events[..k];
    ForgetsSomewhere(before);
    forall i | 0 <= i < k
      ensures ForgetsAt(before, i) == ForgetsAt(events, i) && BeginsAt(before, i) == BeginsAt(events, i)
    {
      PrefixEvents(events, k, i);
    }
    if !NeverForgets(before) && NoneBeginsForgotten(events) {
      var i :| 0 <= i < k && ForgetsAt(before, i);
      assert ForgetsAt(events, i) && !BeginsAt(events, k);
    }
  }

  /** After any transcript: in step, or a forgotten run dangles, or the alternation is broken. */
  lemma {:induction false} Standing(events: seq<Event>)
    ensures var f := Fold(FRESH, events);
            && (NeverForgets(events) ==> InStep(f.p, f.out))
            && (!NeverForgets(events) && NoneBeginsForgotten(events) ==> Dangling(f.p, f.out))
            && (!NoneBeginsForgotten(events) ==> !Alternates(f.out))
  {
    if events != [] {
      var before, last := events[..|events| - 1], events[|events| - 1];
      var f, step := Fold(FRESH, before), Apply(Fold(FRESH, before).p, last);
      Standing(before);
      ReachableClaude(before);
      ForgottenPrefix(events);
      if NeverForgets(events) {
        ApplyInStep(f.p, f.out, last);
      } else if NeverForgets(before) {
        ForgetDangles(f.p, f.out, last);
      } else if NoneBeginsForgotten(events) {
        DanglingStays(f.p, f.out, last);
      } else if NoneBeginsForgotten(before) {
        DanglingBreaks(f.p, f.out, last);
      } else if Alternates(f.out + step.out) {
        AlternatesPrefix(f.out, step.out);
      }
    } else {
      ForgetsSomewhere(events);
    }
  }

  /** Run starts and ends alternate exactly when no run begins after a pruning has forgotten a live one. */
  lemma AlternatesIff(events: seq<Event>)
    ensures Alternates(Fold(FRESH, events).out) <==> NoneBeginsForgotten(events)
  {
    Standing(events);
    if NeverForgets(events) {
      ForgetsSomewhere(events);
    }
  }

  predicate InStepAfter(events: seq<Event>, k: nat)
    requires k <= |events|
  {
    InStep(Fold(FRESH, events[..k]).p, Fold(FRESH, events[..k]).out)
  }

  lemma ForgettingLeavesStep(events: seq<Event>, i: nat)
    requires i < |events| && ForgetsAt(events, i) && InStepAfter(events, i)
    ensures !InStepAfter(events, i + 1)
  {
    var f := Fold(FRESH, events[..i]);
    ReachableClaude(events[..i]);
    ForgetDangles(f.p, f.out, events[i]);
    assert events[..i + 1][..i] == events[..i];
  }

  /** Parser and records agree on the open run all along exactly when no pruning forgets a live run. */
  lemma InStepIff(events: seq<Event>)
    ensures NeverForgets(events) <==> forall k :: 0 <= k <= |events| ==> InStepAfter(events, k)
  {
    ForgetsSomewhere(events);
    if NeverForgets(events) {
      forall k | 0 <= k <= |events| ensures InStepAfter(events, k) {
        NeverForgetsPrefix(events, k);
        RunsAlternate(events[..k]);
      }
    } else {
      var i :| 0 <= i < |events| && ForgetsAt(events, i);
      if InStepAfter(events, i) {
        ForgettingLeavesStep(events, i);
      }
    }
  }

  lemma {:induction false} NeverForgetsPrefix(events: seq<Event>, k: nat)
    requires k <= |events| && NeverForgets(events)
    ensures NeverForgets(events[..k])
  {
    if k < |events| {
      var before := events[..|events| - 1];
      assert before[..k] == events[..k];
      NeverForgetsPrefix(before, k);
    } else {
      assert events[..k] == events;
    }
  }

  /** A pruning that does forget a live run breaks the alternation at the next run that begins, whenever that is. */
  lemma ForgettingBreaksAlternation(events: seq<Event>, i: nat, j: nat)
    requires i < j < |events| && ForgetsAt(events, i) && BeginsAt(events, j)
    ensures !Alternates(Fold(FRESH, events).out)
  {
    AlternatesIff(events);
  }

  const PROMPTS := [Record(Some(0), Prompt(Some(1), 0, false)), Pruned(1), Record(Some(1), Prompt(Some(2), 0, false))]

  /** A prompt, a pruning that finds its run too old, and the prompt of another run. */
  lemma ForgettingHappens()
    ensures ForgetsAt(PROMPTS, 1) && BeginsAt(PROMPTS, 2) && !Alternates(Fold(FRESH, PROMPTS).out)
  {
    assert PROMPTS[..1][..0] == [] && PROMPTS[..2][..1] == PROMPTS[..1];
    assert Fold(FRESH, PROMPTS[..1][..0]) == Parsed(FRESH, []);
    var first := Fold(FRESH, PROMPTS[..1]).p;
    assert first.live && first.start == Some(0) && first.run == Some(Owner(1, 0));
    ForgettingBreaksAlternation(PROMPTS, 1, 2);
  }
}
