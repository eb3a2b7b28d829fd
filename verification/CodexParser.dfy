/**
  The Codex rollout parser (dashboard/provisioner/hivra-agent-trace.py, `parse_codex` and the
  `_codex_*` functions): one parser state per file, changed by each decoded line. JSON decoding is
  outside; a decoded line arrives as a `Record`.
*/
module CodexParser {
  import opened Common
  import opened OrderedDict
  import opened TraceRecord

  const MAX_OPEN_TOOLS := 1024
  const MAX_ITEM_CACHE := 256
  const WEB_SEARCH: Name := 0

  datatype Tool = Tool(run: Id, name: Option<Name>, at: Option<int>, alias: Option<Key>)
  datatype Join = Join(ok: Option<bool>, durationMs: Option<int>, run: Option<Id>)

  /** c, m, s, r, R, T, A and I of the file's dict `p`; a bound of 0 is no bound. */
  datatype Parser = Parser(
    conversation: Option<Id>, meta: bool, bound: nat,
    run: Option<Id>, runs: map<Id, Option<int>>,
    tools: Dict<Key, Tool>, aliases: map<Key, Key>, joins: Dict<Key, Join>)

  const FRESH := Parser(None, false, 0, None, map[], Dict([], map[]), map[], Dict([], map[]))

  datatype Status = FailedStatus | CompletedStatus | OtherStatus

  datatype Body =
    | TaskStarted(turn: Option<Id>, startedAt: Option<int>)
    | TaskEnded(aborted: bool, turn: Option<Id>, completedAt: Option<int>, durationMs: Option<int>, failed: bool,
                errorType: Option<Name>)
    | ItemCompleted(item: Option<Key>, status: Status, exitCode: Option<int>, startedMs: Option<int>,
                    completedMs: Option<int>)
    | ToolCall(callId: Option<Key>, id: Option<Key>, name: Option<Name>)
    | ToolOutput(callId: Option<Key>, id: Option<Key>)
    | WebSearch
    | Ignored

  /** A line with a payload: the session header, or a body with its ordinal and time. */
  datatype Record =
    | SessionMeta(session: Option<Id>, startOrdinal: Option<int>)
    | Entry(ordinal: Option<int>, at: Option<int>, body: Body)

  /** Where a line stands. */
  datatype Place = Place(path: Id, offset: nat)

  datatype Parsed = Parsed(p: Parser, out: seq<Rec>)

  function Either<T>(first: Option<T>, second: Option<T>): Option<T> {
    if first.Some? then first else second
  }

  /** `_drop_tool` */
  function DropTool(p: Parser, call: Key): Parser {
    if call !in p.tools.values then p
    else
      var alias := p.tools.values[call].alias;
      p.(tools := p.tools.Without({call}), aliases := if alias.Some? then p.aliases - {alias.value} else p.aliases)
  }

  function OwnedBy(p: Parser, run: Id): set<Key> {
    set call | call in p.tools.values && p.tools.values[call].run == run
  }

  /** The aliases of the given calls. */
  function AliasesOf(p: Parser, calls: set<Key>): set<Key> {
    set call | call in calls && call in p.tools.values
      && p.tools.values[call].alias.Some? :: p.tools.values[call].alias.value
  }

  function DropTools(p: Parser, calls: set<Key>): Parser {
    p.(tools := p.tools.Without(calls), aliases := p.aliases - AliasesOf(p, calls))
  }

  function TaggedWith(p: Parser, run: Id): set<Key> {
    set key | key in p.joins.values && p.joins.values[key].run == Some(run)
  }

  /** `_codex_close`: the run, its tools with their aliases, and its joins are gone. */
  function CloseRun(p: Parser, run: Id): Parser {
    var q := DropTools(p, OwnedBy(p, run));
    q.(run := if p.run == Some(run) then None else p.run, runs := p.runs - {run},
       joins := p.joins.Without(TaggedWith(p, run)))
  }

  /** `_codex_start` */
  function StartTask(p: Parser, conversation: Id, at: Option<int>, body: Body): Parsed
    requires body.TaskStarted?
  {
    if body.turn == None then Parsed(p, [])
    else
      var run, time := body.turn.value, Refine(body.startedAt, at);
      var replaced := p.run.Some? && p.run.value != run && p.run.value in p.runs;
      var stopped :=
        if replaced then
          [RunRecord(conversation, p.run.value, RunStopped, time, ElapsedMs(p.runs[p.run.value], time), None)]
        else [];
      var q := if replaced then CloseRun(p, p.run.value) else p;
      if run in q.runs then Parsed(q.(run := Some(run)), stopped)
      else
        Parsed(q.(run := Some(run), runs := q.runs[run := time]),
               stopped + [RunRecord(conversation, run, RunStarted, time, None, None)])
  }

  /** `_codex_end` */
  function EndTask(p: Parser, conversation: Id, at: Option<int>, body: Body): Parsed
    requires body.TaskEnded?
  {
    var named := Either(body.turn, p.run);
    if named == None then Parsed(p, [])
    else
      var run, time := named.value, Refine(body.completedAt, at);
      var duration :=
        if body.durationMs.Some? then body.durationMs
        else ElapsedMs(if run in p.runs then p.runs[run] else None, time);
      var role := if body.aborted then RunStopped else if body.failed then RunFailed else RunCompleted;
      Parsed(CloseRun(p, run), [RunRecord(conversation, run, role, time, duration, body.errorType)])
  }

  /** The tool table after an insertion that may have put it one over its cap. */
  function EvictTool(p: Parser): Parser {
    if |p.tools.keys| > MAX_OPEN_TOOLS then DropTool(p, p.tools.keys[0]) else p
  }

  function EvictJoin(joins: Dict<Key, Join>): Dict<Key, Join> {
    if |joins.keys| > MAX_ITEM_CACHE then joins.Without({joins.keys[0]}) else joins
  }

  /** `_codex_call` */
  function CallTool(p: Parser, conversation: Id, at: Option<int>, body: Body): Parsed
    requires body.ToolCall?
  {
    var call := Either(body.callId, body.id);
    if p.run == None || call == None || call.value in p.tools.values then Parsed(p, [])
    else
      var key := call.value;
      var alias := if body.id.Some? && body.id.value != key then body.id else None;
      var q := p.(tools := p.tools.Put(key, Tool(p.run.value, body.name, at, alias)),
                  aliases := if alias.Some? then p.aliases[alias.value := key] else p.aliases);
      Parsed(EvictTool(q), [ToolRecord(conversation, p.run.value, ToolStarted, at, Keyed(key), body.name, None, None)])
  }

  /** What an item_completed record says about the tool: outcome and duration, when it says any. */
  function JoinOf(p: Parser, body: Body): Join
    requires body.ItemCompleted?
  {
    var ok :=
      if body.status == FailedStatus || (body.exitCode.Some? && body.exitCode.value != 0) then Some(false)
      else if body.status == CompletedStatus && body.exitCode == Some(0) then Some(true)
      else None;
    var elapsed :=
      if body.startedMs.Some? && body.completedMs.Some? then body.completedMs.value - body.startedMs.value else -1;
    Join(ok, if 0 <= elapsed <= MAX_DURATION_MS then Some(elapsed) else None, p.run)
  }

  /** `_codex_item` */
  function CompleteItem(p: Parser, body: Body): Parser
    requires body.ItemCompleted?
  {
    if body.item == None || (body.item.value !in p.tools.values && body.item.value !in p.aliases) then p
    else
      var join := JoinOf(p, body);
      if join.ok == None && join.durationMs == None then p
      else p.(joins := EvictJoin(p.joins.Put(body.item.value, join)))
  }

  /** The open call an output names, by its own key or by an alias. */
  function OutputCall(p: Parser, body: Body): Option<Key>
    requires body.ToolOutput?
  {
    var key := Either(body.callId, body.id);
    if key == None then None
    else if key.value in p.tools.values then key
    else if key.value in p.aliases && p.aliases[key.value] in p.tools.values then Some(p.aliases[key.value])
    else None
  }

  /** `_codex_output` */
  function FinishTool(p: Parser, conversation: Id, at: Option<int>, body: Body): Parsed
    requires body.ToolOutput?
  {
    var call := OutputCall(p, body);
    if call == None then Parsed(p, [])
    else
      var key, tool, joins := call.value, p.tools.values[call.value], p.joins.values;
      var used :=
        if key in joins then Some(key)
        else if tool.alias.Some? && tool.alias.value in joins then tool.alias
        else None;
      var join := if used.Some? then joins[used.value] else Join(None, None, None);
      var duration := if join.durationMs.Some? then join.durationMs else ElapsedMs(tool.at, at);
      var q := DropTool(p, key);
      var role := if join.ok == Some(false) then ToolFailed else ToolCompleted;
      Parsed(if used.Some? then q.(joins := p.joins.Without({used.value})) else q,
             [ToolRecord(conversation, tool.run, role, at, Keyed(key), tool.name, join.ok, duration)])
  }

  predicate Replayed(p: Parser, ordinal: Option<int>) {
    p.bound > 0 && ordinal.Some? && ordinal.value < p.bound
  }

  /** `parse_codex` */
  function Parse(p: Parser, record: Record, place: Place): Parsed {
    match record
    case SessionMeta(session, startOrdinal) =>
      Parsed(if p.meta then p
             else
               p.(meta := true, conversation := session,
                  bound := if startOrdinal.Some? && startOrdinal.value > 0 then startOrdinal.value else p.bound),
             [])
    case Entry(ordinal, at, body) =>
      if Replayed(p, ordinal) || p.conversation == None then Parsed(p, [])
      else
        var conversation := p.conversation.value;
        match body
        case TaskStarted(_, _) => StartTask(p, conversation, at, body)
        case TaskEnded(_, _, _, _, _, _) => EndTask(p, conversation, at, body)
        case ItemCompleted(_, _, _, _, _) => Parsed(CompleteItem(p, body), [])
        case ToolCall(_, _, _) => CallTool(p, conversation, at, body)
        case ToolOutput(_, _) => FinishTool(p, conversation, at, body)
        case WebSearch =>
          if p.run == None then Parsed(p, [])
          else
            var call := Positional(place.path, place.offset);
            Parsed(p, [ToolRecord(conversation, p.run.value, ToolCompleted, at, call, Some(WEB_SEARCH), None, None)])
        case Ignored => Parsed(p, [])
  }

  predicate Before(at: Option<int>, cutoff: int) {
    (if at.Some? then at.value else 0) < cutoff
  }

  /** `prune_parser`, Codex branch: day-old tools and runs, then joins and aliases left without an owner. */
  function Prune(p: Parser, cutoff: int): Parser {
    var recent := DropTools(p, set call | call in p.tools.values && Before(p.tools.values[call].at, cutoff));
    var closed := CloseRuns(recent, set run | run in p.runs && Before(p.runs[run], cutoff));
    closed.(joins := closed.joins.Without(set k | k in closed.joins.values
                                          && !InRuns(closed, closed.joins.values[k].run)),
            aliases := map a | a in closed.aliases && closed.aliases[a] in closed.tools.values :: closed.aliases[a])
  }

  predicate InRuns(p: Parser, run: Option<Id>) {
    run.Some? && run.value in p.runs
  }

  /** Closing several runs at once. */
  function CloseRuns(p: Parser, gone: set<Id>): Parser {
    var q := DropTools(p, set call | call in p.tools.values && p.tools.values[call].run in gone);
    q.(run := if p.run.Some? && p.run.value in gone then None else p.run, runs := p.runs - gone,
       joins := p.joins.Without(set k | k in p.joins.values && p.joins.values[k].run.Some?
                                && p.joins.values[k].run.value in gone))
  }

  /** `parser_idle` */
  predicate Idle(p: Parser) {
    p.runs == map[] && p.tools.values == map[]
  }

  /** What can happen to a file's parser: a line, or a pruning. */
  datatype Event = Line(record: Record, place: Place) | Pruned(cutoff: int)

  function Apply(p: Parser, e: Event): Parsed {
    match e
    case Line(record, place) => Parse(p, record, place)
    case Pruned(cutoff) => Parsed(Prune(p, cutoff), [])
  }

  function Then(first: Parsed, second: Parsed): Parsed {
    Parsed(second.p, first.out + second.out)
  }

  /** The parser and all its records after a sequence of events. */
  function Fold(p: Parser, events: seq<Event>): Parsed {
    if events == [] then Parsed(p, [])
    else
      var earlier := Fold(p, events[..|events| - 1]);
      Then(earlier, Apply(earlier.p, events[|events| - 1]))
  }
}
