/**
  How the runs of a Claude transcript begin and end, told by the events alone: a run is completed
  exactly when a terminal answer stood at its end, failed exactly by an API error, and stopped otherwise.
*/
module ClaudeRuns {
  import opened Common
  import opened OrderedDict
  import opened TraceRecord
  import opened ClaudeParser

  /** The parser before the i-th event. */
  function ParserAt(events: seq<Event>, i: nat): Parser
    requires i <= |events|
  {
    Fold(FRESH, events[..i]).p
  }

  function RecordsAt(events: seq<Event>, i: nat): seq<Rec>
    requires i < |events|
  {
    Apply(ParserAt(events, i), events[i]).out
  }

  lemma EventAt(events: seq<Event>, i: nat)
    requires i < |events|
    ensures Invariant(ParserAt(events, i)) && ParserAt(events, i + 1) == Apply(ParserAt(events, i), events[i]).p
  {
    ReachableClaude(events[..i]);
    assert events[..i + 1][..i] == events[..i];
  }

  /** A terminal answer after which the run is live with no tracked tool of it open. */
  predicate AnswersTo(e: Event, q: Parser) {
    && e.Record? && e.body.Assistant? && e.body.terminal && !e.body.apiError
    && q.live && q.run.Some? && !HasOpenTool(q, q.run.value.run)
  }

  /** The records begin a tool call or a run. */
  predicate Interrupting(out: seq<Rec>) {
    exists r :: r in out && (r.role == ToolStarted || r.role == RunStarted)
  }

  function TimeOf(e: Event): Option<int> {
    if e.Record? then e.at else None
  }

  /** What one event of a transcript is for the end of the run: an answer, an interruption, both or neither. */
  datatype Mark = Mark(answers: bool, interrupts: bool, time: Option<int>)

  function MarkOf(events: seq<Event>, i: nat): Mark
    requires i < |events|
  {
    Mark(AnswersTo(events[i], ParserAt(events, i + 1)), Interrupting(RecordsAt(events, i)), TimeOf(events[i]))
  }

  function Marks(events: seq<Event>): seq<Mark> {
    seq(|events|, i requires 0 <= i < |events| => MarkOf(events, i))
  }

  /** A terminal answer stands while no call and no run has begun since. */
  predicate Stands(marks: seq<Mark>, i: nat) {
    i < |marks| && marks[i].answers && forall j :: i < j < |marks| ==> !marks[j].interrupts
  }

  predicate Finished(marks: seq<Mark>) {
    exists i :: 0 <= i < |marks| && Stands(marks, i)
  }

  /** The time of the last standing answer that has one. */
  predicate FinishedAt(marks: seq<Mark>, at: Option<int>) {
    if at.Some? then exists i :: 0 <= i < |marks| && LastTimed(marks, i) && marks[i].time == at
    else forall i :: 0 <= i < |marks| && Stands(marks, i) ==> marks[i].time == None
  }

  predicate LastTimed(marks: seq<Mark>, i: nat)
    requires i < |marks|
  {
    Stands(marks, i) && forall j :: i < j < |marks| && Stands(marks, j) ==> marks[j].time == None
  }

  // ---- one event ----

  /** The uses of an assistant record: the first one that is newly tracked drops a held end. */
  lemma {:induction false} UsesInterrupt(p: Parser, owner: Owner, at: Option<int>, uses: seq<Use>)
    ensures var q := TakeUses(p, owner, at, uses);
            && q.p.held == (if q.out == [] then p.held else None)
            && (forall r :: r in q.out ==> r.role == ToolStarted)
  {
    if uses != [] {
      UsesInterrupt(p, owner, at, uses[..|uses| - 1]);
    }
  }

  lemma {:induction false} ResultsOnlyEnd(p: Parser, at: Option<int>, results: seq<Result>)
    ensures forall r :: r in TakeResults(p, at, results).out ==> IsToolEnd(r.role)
  {
    if results != [] {
      ResultsOnlyEnd(p, at, results[..|results| - 1]);
    }
  }

  /** What an answer leaves held: the new time, or the one already held. */
  lemma AnswerHolds(p: Parser, at: Option<int>, body: Body)
    requires Invariant(p) && body.Assistant?
    ensures var step := Answer(p, at, body);
            var kept := if Interrupting(step.out) then None else p.held;
            if AnswersTo(Record(at, body), step.p) then
              step.p.held.Some? && step.p.held.value.at == if at.Some? || kept == None then at else kept.value.at
            else step.p.held == if step.p.live then kept else None
    ensures Answer(p, at, body).p.live ==> p.live
  {
    if p.run.Some? {
      TakeUsesKeeps(p, p.run.value, at, body.uses);
      UsesInterrupt(p, p.run.value, at, body.uses);
      var used := TakeUses(p, p.run.value, at, body.uses);
      assert used.out != [] ==> used.out[0] in Answer(p, at, body).out;
    }
  }

  /** What any event leaves held: an answer holds, a call or a run that begins drops, and the rest leaves it. */
  ghost predicate Holds(p: Parser, e: Event, out: seq<Rec>, q: Parser) {
    var kept := if Interrupting(out) then None else p.held;
    && (if AnswersTo(e, q) then
          q.held.Some? && q.held.value.at == if TimeOf(e).Some? || kept == None then TimeOf(e) else kept.value.at
        else q.live ==> q.held == kept)
    && (q.live && !Interrupting(out) ==> p.live)
  }

  lemma SettledOnlyEnd(p: Parser, at: Option<int>)
    ensures forall r :: r in Settle(p, at).out ==> IsToolEnd(r.role)
  {
  }

  lemma RecordHolds(p: Parser, at: Option<int>, body: Body)
    requires Invariant(p)
    ensures var step := Apply(p, Record(at, body)); Holds(p, Record(at, body), step.out, step.p)
  {
    var settled := Settle(p, at);
    var parsed, step := Parse(settled.p, at, body), Apply(p, Record(at, body));
    SettledOnlyEnd(p, at);
    assert Interrupting(step.out) == Interrupting(parsed.out) by {
      assert forall r :: r in step.out <==> r in settled.out || r in parsed.out;
    }
    match body {
      case Assistant(_, _, _, _) => AnswerHolds(settled.p, at, body);
      case Results(results) =>
        TakeResultsKeeps(settled.p, at, results);
        ResultsOnlyEnd(settled.p, at, results);
      case Prompt(_, _, _) => PromptHolds(settled.p, at, body);
      case _ =>
    }
  }

  lemma PromptHolds(p: Parser, at: Option<int>, body: Body)
    requires Invariant(p) && body.Prompt?
    ensures var step := Ask(p, at, body); Interrupting(step.out) == (step.out != []) && (step.out == [] ==> step.p == p)
    ensures var step := Ask(p, at, body); step.out != [] ==> step.p.held == None
  {
    var step := Ask(p, at, body);
    if step.out != [] {
      assert step.out[|step.out| - 1] in step.out && step.out[|step.out| - 1].role == RunStarted;
    }
  }

  lemma EventHolds(p: Parser, e: Event)
    requires Invariant(p)
    ensures Holds(p, e, Apply(p, e).out, Apply(p, e).p)
  {
    match e {
      case Record(at, body) => RecordHolds(p, at, body);
      case Quiet(mtime) => SettledOnlyEnd(p, Some(mtime));
      case _ =>
    }
  }

  // ---- whole transcripts ----

  lemma StandsSnoc(marks: seq<Mark>, m: Mark, i: nat)
    ensures Stands(marks + [m], i) <==> if i == |marks| then m.answers else Stands(marks, i) && !m.interrupts
  {
    var all := marks + [m];
    if i < |marks| && Stands(all, i) {
      assert !all[|marks|].interrupts;
      assert forall j :: i < j < |marks| ==> marks[j] == all[j];
    }
  }

  /** An answer that is not interrupted leaves the earlier ones standing; otherwise it is the only one. */
  lemma FinishedSnoc(marks: seq<Mark>, m: Mark)
    ensures Finished(marks + [m]) <==> m.answers || (Finished(marks) && !m.interrupts)
  {
    var all := marks + [m];
    forall i: nat | i < |all| ensures Stands(all, i) <==>
        if i == |marks| then m.answers else Stands(marks, i) && !m.interrupts {
      StandsSnoc(marks, m, i);
    }
    if m.answers {
      assert Stands(all, |marks|);
    } else if Finished(marks) && !m.interrupts {
      var i :| 0 <= i < |marks| && Stands(marks, i);
      assert Stands(all, i);
    }
  }

  /** The time of the last standing answer that has one, one event later. */
  lemma FinishedAtSnoc(marks: seq<Mark>, m: Mark, at: Option<int>)
    requires if m.answers && (m.time.Some? || m.interrupts || !Finished(marks)) then at == m.time
             else !m.interrupts && FinishedAt(marks, at)
    ensures FinishedAt(marks + [m], at)
  {
    var all, n := marks + [m], |marks|;
    forall i: nat | i <= n ensures Stands(all, i) <==> if i == n then m.answers else Stands(marks, i) && !m.interrupts {
      StandsSnoc(marks, m, i);
    }
    if m.answers && m.time.Some? {
      assert LastTimed(all, n) && all[n].time == at;
    } else if at.Some? {
      var i :| 0 <= i < n && LastTimed(marks, i) && marks[i].time == at;
      assert Stands(all, i) && all[i].time == at;
      forall j | i < j <= n && Stands(all, j) ensures all[j].time == None {
        assert j < n ==> Stands(marks, j) && marks[j] == all[j];
      }
      assert LastTimed(all, i);
    } else {
      forall i: nat | i <= n && Stands(all, i) ensures all[i].time == None {
        assert i < n ==> Stands(marks, i) && marks[i] == all[i];
      }
    }
  }

  lemma MarksSnoc(events: seq<Event>)
    requires events != []
    ensures var n := |events| - 1; Marks(events) == Marks(events[..n]) + [MarkOf(events, n)]
  {
    var n := |events| - 1;
    forall i: nat | i < n ensures MarkOf(events[..n], i) == MarkOf(events, i) {
      assert events[..n][..i] == events[..i] && events[..n][..i + 1] == events[..i + 1];
    }
  }

  /** A live run has its end held exactly when a terminal answer stands, at the time of the last that has one. */
  lemma {:induction false} HeldIff(events: seq<Event>)
    ensures var p, marks := ParserAt(events, |events|), Marks(events);
            p.live ==> (p.held.Some? <==> Finished(marks)) && (p.held.Some? ==> FinishedAt(marks, p.held.value.at))
  {
    if events == [] {
      assert events[..0] == [];
    } else {
      var n := |events| - 1;
      HeldIff(events[..n]);
      assert events[..n][..n] == events[..n] && events[..n + 1] == events;
      EventAt(events, n);
      EventHolds(ParserAt(events, n), events[n]);
      MarksSnoc(events);
      HeldStep(Marks(events[..n]), MarkOf(events, n), ParserAt(events, n), ParserAt(events, n + 1));
    }
  }

  /** What is held follows the marks. */
  lemma HeldStep(marks: seq<Mark>, m: Mark, p: Parser, q: Parser)
    requires p.live ==> (p.held.Some? <==> Finished(marks)) && (p.held.Some? ==> FinishedAt(marks, p.held.value.at))
    requires !p.live ==> p.held == None
    requires var kept := if m.interrupts then None else p.held;
             && (if m.answers then
                   q.held.Some? && q.held.value.at == if m.time.Some? || kept == None then m.time else kept.value.at
                 else q.live ==> q.held == kept)
             && (q.live && !m.interrupts ==> p.live)
    ensures var all := marks + [m];
            q.live ==> (q.held.Some? <==> Finished(all)) && (q.held.Some? ==> FinishedAt(all, q.held.value.at))
  {
    FinishedSnoc(marks, m);
    if q.live && q.held.Some? {
      FinishedAtSnoc(marks, m, q.held.value.at);
    }
  }

  // ---- where a run begins ----

  /** The run of the parser and its start are those of the last prompt that began one. */
  lemma BeginsSets(p: Parser, e: Event)
    requires Invariant(p)
    ensures var q := Apply(p, e).p;
            if Begins(p, e)
               then q.run == Some(Owner(e.body.run.value, e.body.conversation)) && q.start == e.at && q.live
            else q.run == p.run && q.start == p.start && (q.live ==> p.live)
  {
    if e.Record? {
      var settled := Settle(p, e.at);
      match e.body {
        case Assistant(uses, _, _, _) =>
          if p.run.Some? {
            TakeUsesKeeps(settled.p, p.run.value, e.at, uses);
          }
        case Results(results) => TakeResultsKeeps(settled.p, e.at, results);
        case _ =>
      }
    }
  }

  function CurrentRun(events: seq<Event>, i: nat): Option<(Owner, Option<int>)>
    requires i <= |events|
  {
    var p := ParserAt(events, i);
    if p.run.Some? then Some((p.run.value, p.start)) else None
  }

  /** The i-th event begins the run that is current at the end of the transcript. */
  predicate BeganAt(events: seq<Event>, i: nat) {
    && i < |events| && BeginsAt(events, i) && events[i].body.run.Some?
    && var p := ParserAt(events, |events|);
       p.run == Some(Owner(events[i].body.run.value, events[i].body.conversation)) && p.start == events[i].at
  }

  lemma RunCameFrom(events: seq<Event>) returns (i: nat)
    requires ParserAt(events, |events|).run.Some?
    ensures BeganAt(events, i) && forall j :: i < j < |events| ==> !BeginsAt(events, j)
  {
    var stored := seq(|events| + 1, k requires 0 <= k <= |events| => CurrentRun(events, k));
    var put := seq(|events|, k requires 0 <= k < |events| => BeginsAt(events, k));
    assert events[..0] == [];
    forall k | 0 <= k < |put| && stored[k + 1].Some? && !put[k] ensures stored[k] == stored[k + 1] {
      EventAt(events, k);
      BeginsSets(ParserAt(events, k), events[k]);
    }
    i := LastPut(stored, put);
    EventAt(events, i);
    BeginsSets(ParserAt(events, i), events[i]);
    forall j | i < j < |events| ensures !BeginsAt(events, j) {
      assert !put[j];
    }
  }

  // ---- how a run ends ----

  predicate HasRole(out: seq<Rec>, role: Role) {
    exists r :: r in out && r.role == role
  }

  /** The record is of the parser's run, with this role, time and error. */
  predicate OfRun(r: Rec, p: Parser, role: Role, at: Option<int>, errorType: Option<Name>) {
    && p.run.Some?
    && r == Rec(p.run.value.conversation, p.run.value.run, role, at, None, None, None, r.durationMs, errorType)
  }

  /** A turn_duration record with a possible duration. */
  predicate Times(e: Event) {
    && e.Record? && e.body.TurnDuration? && e.body.durationMs.Some?
    && 0 <= e.body.durationMs.value <= MAX_DURATION_MS
  }

  predicate Fails(p: Parser, e: Event) {
    e.Record? && e.body.Assistant? && e.body.apiError && p.live
  }

  /** The records of an assistant record: the failure if it is an API error, and otherwise only tool starts. */
  lemma AnswerTells(p: Parser, at: Option<int>, body: Body)
    requires Invariant(p) && body.Assistant?
    ensures var out := Answer(p, at, body).out;
            && (HasRole(out, RunFailed) <==> body.apiError && p.live)
            && forall r :: r in out ==>
                 || r.role == ToolStarted
                 || (OfRun(r, p, RunFailed, at, body.errorType) && Lasted(p.start, at, r.durationMs))
  {
    if p.run.Some? {
      TakeUsesKeeps(p, p.run.value, at, body.uses);
      UsesInterrupt(p, p.run.value, at, body.uses);
      ElapsedLasted(p.start, at);
      var out := Answer(p, at, body).out;
      if body.apiError && p.live {
        assert out[|out| - 1] in out && out[|out| - 1].role == RunFailed;
      }
    }
  }

  /** The records of the prompt of another run: the end of a live run, completed if one is held, and the start. */
  lemma PromptTells(p: Parser, at: Option<int>, body: Body)
    requires Invariant(p) && body.Prompt? && Begins(p, Record(at, body))
    ensures var out := Ask(p, at, body).out;
            && |out| == (if p.live then 2 else 1)
            && out[|out| - 1] == Rec(body.conversation, body.run.value, RunStarted, at, None, None, None, None, None)
            && (p.live && p.held == None ==>
                  OfRun(out[0], p, RunStopped, at, None) && Lasted(p.start, at, out[0].durationMs))
            && (p.held.Some? ==> CompletesHeld(out[0], p))
  {
    ElapsedLasted(p.start, at);
    if p.held.Some? {
      FlushTells(p);
    }
  }

  /** The completed run of a held end: at the held time, and as long as was said, else from the start to then. */
  predicate CompletesHeld(r: Rec, p: Parser) {
    && p.held.Some? && OfRun(r, p, RunCompleted, p.held.value.at, None)
    && var said := p.held.value.durationMs;
       if said.Some? then r.durationMs == if 0 <= said.value <= MAX_DURATION_MS then said else None
       else Lasted(p.start, p.held.value.at, r.durationMs)
  }

  lemma FlushTells(p: Parser)
    requires HeldIsQuiet(p)
    ensures var out := Flush(p).out; if p.held.Some? then |out| == 1 && CompletesHeld(out[0], p) else out == []
  {
    if p.held.Some? {
      ElapsedLasted(p.start, p.held.value.at);
    }
  }

  /** Which run records the event tells, and what they say. */
  ghost predicate RunRecordsSay(p: Parser, e: Event, out: seq<Rec>) {
    && (HasRole(out, RunFailed) <==> Fails(p, e))
    && (HasRole(out, RunStopped) <==> Begins(p, e) && p.live && p.held == None)
    && (HasRole(out, RunCompleted) <==> p.held.Some? && (Begins(p, e) || e.Quiet? || Times(e)))
    && (HasRole(out, RunStarted) <==> Begins(p, e))
    && forall r :: r in out ==> RunRecordSays(p, e, r)
  }

  predicate RunRecordSays(p: Parser, e: Event, r: Rec) {
    match r.role
    case RunFailed => Fails(p, e) && OfRun(r, p, RunFailed, e.at, e.body.errorType)
                    && Lasted(p.start, e.at, r.durationMs)
    case RunStopped => Begins(p, e) && OfRun(r, p, RunStopped, e.at, None) && Lasted(p.start, e.at, r.durationMs)
    case RunCompleted =>
      && p.held.Some? && OfRun(r, p, RunCompleted, p.held.value.at, None)
      && if Times(e) then r.durationMs == e.body.durationMs else Lasted(p.start, p.held.value.at, r.durationMs)
    case RunStarted =>
      && Begins(p, e)
      && r == Rec(e.body.conversation, e.body.run.value, RunStarted, e.at, None, None, None, None, None)
    case _ => true
  }

  lemma OnlyToolsSay(p: Parser, e: Event, out: seq<Rec>)
    requires forall r :: r in out ==> IsTool(r.role)
    requires !Fails(p, e) && !Begins(p, e) && (e.Quiet? || Times(e) ==> p.held == None)
    ensures RunRecordsSay(p, e, out)
  {
  }

  lemma ToolsFirst(p: Parser, e: Event, tools: seq<Rec>, out: seq<Rec>)
    requires (forall r :: r in tools ==> IsTool(r.role)) && RunRecordsSay(p, e, out)
    ensures RunRecordsSay(p, e, tools + out)
  {
    forall role | !IsTool(role) ensures HasRole(tools + out, role) == HasRole(out, role) {
      if HasRole(out, role) {
        var r :| r in out && r.role == role;
        assert r in tools + out;
      }
    }
  }

  lemma PromptSays(p: Parser, at: Option<int>, body: Body)
    requires Invariant(p) && body.Prompt? && (p.held.Some? ==> p.held.value.durationMs == None)
    ensures RunRecordsSay(p, Record(at, body), Ask(p, at, body).out)
  {
    var e, out := Record(at, body), Ask(p, at, body).out;
    if Begins(p, e) {
      PromptTells(p, at, body);
      assert out[|out| - 1] in out && out[0] in out;
    }
  }

  lemma FlushSays(p: Parser, e: Event)
    requires Invariant(p) && (p.held.Some? ==> p.held.value.durationMs == None)
    requires e.Quiet? || Times(e)
    ensures var q := if e.Quiet? || p.held == None then p
                    else p.(held := Some(p.held.value.(durationMs := e.body.durationMs)));
            RunRecordsSay(p, e, Flush(q).out)
  {
    var q := if e.Quiet? || p.held == None then p else p.(held := Some(p.held.value.(durationMs := e.body.durationMs)));
    FlushTells(q);
    var out := Flush(q).out;
    assert out != [] ==> out[0] in out;
  }

  lemma ParseSays(p: Parser, at: Option<int>, body: Body)
    requires Invariant(p) && (p.held.Some? ==> p.held.value.durationMs == None)
    ensures RunRecordsSay(p, Record(at, body), Parse(p, at, body).out)
  {
    var e, out := Record(at, body), Parse(p, at, body).out;
    match body {
      case Prompt(_, _, _) => PromptSays(p, at, body);
      case Assistant(_, _, _, _) => AnswerTells(p, at, body);
      case Results(results) =>
        TakeResultsKeeps(p, at, results);
        OnlyToolsSay(p, e, out);
      case TurnDuration(_) =>
        if p.held.Some? && Times(e) {
          FlushSays(p, e);
        }
      case Other =>
    }
  }

  /** What a settled parser says is what the parser says: only tool ends were told. */
  lemma SettledSays(p: Parser, at: Option<int>, e: Event, out: seq<Rec>)
    requires RunRecordsSay(Settle(p, at).p, e, out)
    ensures RunRecordsSay(p, e, out)
  {
    var q := Settle(p, at).p;
    assert q == p.(deferred := q.deferred);
    forall r | r in out ensures RunRecordSays(p, e, r) {
      assert RunRecordSays(q, e, r);
    }
  }

  lemma EventSays(p: Parser, e: Event)
    requires Invariant(p) && (p.held.Some? ==> p.held.value.durationMs == None)
    ensures RunRecordsSay(p, e, Apply(p, e).out)
  {
    match e {
      case Record(at, body) =>
        var settled := Settle(p, at);
        ParseSays(settled.p, at, body);
        SettledSays(p, at, e, Parse(settled.p, at, body).out);
        ToolsFirst(p, e, settled.out, Parse(settled.p, at, body).out);
      case Quiet(mtime) =>
        var settled := Settle(p, Some(mtime));
        FlushSays(settled.p, e);
        SettledSays(p, Some(mtime), e, Flush(settled.p).out);
        ToolsFirst(p, e, settled.out, Flush(settled.p).out);
      case _ => OnlyToolsSay(p, e, Apply(p, e).out);
    }
  }

  predicate Untimed(p: Parser) {
    p.held.Some? ==> p.held.value.durationMs == None
  }

  lemma UntimedStep(p: Parser, e: Event)
    requires Invariant(p) && Untimed(p)
    ensures Untimed(Apply(p, e).p)
  {
    if e.Record? {
      var settled := Settle(p, e.at).p;
      match e.body {
        case Assistant(uses, _, _, _) =>
          if p.run.Some? {
            UsesInterrupt(settled, p.run.value, e.at, uses);
          }
        case Results(results) => TakeResultsKeeps(settled, e.at, results);
        case _ =>
      }
    }
  }

  /** A duration is told with the end it makes final; none is ever held. */
  lemma {:induction false} HeldUntimed(events: seq<Event>)
    ensures Untimed(ParserAt(events, |events|))
  {
    if events == [] {
      assert events[..0] == [];
    } else {
      var n := |events| - 1;
      HeldUntimed(events[..n]);
      assert events[..n][..n] == events[..n] && events[..n + 1] == events;
      EventAt(events, n);
      UntimedStep(ParserAt(events, n), events[n]);
    }
  }

  /** The run ended is that of its prompt, and it lasted from there, unless the event says how long it was. */
  predicate EndsRunOf(r: Rec, prompt: Event, e: Event)
    requires prompt.Record? && prompt.body.Prompt? && prompt.body.run.Some?
  {
    && r.run == prompt.body.run.value && r.conversation == prompt.body.conversation
    && (if r.role == RunCompleted && Times(e) then r.durationMs == e.body.durationMs
        else Lasted(prompt.at, r.at, r.durationMs))
  }

  /**
    How every run ends. A live run fails exactly at an API error. When the prompt of another run ends it,
    it was completed exactly when a terminal answer stands, given with no tracked tool of the run open
    and with no tool call begun since, and stopped otherwise. A standing answer is also made final by a
    quiet file or a turn_duration record, and by nothing else. The completed run ended at the time of
    the last standing answer that has one; the others at the time of the ending event.
  */
  lemma RunEnds(events: seq<Event>, e: Event) returns (b: nat)
    ensures var p, marks, out := ParserAt(events, |events|), Marks(events), Apply(ParserAt(events, |events|), e).out;
            && (HasRole(out, RunFailed) <==> e.Record? && e.body.Assistant? && e.body.apiError && p.live)
            && (HasRole(out, RunStopped) <==> p.live && Begins(p, e) && !Finished(marks))
            && (HasRole(out, RunCompleted) <==> p.live && Finished(marks) && (Begins(p, e) || e.Quiet? || Times(e)))
            && (HasRole(out, RunStarted) <==> Begins(p, e))
            && (p.run.Some? ==> BeganAt(events, b) && forall j :: b < j < |events| ==> !BeginsAt(events, j))
            && (forall r :: r in out && IsRunEnd(r.role) ==>
                  && p.run.Some? && EndsRunOf(r, events[b], e)
                  && if r.role == RunCompleted then FinishedAt(marks, r.at) else r.at == TimeOf(e))
  {
    var p, out := ParserAt(events, |events|), Apply(ParserAt(events, |events|), e).out;
    b := 0;
    assert events[..|events|] == events;
    ReachableClaude(events);
    HeldIff(events);
    HeldUntimed(events);
    EventSays(p, e);
    if p.run.Some? {
      b := RunCameFrom(events);
    }
  }
}
