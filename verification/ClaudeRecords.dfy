/** What the tool records of a Claude transcript say, and what a pruning forgets. */
module ClaudeRecords {
  import opened Common
  import opened OrderedDict
  import opened TraceRecord
  import opened ClaudeParser
  import opened ClaudeRuns

  // ---- tool ends ----

  /** The end of this tool: it failed exactly when the result was an error, and lasted from its use. */
  predicate EndOf(r: Rec, key: Key, tool: Tool, at: Option<int>, isError: Option<bool>) {
    && r == Rec(tool.conversation, tool.run, r.role, at, Some(Keyed(key)), tool.name, r.success, r.durationMs, None)
    && (r.role == ToolFailed <==> isError == Some(true)) && (r.role == ToolCompleted <==> isError != Some(true))
    && (r.success == Some(false) <==> isError == Some(true)) && (r.success == Some(true) <==> isError == Some(false))
    && Lasted(tool.at, at, r.durationMs)
  }

  /** The end of a tool whose own time was never known: told at the first time known after it, and nothing more. */
  predicate LateEndOf(r: Rec, d: Deferred, at: Option<int>) {
    r == Rec(d.tool.conversation, d.tool.run, ToolCompleted, at, Some(Keyed(d.key)), d.tool.name, None, None, None)
  }

  function Flipped(flag: Option<bool>): Option<bool> {
    if flag.Some? then Some(!flag.value) else None
  }

  lemma EndOfToolSays(key: Key, tool: Tool, at: Option<int>, isError: Option<bool>)
    ensures EndOf(EndOfTool(key, tool, at, Flipped(isError)), key, tool, at, isError)
  {
    ElapsedLasted(tool.at, at);
  }

  /** The first result of this call in the record. */
  predicate ResultOf(results: seq<Result>, i: nat, key: Key) {
    && i < |results| && results[i].call == Some(key)
    && forall j :: 0 <= j < i ==> results[j].call != Some(key)
  }

  predicate HasResult(results: seq<Result>, key: Key) {
    exists i :: 0 <= i < |results| && results[i].call == Some(key)
  }

  /** The record ends one of the open tools by its first result. */
  ghost predicate EndsByResult(r: Rec, tools: map<Key, Tool>, at: Option<int>, results: seq<Result>) {
    exists i: nat, key :: ResultOf(results, i, key) && key in tools && EndOf(r, key, tools[key], at, results[i].isError)
  }

  /** The open tool is ended by its first result. */
  ghost predicate IsEnded(out: seq<Rec>, key: Key, tool: Tool, at: Option<int>, isError: Option<bool>) {
    exists r :: r in out && EndOf(r, key, tool, at, isError)
  }

  ghost predicate ResultsSay(p: Parser, at: Option<int>, results: seq<Result>, out: seq<Rec>) {
    && (forall r :: r in out ==> EndsByResult(r, p.tools.values, at, results))
    && (forall i: nat, key :: ResultOf(results, i, key) && key in p.tools.values ==>
          IsEnded(out, key, p.tools.values[key], at, results[i].isError))
  }

  lemma OneMoreResult(results: seq<Result>, last: Result, i: nat, key: Key)
    ensures ResultOf(results + [last], i, key) <==>
            if i == |results| then last.call == Some(key) && !HasResult(results, key) else ResultOf(results, i, key)
    ensures HasResult(results + [last], key) <==> HasResult(results, key) || last.call == Some(key)
  {
    var all := results + [last];
    assert all[|results|] == last && forall j :: 0 <= j < |results| ==> all[j] == results[j];
  }

  lemma StillByResult(r: Rec, tools: map<Key, Tool>, at: Option<int>, results: seq<Result>, last: Result)
    requires EndsByResult(r, tools, at, results)
    ensures EndsByResult(r, tools, at, results + [last])
  {
    var i: nat, key :| ResultOf(results, i, key) && key in tools && EndOf(r, key, tools[key], at, results[i].isError);
    OneMoreResult(results, last, i, key);
    assert ResultOf(results + [last], i, key) && (results + [last])[i] == results[i];
  }

  lemma StillEnded(out: seq<Rec>, more: seq<Rec>, key: Key, tool: Tool, at: Option<int>, isError: Option<bool>)
    requires IsEnded(out, key, tool, at, isError) || IsEnded(more, key, tool, at, isError)
    ensures IsEnded(out + more, key, tool, at, isError)
  {
    var r :| (r in out || r in more) && EndOf(r, key, tool, at, isError);
    assert r in out + more;
  }

  lemma LastResultTakes(p: Parser, at: Option<int>, before: seq<Result>, last: Result, key: Key, tool: Tool)
    requires last.call == Some(key) && key in TakeResults(p, at, before).p.tools.values
    requires tool == TakeResults(p, at, before).p.tools.values[key]
    ensures TakeResults(p, at, before + [last]).out
            == TakeResults(p, at, before).out + [EndOfTool(key, tool, at, Flipped(last.isError))]
  {
    var results := before + [last];
    assert results[..|results| - 1] == before;
  }

  lemma LastResultEnds(tools: map<Key, Tool>, at: Option<int>, before: seq<Result>, last: Result, key: Key)
    requires last.call == Some(key) && key in tools && !HasResult(before, key)
    ensures var r := EndOfTool(key, tools[key], at, Flipped(last.isError));
            EndsByResult(r, tools, at, before + [last]) && IsEnded([r], key, tools[key], at, last.isError)
  {
    var results, r := before + [last], EndOfTool(key, tools[key], at, Flipped(last.isError));
    OneMoreResult(before, last, |before|, key);
    EndOfToolSays(key, tools[key], at, last.isError);
    assert ResultOf(results, |before|, key) && results[|before|] == last && r in [r];
  }

  lemma LastResultCloses(p: Parser, at: Option<int>, before: seq<Result>, last: Result)
    ensures var tools := TakeResults(p, at, before).p.tools.values;
            TakeResults(p, at, before + [last]).p.tools.values
             == if last.call.Some? then tools - {last.call.value} else tools
  {
    assert (before + [last])[..|before|] == before;
    var tools := TakeResults(p, at, before).p.tools.values;
    if last.call.Some? && last.call.value !in tools {
      assert tools - {last.call.value} == tools;
    }
  }

  lemma {:induction false} ResultCloses(p: Parser, at: Option<int>, results: seq<Result>, key: Key)
    ensures var tools := TakeResults(p, at, results).p.tools.values;
            && (key in tools <==> key in p.tools.values && !HasResult(results, key))
            && (key in tools ==> tools[key] == p.tools.values[key])
  {
    if results != [] {
      var before, last := results[..|results| - 1], results[|results| - 1];
      assert results == before + [last];
      ResultCloses(p, at, before, key);
      LastResultCloses(p, at, before, last);
      OneMoreResult(before, last, 0, key);
    }
  }

  /** The tools with a result in the record are no longer open; the others are as they were. */
  lemma ResultsClose(p: Parser, at: Option<int>, results: seq<Result>)
    ensures var tools := TakeResults(p, at, results).p.tools.values;
            && (forall key :: key in tools <==> key in p.tools.values && !HasResult(results, key))
            && (forall key :: key in tools ==> tools[key] == p.tools.values[key])
  {
    var tools := TakeResults(p, at, results).p.tools.values;
    forall key
      ensures key in tools <==> key in p.tools.values && !HasResult(results, key)
      ensures key in tools ==> tools[key] == p.tools.values[key]
    {
      ResultCloses(p, at, results, key);
    }
  }

  /** Each open tool with a result in the record is ended by its first one, and no other. */
  lemma {:induction false} ResultsTell(p: Parser, at: Option<int>, results: seq<Result>)
    ensures ResultsSay(p, at, results, TakeResults(p, at, results).out)
  {
    if results != [] {
      var before, last := results[..|results| - 1], results[|results| - 1];
      assert results == before + [last];
      ResultsTell(p, at, before);
      ResultsClose(p, at, before);
      var earlier, step := TakeResults(p, at, before), TakeResults(p, at, results);
      if last.call.Some? && last.call.value in earlier.p.tools.values {
        LastResultTakes(p, at, before, last, last.call.value, p.tools.values[last.call.value]);
        LastResultEnds(p.tools.values, at, before, last, last.call.value);
      }
      assert earlier.out <= step.out;
      forall r | r in step.out ensures EndsByResult(r, p.tools.values, at, results) {
        if r in earlier.out {
          StillByResult(r, p.tools.values, at, before, last);
        }
      }
      forall i: nat, key | ResultOf(results, i, key) && key in p.tools.values
        ensures IsEnded(step.out, key, p.tools.values[key], at, results[i].isError)
      {
        OneMoreResult(before, last, i, key);
        StillEnded(earlier.out, step.out[|earlier.out|..], key, p.tools.values[key], at, results[i].isError);
        assert earlier.out + step.out[|earlier.out|..] == step.out;
      }
    }
  }

  // ---- which tool ends an event tells ----

  /** The time the event makes known, if any. */
  function KnownTime(e: Event): Option<int> {
    match e
    case Record(at, _) => at
    case Quiet(mtime) => Some(mtime)
    case _ => None
  }

  /** One of the tools deferred is ended at the time the event makes known. */
  predicate EndsDeferred(r: Rec, p: Parser, e: Event) {
    KnownTime(e).Some? && exists i :: 0 <= i < |p.deferred| && LateEndOf(r, p.deferred[i], KnownTime(e))
  }

  /** The open tool whose result was recovered with its time is ended. */
  predicate EndsRecovered(r: Rec, p: Parser, e: Event) {
    && e.Envelope? && e.at.Some? && e.call.Some? && e.call.value in p.tools.values
    && EndOf(r, e.call.value, p.tools.values[e.call.value], e.at, Flipped(e.success))
  }

  ghost predicate EndsInRecord(r: Rec, p: Parser, e: Event) {
    e.Record? && e.body.Results? && EndsByResult(r, p.tools.values, e.at, e.body.results)
  }

  /** Why a tool end is told: its result, its recovered result, or the first time known after a deferred one. */
  ghost predicate EndToldFor(r: Rec, p: Parser, e: Event) {
    EndsDeferred(r, p, e) || EndsInRecord(r, p, e) || EndsRecovered(r, p, e)
  }

  predicate IsLateEnded(out: seq<Rec>, d: Deferred, at: Option<int>) {
    exists r :: r in out && LateEndOf(r, d, at)
  }

  lemma SettledEnds(p: Parser, e: Event)
    requires KnownTime(e).Some?
    ensures var out := Settle(p, KnownTime(e)).out;
            && |out| == |p.deferred| && forall i :: 0 <= i < |out| ==> LateEndOf(out[i], p.deferred[i], KnownTime(e))
  {
  }

  lemma SettledAre(p: Parser, e: Event, r: Rec)
    requires e.Record? || e.Quiet?
    requires r in Settle(p, KnownTime(e)).out
    ensures EndsDeferred(r, p, e)
  {
    SettledEnds(p, e);
    var out := Settle(p, KnownTime(e)).out;
    var i :| 0 <= i < |out| && out[i] == r;
    assert LateEndOf(r, p.deferred[i], KnownTime(e));
  }

  lemma ParsedEnds(p: Parser, at: Option<int>, body: Body, r: Rec)
    requires Invariant(p) && r in Parse(p, at, body).out && IsToolEnd(r.role)
    ensures body.Results? && EndsByResult(r, p.tools.values, at, body.results)
  {
    match body {
      case Results(results) => ResultsTell(p, at, results);
      case Assistant(_, _, _, _) =>
        AnswerTells(p, at, body);
        assert false;
      case _ =>
    }
  }

  /** Every tool end is told for one of these three reasons, and says no more than its reason gives. */
  lemma ToolEndHasReason(p: Parser, e: Event, r: Rec)
    requires Invariant(p) && r in Apply(p, e).out && IsToolEnd(r.role)
    ensures EndToldFor(r, p, e)
  {
    match e {
      case Record(at, body) =>
        var settled := Settle(p, at);
        if r in settled.out {
          SettledAre(p, e, r);
        } else {
          ParsedEnds(settled.p, at, body, r);
        }
      case Quiet(mtime) =>
        var settled := Settle(p, Some(mtime));
        if r in settled.out {
          SettledAre(p, e, r);
        } else {
          FlushTells(settled.p);
        }
      case Envelope(call, at, success) => EnvelopeTells(p, call, at, success);
      case Pruned(_) =>
    }
  }

  lemma EnvelopeTells(p: Parser, call: Option<Key>, at: Option<int>, success: Option<bool>)
    ensures var e := Envelope(call, at, success);
            forall r :: r in Apply(p, e).out ==> EndsRecovered(r, p, e)
    ensures at.Some? && call.Some? && call.value in p.tools.values ==>
              IsEnded(Apply(p, Envelope(call, at, success)).out, call.value,
                       p.tools.values[call.value], at, Flipped(success))
  {
    if at.Some? && call.Some? && call.value in p.tools.values {
      var tool, out := p.tools.values[call.value], Apply(p, Envelope(call, at, success)).out;
      EndOfToolSays(call.value, tool, at, Flipped(success));
      assert out[0] in out;
    }
  }

  /** And for each of these reasons the end is told. */
  lemma ToolEndsAreTold(p: Parser, e: Event)
    requires Invariant(p)
    ensures KnownTime(e).Some? ==>
              forall i :: 0 <= i < |p.deferred| ==> IsLateEnded(Apply(p, e).out, p.deferred[i], KnownTime(e))
    ensures e.Record? && e.body.Results? ==>
              forall i: nat, key :: ResultOf(e.body.results, i, key) && key in p.tools.values ==>
                IsEnded(Apply(p, e).out, key, p.tools.values[key], e.at, e.body.results[i].isError)
    ensures e.Envelope? && e.at.Some? && e.call.Some? && e.call.value in p.tools.values ==>
              IsEnded(Apply(p, e).out, e.call.value, p.tools.values[e.call.value], e.at, Flipped(e.success))
  {
    if e.Envelope? {
      EnvelopeTells(p, e.call, e.at, e.success);
    }
    if KnownTime(e).Some? {
      SettledEnds(p, e);
      var settled := Settle(p, KnownTime(e)).out;
      forall i | 0 <= i < |p.deferred|
        ensures IsLateEnded(Apply(p, e).out, p.deferred[i], KnownTime(e))
      {
        assert settled[i] in settled && settled[i] in Apply(p, e).out;
      }
    }
    if e.Record? && e.body.Results? {
      ResultsAreTold(p, e.at, e.body.results);
    }
  }

  lemma ResultsAreTold(p: Parser, at: Option<int>, results: seq<Result>)
    ensures forall i: nat, key :: ResultOf(results, i, key) && key in p.tools.values ==>
              IsEnded(Apply(p, Record(at, Results(results))).out, key, p.tools.values[key], at, results[i].isError)
  {
    var q, out := Settle(p, at).p, Apply(p, Record(at, Results(results))).out;
    ResultsTell(q, at, results);
    forall i: nat, key | ResultOf(results, i, key) && key in p.tools.values
      ensures IsEnded(out, key, p.tools.values[key], at, results[i].isError)
    {
      assert IsEnded(TakeResults(q, at, results).out, key, q.tools.values[key], at, results[i].isError);
      var r :| r in TakeResults(q, at, results).out && EndOf(r, key, q.tools.values[key], at, results[i].isError);
      assert r in out;
    }
  }

  // ---- tool starts ----

  /** The use of a tool that this record starts, in the run of the parser. */
  predicate StartOf(r: Rec, owner: Owner, at: Option<int>, use: Use) {
    && use.call.Some?
    && r == Rec(owner.conversation, owner.run, ToolStarted, at, Some(Keyed(use.call.value)), use.name, None, None, None)
  }

  predicate StartsByUse(r: Rec, owner: Owner, at: Option<int>, uses: seq<Use>) {
    exists i :: 0 <= i < |uses| && StartOf(r, owner, at, uses[i])
  }

  predicate IsStarted(out: seq<Rec>, key: Key) {
    exists r :: r in out && r.role == ToolStarted && r.call == Some(Keyed(key))
  }

  /** The tool is the one the record says is started. */
  predicate ToolStartedBy(r: Rec, key: Key, tool: Tool, at: Option<int>) {
    && r == Rec(tool.conversation, tool.run, ToolStarted, at, Some(Keyed(key)), tool.name, None, None, None)
    && tool.at == at
  }

  ghost predicate Entered(out: seq<Rec>, key: Key, tool: Tool, at: Option<int>) {
    exists r :: r in out && ToolStartedBy(r, key, tool, at)
  }

  /** Every start is of a use; a use of a tool that was not open starts it; and the tools are as started. */
  ghost predicate UsesSay(p: Parser, owner: Owner, at: Option<int>, uses: seq<Use>, out: seq<Rec>, q: Parser) {
    && (forall r :: r in out ==> StartsByUse(r, owner, at, uses))
    && (forall i :: 0 <= i < |uses| && uses[i].call.Some? && uses[i].call.value !in p.tools.values ==>
          IsStarted(out, uses[i].call.value))
    && (forall key :: key in q.tools.values ==>
          || (key in p.tools.values && q.tools.values[key] == p.tools.values[key])
          || Entered(out, key, q.tools.values[key], at))
  }

  lemma MoreStarted(out: seq<Rec>, r: Rec, key: Key)
    ensures IsStarted(out, key) || (r.role == ToolStarted && r.call == Some(Keyed(key))) ==> IsStarted(out + [r], key)
  {
    if r.role == ToolStarted && r.call == Some(Keyed(key)) {
      assert r in out + [r];
    }
    if IsStarted(out, key) {
      var s :| s in out && s.role == ToolStarted && s.call == Some(Keyed(key));
      assert s in out + [r];
    }
  }

  lemma MoreEntered(out: seq<Rec>, r: Rec, key: Key, tool: Tool, at: Option<int>)
    ensures Entered(out, key, tool, at) || ToolStartedBy(r, key, tool, at) ==> Entered(out + [r], key, tool, at)
  {
    if ToolStartedBy(r, key, tool, at) {
      assert r in out + [r];
    }
    if Entered(out, key, tool, at) {
      var s :| s in out && ToolStartedBy(s, key, tool, at);
      assert s in out + [r];
    }
  }

  /** A key that is open after some uses, and was not before, has been started. */
  lemma {:induction false} UsesTell(p: Parser, owner: Owner, at: Option<int>, uses: seq<Use>)
    ensures UsesSay(p, owner, at, uses, TakeUses(p, owner, at, uses).out, TakeUses(p, owner, at, uses).p)
  {
    if uses != [] {
      var before, last := uses[..|uses| - 1], uses[|uses| - 1];
      UsesTell(p, owner, at, before);
      UseTells(p, owner, at, before, last);
      assert uses == before + [last];
    }
  }

  lemma UseTells(p: Parser, owner: Owner, at: Option<int>, before: seq<Use>, last: Use)
    requires UsesSay(p, owner, at, before, TakeUses(p, owner, at, before).out, TakeUses(p, owner, at, before).p)
    ensures var uses := before + [last];
            UsesSay(p, owner, at, uses, TakeUses(p, owner, at, uses).out, TakeUses(p, owner, at, uses).p)
  {
    var uses, earlier := before + [last], TakeUses(p, owner, at, before);
    assert uses[..|uses| - 1] == before;
    var step := TakeUses(p, owner, at, uses);
    forall r | r in earlier.out ensures StartsByUse(r, owner, at, uses) {
      var i :| 0 <= i < |before| && StartOf(r, owner, at, before[i]);
      assert StartOf(r, owner, at, uses[i]);
    }
    if last.call.Some? && last.call.value !in earlier.p.tools.values {
      var key := last.call.value;
      var r := ToolRecord(owner.conversation, owner.run, ToolStarted, at, Keyed(key), last.name, None, None);
      assert StartOf(r, owner, at, uses[|before|]) && step.out == earlier.out + [r];
      forall k ensures IsStarted(earlier.out, k) || k == key ==> IsStarted(step.out, k) {
        MoreStarted(earlier.out, r, k);
      }
      forall k | k in step.p.tools.values
        ensures (k in p.tools.values && step.p.tools.values[k] == p.tools.values[k])
                || Entered(step.out, k, step.p.tools.values[k], at)
      {
        MoreEntered(earlier.out, r, k, step.p.tools.values[k], at);
      }
    } else if last.call.Some? && last.call.value !in p.tools.values {
      EnteredIsStarted(earlier.out, last.call.value, earlier.p.tools.values[last.call.value], at);
    }
  }

  lemma EnteredIsStarted(out: seq<Rec>, key: Key, tool: Tool, at: Option<int>)
    requires Entered(out, key, tool, at)
    ensures IsStarted(out, key)
  {
    var r :| r in out && ToolStartedBy(r, key, tool, at);
  }

  // ---- one event ----

  lemma RecordTools(p: Parser, at: Option<int>, body: Body)
    requires Invariant(p)
    ensures var step := Parse(p, at, body);
            && (forall r :: r in step.out && r.role == ToolStarted ==>
                  body.Assistant? && p.run.Some? && StartsByUse(r, p.run.value, at, body.uses))
            && (forall key :: key in step.p.tools.values ==>
                  || (key in p.tools.values && step.p.tools.values[key] == p.tools.values[key])
                  || Entered(step.out, key, step.p.tools.values[key], at))
  {
    match body {
      case Assistant(uses, _, _, _) =>
        if p.run.Some? {
          AnswerTools(p, at, body);
        }
      case Results(results) =>
        ResultsOnlyEnd(p, at, results);
        ResultsClose(p, at, results);
      case _ =>
    }
  }

  lemma AnswerTools(p: Parser, at: Option<int>, body: Body)
    requires Invariant(p) && body.Assistant? && p.run.Some?
    ensures var step := Answer(p, at, body);
            && (forall r :: r in step.out && r.role == ToolStarted ==> StartsByUse(r, p.run.value, at, body.uses))
            && (forall i ::
                  && 0 <= i < |body.uses| && body.uses[i].call.Some?
                  && body.uses[i].call.value !in p.tools.values
                  ==> IsStarted(step.out, body.uses[i].call.value))
            && (forall key :: key in step.p.tools.values ==>
                  || (key in p.tools.values && step.p.tools.values[key] == p.tools.values[key])
                  || Entered(step.out, key, step.p.tools.values[key], at))
  {
    var owner := p.run.value;
    var used, step := TakeUses(p, owner, at, body.uses), Answer(p, at, body);
    UsesTell(p, owner, at, body.uses);
    assert step.p.tools == used.p.tools;
    forall key ensures IsStarted(used.out, key) ==> IsStarted(step.out, key) {
      if |step.out| > |used.out| {
        MoreStarted(used.out, step.out[|used.out|], key);
      }
    }
    forall key, tool ensures Entered(used.out, key, tool, at) ==> Entered(step.out, key, tool, at) {
      if |step.out| > |used.out| {
        MoreEntered(used.out, step.out[|used.out|], key, tool, at);
      }
    }
  }

  lemma EnteredLater(first: seq<Rec>, out: seq<Rec>, key: Key, tool: Tool, at: Option<int>)
    requires Entered(out, key, tool, at)
    ensures Entered(first + out, key, tool, at)
  {
    var r :| r in out && ToolStartedBy(r, key, tool, at);
    assert r in first + out;
  }

  /** A tool start is told of a use in an assistant record, and an open tool is as its start says. */
  lemma ToolStartsTell(p: Parser, e: Event)
    requires Invariant(p)
    ensures forall r :: r in Apply(p, e).out && r.role == ToolStarted ==>
              e.Record? && e.body.Assistant? && p.run.Some? && StartsByUse(r, p.run.value, e.at, e.body.uses)
    ensures forall key :: key in Apply(p, e).p.tools.values ==>
              || (key in p.tools.values && Apply(p, e).p.tools.values[key] == p.tools.values[key])
              || Entered(Apply(p, e).out, key, Apply(p, e).p.tools.values[key], TimeOf(e))
  {
    match e {
      case Record(at, body) =>
        var settled := Settle(p, at);
        var parsed := Parse(settled.p, at, body);
        SettledOnlyEnd(p, at);
        RecordTools(settled.p, at, body);
        forall key | key in parsed.p.tools.values && Entered(parsed.out, key, parsed.p.tools.values[key], at)
          ensures Entered(settled.out + parsed.out, key, parsed.p.tools.values[key], at)
        {
          EnteredLater(settled.out, parsed.out, key, parsed.p.tools.values[key], at);
        }
      case Quiet(mtime) =>
        SettledOnlyEnd(p, Some(mtime));
        FlushTells(Settle(p, Some(mtime)).p);
      case _ =>
    }
  }

  /** And every use of a tool that is not open, in a record that finds a run, is told. */
  lemma ToolStartsAreTold(p: Parser, at: Option<int>, body: Body, i: nat)
    requires Invariant(p) && body.Assistant? && p.run.Some? && i < |body.uses|
    requires body.uses[i].call.Some? && body.uses[i].call.value !in p.tools.values
    ensures IsStarted(Apply(p, Record(at, body)).out, body.uses[i].call.value)
  {
    var settled, key := Settle(p, at), body.uses[i].call.value;
    AnswerTools(settled.p, at, body);
    var r :| r in Answer(settled.p, at, body).out && r.role == ToolStarted && r.call == Some(Keyed(key));
    assert r in Apply(p, Record(at, body)).out;
  }

  /** The event is a result of this open tool without a time: its end is deferred. */
  predicate Defers(p: Parser, e: Event, d: Deferred) {
    e.Envelope? && e.at == None && e.call == Some(d.key) && d.key in p.tools.values && p.tools.values[d.key] == d.tool
  }

  lemma {:induction false} RecentOnly(deferred: seq<Deferred>, cutoff: int)
    ensures forall d :: d in Recent(deferred, cutoff) <==> d in deferred && !Before(d.tool.at, cutoff)
  {
    if deferred != [] {
      RecentOnly(deferred[1..], cutoff);
    }
  }

  lemma DeferredStep(p: Parser, e: Event, d: Deferred)
    requires Invariant(p) && d in Apply(p, e).p.deferred
    ensures d in p.deferred || Defers(p, e, d)
  {
    match e {
      case Record(at, body) => ParseKeepsDeferred(Settle(p, at).p, at, body);
      case Pruned(cutoff) => RecentOnly(p.deferred, cutoff);
      case _ =>
    }
  }

  lemma ParseKeepsDeferred(p: Parser, at: Option<int>, body: Body)
    requires Invariant(p)
    ensures Parse(p, at, body).p.deferred == p.deferred
  {
    match body {
      case Assistant(uses, _, _, _) =>
        if p.run.Some? {
          TakeUsesKeeps(p, p.run.value, at, uses);
        }
      case Results(results) => TakeResultsKeeps(p, at, results);
      case _ =>
    }
  }

  // ---- whole transcripts ----

  function ToolUnder(events: seq<Event>, key: Key, i: nat): Option<Tool>
    requires i <= |events|
  {
    var tools := ParserAt(events, i).tools.values;
    if key in tools then Some(tools[key]) else None
  }

  /** The i-th event told the start of this tool. */
  ghost predicate EnteredAt(events: seq<Event>, i: nat, key: Key, tool: Tool) {
    i < |events| && Entered(RecordsAt(events, i), key, tool, TimeOf(events[i]))
  }

  lemma ToolPut(events: seq<Event>, key: Key, i: nat)
    requires i < |events| && ToolUnder(events, key, i + 1).Some?
    ensures var tool := ToolUnder(events, key, i + 1);
            ToolUnder(events, key, i) == tool || EnteredAt(events, i, key, tool.value)
  {
    EventAt(events, i);
    ToolStartsTell(ParserAt(events, i), events[i]);
  }

  /** Every open tool is as its start was told, at the time of that record. */
  lemma ToolCameFrom(events: seq<Event>, key: Key) returns (i: nat)
    requires key in ParserAt(events, |events|).tools.values
    ensures EnteredAt(events, i, key, ParserAt(events, |events|).tools.values[key])
  {
    var stored := seq(|events| + 1, k requires 0 <= k <= |events| => ToolUnder(events, key, k));
    var put := seq(|events|, k requires 0 <= k < |events| =>
                 ToolUnder(events, key, k + 1) != ToolUnder(events, key, k));
    assert events[..0] == [];
    i := LastPut(stored, put);
    ToolPut(events, key, i);
  }

  predicate DeferredAt(events: seq<Event>, i: nat, d: Deferred) {
    i < |events| && Defers(ParserAt(events, i), events[i], d)
  }

  lemma DeferredCameFrom(events: seq<Event>, d: Deferred) returns (i: nat)
    requires d in ParserAt(events, |events|).deferred
    ensures DeferredAt(events, i, d)
  {
    var stored := seq(|events| + 1, k requires 0 <= k <= |events| =>
                 if d in ParserAt(events, k).deferred then Some(d) else None);
    var put := seq(|events|, k requires 0 <= k < |events| => DeferredAt(events, k, d));
    assert events[..0] == [];
    forall k | 0 <= k < |put| && stored[k + 1].Some? && !put[k] ensures stored[k] == stored[k + 1] {
      EventAt(events, k);
      DeferredStep(ParserAt(events, k), events[k], d);
    }
    i := LastPut(stored, put);
  }

  function TimeOfEnd(e: Event): Option<int> {
    if e.Envelope? then e.at else TimeOf(e)
  }

  /** The end of a call that was started at this time, with a result. */
  predicate EndsFrom(r: Rec, e: Event, started: Option<int>) {
    Lasted(started, r.at, r.durationMs) && r.at == TimeOfEnd(e)
  }

  /** A late end: neither failure nor success, and no duration. */
  predicate EndsLate(r: Rec, e: Event) {
    r.role == ToolCompleted && r.success == None && r.durationMs == None && r.at == KnownTime(e)
  }

  /** The record names the call, the run and the tool that the i-th event started. */
  ghost predicate OfStartAt(events: seq<Event>, i: nat, r: Rec, started: Option<int>) {
    && r.call.Some? && r.call.value.Keyed?
    && EnteredAt(events, i, r.call.value.key, Tool(r.run, r.conversation, r.tool, started))
  }

  lemma PrefixEntered(events: seq<Event>, k: nat, i: nat, key: Key, tool: Tool)
    requires k < |events| && EnteredAt(events[..k], i, key, tool)
    ensures EnteredAt(events, i, key, tool)
  {
    assert events[..k][..i] == events[..i];
  }

  lemma DeferredEndTells(events: seq<Event>, e: Event, r: Rec) returns (i: nat, started: Option<int>)
    requires EndsDeferred(r, ParserAt(events, |events|), e)
    ensures EndsLate(r, e) && OfStartAt(events, i, r, started)
  {
    var deferred := ParserAt(events, |events|).deferred;
    var m :| 0 <= m < |deferred| && LateEndOf(r, deferred[m], KnownTime(e));
    var k := DeferredCameFrom(events, deferred[m]);
    i := ToolCameFromPrefix(events, k, deferred[m].key);
    started := deferred[m].tool.at;
  }

  lemma ToolCameFromPrefix(events: seq<Event>, k: nat, key: Key) returns (i: nat)
    requires k < |events| && key in ParserAt(events, k).tools.values
    ensures EnteredAt(events, i, key, ParserAt(events, k).tools.values[key])
  {
    assert events[..k][..k] == events[..k];
    i := ToolCameFrom(events[..k], key);
    PrefixEntered(events, k, i, key, ParserAt(events, k).tools.values[key]);
  }

  lemma ResultEndTells(events: seq<Event>, e: Event, r: Rec) returns (i: nat, started: Option<int>)
    requires EndsInRecord(r, ParserAt(events, |events|), e)
    ensures EndsFrom(r, e, started) && OfStartAt(events, i, r, started)
  {
    var tools := ParserAt(events, |events|).tools.values;
    var m: nat, key :| ResultOf(e.body.results, m, key) && key in tools
                       && EndOf(r, key, tools[key], e.at, e.body.results[m].isError);
    i := ToolCameFrom(events, key);
    started := tools[key].at;
  }

  lemma RecoveredEndTells(events: seq<Event>, e: Event, r: Rec) returns (i: nat, started: Option<int>)
    requires EndsRecovered(r, ParserAt(events, |events|), e)
    ensures EndsFrom(r, e, started) && OfStartAt(events, i, r, started)
  {
    i := ToolCameFrom(events, e.call.value);
    started := ParserAt(events, |events|).tools.values[e.call.value].at;
  }

  /**
    Every tool end, traced to its start: it is told for a result of its own (`EndOf`: failed exactly
    when it was an error, a success exactly when it was none), and then it lasted from the record that
    used the tool; or it is a deferred one, which says neither and claims no duration. It names the
    run and the tool that its start told.
  */
  lemma EndTellsItsUse(events: seq<Event>, e: Event, r: Rec) returns (i: nat, started: Option<int>)
    requires r in Apply(ParserAt(events, |events|), e).out && IsToolEnd(r.role)
    ensures EndToldFor(r, ParserAt(events, |events|), e) && OfStartAt(events, i, r, started)
    ensures if EndsDeferred(r, ParserAt(events, |events|), e) then EndsLate(r, e) else EndsFrom(r, e, started)
  {
    var p := ParserAt(events, |events|);
    assert events[..|events|] == events;
    ReachableClaude(events);
    ToolEndHasReason(p, e, r);
    if EndsDeferred(r, p, e) {
      i, started := DeferredEndTells(events, e, r);
    } else if EndsInRecord(r, p, e) {
      i, started := ResultEndTells(events, e, r);
    } else {
      i, started := RecoveredEndTells(events, e, r);
    }
  }

  // ---- pruning ----

  /** It began before the cutoff; without a time it counts as having begun at the epoch. */
  predicate Old(at: Option<int>, cutoff: int) {
    (at.Some? && at.value < cutoff) || (at == None && 0 < cutoff)
  }

  /** A pruning forgets exactly the old tools and deferred ends, and an old live run; and tells nothing. */
  lemma PruneForgets(p: Parser, cutoff: int)
    ensures var q := Apply(p, Pruned(cutoff)).p;
            && Apply(p, Pruned(cutoff)).out == []
            && (forall key :: key in q.tools.values <==> key in p.tools.values && !Old(p.tools.values[key].at, cutoff))
            && (forall key :: key in q.tools.values ==> q.tools.values[key] == p.tools.values[key])
            && (forall d :: d in q.deferred <==> d in p.deferred && !Old(d.tool.at, cutoff))
            && (q.live <==> p.live && !Old(p.start, cutoff)) && (p.live == q.live ==> q.held == p.held)
            && q.run == p.run && q.start == p.start
  {
    RecentOnly(p.deferred, cutoff);
  }

  /** A tool whose result has no time waits with the newest 1024 of its kind. */
  lemma DeferralKeeps(p: Parser, e: Event, d: Deferred)
    requires Defers(p, e, d)
    ensures var q := Apply(p, e).p;
            && d.key !in q.tools.values && q.deferred != [] && q.deferred[|q.deferred| - 1] == d
            && q.deferred[..|q.deferred| - 1]
               == if |p.deferred| < MAX_OPEN_TOOLS then p.deferred else p.deferred[|p.deferred| - MAX_OPEN_TOOLS + 1..]
  {
  }
}
