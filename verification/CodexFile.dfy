/** The Codex parser as the reporter runs it: the state of one file, updated in place. */
module CodexFile {
  import opened Common
  import opened OrderedDict
  import opened TraceRecord
  import opened CodexParser
  import opened CodexProofs

  function Elements(calls: seq<Key>): set<Key> {
    set call | call in calls
  }

  lemma AliasesOneMore(p: Parser, calls: set<Key>, call: Key)
    requires call !in calls && call in p.tools.values
    ensures var alias := p.tools.values[call].alias;
            AliasesOf(p, calls + {call}) == AliasesOf(p, calls) + if alias.Some? then {alias.value} else {}
  {
  }

  lemma MinusTwice(aliases: map<Key, Key>, a: set<Key>, b: set<Key>)
    ensures aliases - a - b == aliases - (a + b)
  {
  }

  lemma DropOneMore(p: Parser, calls: set<Key>, call: Key)
    requires p.tools.Valid()
    ensures DropTool(DropTools(p, calls), call) == DropTools(p, calls + {call})
  {
    var q := DropTools(p, calls);
    WithoutTwice(p.tools, calls, {call});
    if call in q.tools.values {
      AliasesOneMore(p, calls, call);
      var alias := p.tools.values[call].alias;
      MinusTwice(p.aliases, AliasesOf(p, calls), if alias.Some? then {alias.value} else {});
    } else {
      WithoutValid(p.tools, calls);
      WithoutNone(q.tools, {call});
      assert AliasesOf(p, calls + {call}) == AliasesOf(p, calls);
    }
  }

  class FileParser {
    var p: Parser

    constructor ()
      ensures p == FRESH
    {
      p := FRESH;
    }

    /** Drop the given tools one by one, each with its alias. */
    method DropAll(calls: seq<Key>)
      requires p.tools.Valid()
      modifies this
      ensures p == DropTools(old(p), Elements(calls)) && p.tools.Valid()
    {
      ghost var before := p;
      WithoutNone(p.tools, {});
      assert AliasesOf(p, {}) == {} && p.aliases - {} == p.aliases;
      assert Elements(calls[..0]) == {};
      for i := 0 to |calls|
        invariant p == DropTools(before, Elements(calls[..i]))
      {
        DropOneMore(before, Elements(calls[..i]), calls[i]);
        assert Elements(calls[..i + 1]) == Elements(calls[..i]) + {calls[i]};
        p := DropTool(p, calls[i]);
      }
      assert calls[..|calls|] == calls;
      WithoutValid(before.tools, Elements(calls));
    }

    /** The open tools owned by `run`, oldest first. */
    method ToolsOf(run: Id) returns (calls: seq<Key>)
      requires p.tools.Valid()
      ensures Elements(calls) == OwnedBy(p, run)
    {
      calls := [];
      var keys := p.tools.keys;
      for i := 0 to |keys|
        invariant forall call :: call in calls <==> call in keys[..i] && p.tools.values[call].run == run
      {
        assert keys[..i + 1] == keys[..i] + [keys[i]];
        if p.tools.values[keys[i]].run == run {
          calls := calls + [keys[i]];
        }
      }
      assert keys[..|keys|] == keys;
      forall call ensures call in Elements(calls) <==> call in OwnedBy(p, run) {
        assert call in keys <==> call in p.tools.values;
      }
    }

    /** The joins tagged with `run`, oldest first. */
    method JoinsOf(run: Id) returns (found: seq<Key>)
      requires p.joins.Valid()
      ensures Elements(found) == TaggedWith(p, run)
    {
      found := [];
      var keys := p.joins.keys;
      for i := 0 to |keys|
        invariant forall key :: key in found <==> key in keys[..i] && p.joins.values[key].run == Some(run)
      {
        assert keys[..i + 1] == keys[..i] + [keys[i]];
        if p.joins.values[keys[i]].run == Some(run) {
          found := found + [keys[i]];
        }
      }
      assert keys[..|keys|] == keys;
      forall key ensures key in Elements(found) <==> key in TaggedWith(p, run) {
        assert key in keys <==> key in p.joins.values;
      }
    }

    /** Drop the given joins one by one. */
    method DropJoins(keys: seq<Key>)
      requires p.joins.Valid()
      modifies this
      ensures p == old(p).(joins := old(p).joins.Without(Elements(keys)))
    {
      ghost var before := p;
      WithoutNone(p.joins, {});
      assert Elements(keys[..0]) == {};
      for i := 0 to |keys|
        invariant p == before.(joins := before.joins.Without(Elements(keys[..i])))
      {
        WithoutTwice(before.joins, Elements(keys[..i]), {keys[i]});
        assert Elements(keys[..i + 1]) == Elements(keys[..i]) + {keys[i]};
        p := p.(joins := p.joins.Without({keys[i]}));
      }
      assert keys[..|keys|] == keys;
    }

    /** `_codex_close` */
    method Close(run: Id)
      requires p.tools.Valid() && p.joins.Valid()
      modifies this
      ensures p == CloseRun(old(p), run)
      ensures p.tools.Valid() && p.joins.Valid()
    {
      ghost var before := p;
      p := p.(runs := p.runs - {run}, run := if p.run == Some(run) then None else p.run);
      ghost var closing := p;
      assert OwnedBy(closing, run) == OwnedBy(before, run) && TaggedWith(closing, run) == TaggedWith(before, run);
      var calls := ToolsOf(run);
      DropAll(calls);
      assert AliasesOf(closing, Elements(calls)) == AliasesOf(before, OwnedBy(before, run));
      assert TaggedWith(p, run) == TaggedWith(before, run);
      var tagged := JoinsOf(run);
      DropJoins(tagged);
      WithoutValid(before.joins, TaggedWith(before, run));
    }

    /** Drop the oldest tools until the table is within its cap. */
    method EvictTools()
      requires p.tools.Valid() && |p.tools.keys| <= MAX_OPEN_TOOLS + 1
      modifies this
      ensures p == EvictTool(old(p))
    {
      ghost var before := p;
      while |p.tools.keys| > MAX_OPEN_TOOLS
        invariant p == before || (|before.tools.keys| > MAX_OPEN_TOOLS && p == EvictTool(before)
                                  && |p.tools.keys| <= MAX_OPEN_TOOLS)
        decreases |p.tools.keys|
      {
        assert p.tools.keys[0] in p.tools.values;
        WithoutValid(p.tools, {p.tools.keys[0]});
        p := DropTool(p, p.tools.keys[0]);
      }
    }

    /** `_codex_start` */
    method Start(conversation: Id, at: Option<int>, body: Body) returns (out: seq<Rec>)
      requires body.TaskStarted? && p.tools.Valid() && p.joins.Valid()
      modifies this
      ensures Parsed(p, out) == StartTask(old(p), conversation, at, body)
    {
      out := [];
      if body.turn.Some? {
        var run, time := body.turn.value, Refine(body.startedAt, at);
        if p.run.Some? && p.run.value != run && p.run.value in p.runs {
          var current := p.run.value;
          out := [RunRecord(conversation, current, RunStopped, time, ElapsedMs(p.runs[current], time), None)];
          Close(current);
        }
        p := p.(run := body.turn);
        if run !in p.runs {
          p := p.(runs := p.runs[run := time]);
          out := out + [RunRecord(conversation, run, RunStarted, time, None, None)];
        }
      }
    }

    /** `_codex_end` */
    method End(conversation: Id, at: Option<int>, body: Body) returns (out: seq<Rec>)
      requires body.TaskEnded? && p.tools.Valid() && p.joins.Valid()
      modifies this
      ensures Parsed(p, out) == EndTask(old(p), conversation, at, body)
    {
      out := [];
      var named := Either(body.turn, p.run);
      if named.Some? {
        var run, time, duration := named.value, Refine(body.completedAt, at), body.durationMs;
        if duration == None && run in p.runs {
          duration := ElapsedMs(p.runs[run], time);
        }
        var role := RunCompleted;
        if body.aborted {
          role := RunStopped;
        } else if body.failed {
          role := RunFailed;
        }
        Close(run);
        out := [RunRecord(conversation, run, role, time, duration, body.errorType)];
      }
    }

    /** `_codex_call` */
    method Call(conversation: Id, at: Option<int>, body: Body) returns (out: seq<Rec>)
      requires body.ToolCall? && p.tools.Valid() && |p.tools.keys| <= MAX_OPEN_TOOLS
      modifies this
      ensures Parsed(p, out) == CallTool(old(p), conversation, at, body)
    {
      out := [];
      var call := Either(body.callId, body.id);
      if p.run.Some? && call.Some? && call.value !in p.tools.values {
        var run, alias := p.run.value, if body.id.Some? && body.id != call then body.id else None;
        PutValid(p.tools, call.value, Tool(run, body.name, at, alias));
        p := p.(tools := p.tools.Put(call.value, Tool(run, body.name, at, alias)));
        if alias.Some? {
          p := p.(aliases := p.aliases[alias.value := call.value]);
        }
        EvictTools();
        out := [ToolRecord(conversation, run, ToolStarted, at, Keyed(call.value), body.name, None, None)];
      }
    }

    /** Drop the oldest joins until the cache is within its cap. */
    method EvictJoins()
      requires p.joins.Valid() && |p.joins.keys| <= MAX_ITEM_CACHE + 1
      modifies this
      ensures p == old(p).(joins := EvictJoin(old(p).joins))
    {
      ghost var before := p;
      while |p.joins.keys| > MAX_ITEM_CACHE
        invariant p == before
                  || (|before.joins.keys| > MAX_ITEM_CACHE && p == before.(joins := EvictJoin(before.joins))
                      && |p.joins.keys| <= MAX_ITEM_CACHE)
        decreases |p.joins.keys|
      {
        assert p.joins.keys[0] in p.joins.values;
        WithoutValid(p.joins, {p.joins.keys[0]});
        p := p.(joins := p.joins.Without({p.joins.keys[0]}));
      }
    }

    /** What an item says: its outcome and its duration. */
    method ItemSays(body: Body) returns (join: Join)
      requires body.ItemCompleted?
      ensures join == JoinOf(p, body)
    {
      var ok: Option<bool> := None;
      if body.status == FailedStatus || (body.exitCode.Some? && body.exitCode.value != 0) {
        ok := Some(false);
      } else if body.status == CompletedStatus && body.exitCode == Some(0) {
        ok := Some(true);
      }
      var duration: Option<int> := None;
      if body.startedMs.Some? && body.completedMs.Some? {
        duration := Some(body.completedMs.value - body.startedMs.value);
        if !(0 <= duration.value <= MAX_DURATION_MS) {
          duration := None;
        }
      }
      join := Join(ok, duration, p.run);
    }

    /** Enter a join, and evict what is too old. */
    method Remember(key: Key, join: Join)
      requires p.joins.Valid() && |p.joins.keys| <= MAX_ITEM_CACHE
      modifies this
      ensures p == old(p).(joins := EvictJoin(old(p).joins.Put(key, join)))
    {
      PutValid(p.joins, key, join);
      p := p.(joins := p.joins.Put(key, join));
      EvictJoins();
    }

    /** `_codex_item` */
    method Item(body: Body)
      requires body.ItemCompleted? && p.joins.Valid() && |p.joins.keys| <= MAX_ITEM_CACHE
      modifies this
      ensures p == CompleteItem(old(p), body)
    {
      if body.item == None || (body.item.value !in p.tools.values && body.item.value !in p.aliases) {
        return;
      }
      var join := ItemSays(body);
      if join.ok == None && join.durationMs == None {
        return;
      }
      Remember(body.item.value, join);
    }

    /** `_codex_output` */
    method Output(conversation: Id, at: Option<int>, body: Body) returns (out: seq<Rec>)
      requires body.ToolOutput?
      modifies this
      ensures Parsed(p, out) == FinishTool(old(p), conversation, at, body)
    {
      out := [];
      var call := Either(body.callId, body.id);
      if call.Some? && call.value !in p.tools.values {
        call := if call.value in p.aliases then Some(p.aliases[call.value]) else None;
      }
      if call == None || call.value !in p.tools.values {
        return;
      }
      var tool := p.tools.values[call.value];
      p := DropTool(p, call.value);
      var joined: Option<Join> := None;
      if call.value in p.joins.values {
        joined := Some(p.joins.values[call.value]);
        p := p.(joins := p.joins.Without({call.value}));
      } else if tool.alias.Some? && tool.alias.value in p.joins.values {
        joined := Some(p.joins.values[tool.alias.value]);
        p := p.(joins := p.joins.Without({tool.alias.value}));
      }
      var ok, duration := None, None;
      if joined.Some? {
        ok, duration := joined.value.ok, joined.value.durationMs;
      }
      if duration == None {
        duration := ElapsedMs(tool.at, at);
      }
      var role := if ok == Some(false) then ToolFailed else ToolCompleted;
      out := [ToolRecord(conversation, tool.run, role, at, Keyed(call.value), tool.name, ok, duration)];
    }

    /** `parse_codex` on the file's own state. */
    method Feed(record: Record, place: Place) returns (out: seq<Rec>)
      requires Invariant(p)
      modifies this
      ensures Parsed(p, out) == Parse(old(p), record, place)
      ensures Invariant(p)
    {
      ApplyKeeps(p, Line(record, place));
      out := [];
      if record.SessionMeta? {
        if !p.meta {
          p := p.(meta := true, conversation := record.session);
          if record.startOrdinal.Some? && record.startOrdinal.value > 0 {
            p := p.(bound := record.startOrdinal.value);
          }
        }
        return;
      }
      if Replayed(p, record.ordinal) || p.conversation == None {
        return;
      }
      var conversation, at, body := p.conversation.value, record.at, record.body;
      match body {
        case TaskStarted(_, _) => out := Start(conversation, at, body);
        case TaskEnded(_, _, _, _, _, _) => out := End(conversation, at, body);
        case ItemCompleted(_, _, _, _, _) => Item(body);
        case ToolCall(_, _, _) => out := Call(conversation, at, body);
        case ToolOutput(_, _) => out := Output(conversation, at, body);
        case WebSearch =>
          if p.run.Some? {
            var call := Positional(place.path, place.offset);
            out := [ToolRecord(conversation, p.run.value, ToolCompleted, at, call, Some(WEB_SEARCH), None, None)];
          }
        case Ignored =>
      }
    }
  }
}
