/** What every reachable Codex parser state keeps, and what follows for the records it emits. */
module CodexProofs {
  import opened Common
  import opened OrderedDict
  import opened TraceRecord
  import opened CodexParser

  /** At most one run is open, and every tool, alias and join belongs to it. */
  ghost predicate Linked(p: Parser) {
    && p.runs.Keys == (if p.run.Some? then {p.run.value} else {})
    && (forall call :: call in p.tools.values ==> p.run == Some(p.tools.values[call].run))
    && (forall a :: a in p.aliases ==>
          p.aliases[a] in p.tools.values && p.tools.values[p.aliases[a]].alias == Some(a))
    && (forall k :: k in p.joins.values ==> p.run.Some? && p.joins.values[k].run == p.run)
  }

  ghost predicate Bounded(p: Parser) {
    && p.tools.Valid() && |p.tools.keys| <= 1024
    && p.joins.Valid() && |p.joins.keys| <= 256
  }

  predicate HasSession(p: Parser) {
    p.meta || (p.conversation == None && p.bound == 0 && p.run == None)
  }

  ghost predicate Invariant(p: Parser) {
    Linked(p) && Bounded(p) && HasSession(p)
  }

  lemma DropToolsKeeps(p: Parser, calls: set<Key>)
    requires Invariant(p)
    ensures Invariant(DropTools(p, calls))
  {
    WithoutValid(p.tools, calls);
    var q := DropTools(p, calls);
    forall a | a in q.aliases
      ensures q.aliases[a] in q.tools.values && q.tools.values[q.aliases[a]].alias == Some(a)
    {
      var call := p.aliases[a];
      assert call in p.tools.values;
    }
  }

  lemma DropToolIsDropTools(p: Parser, call: Key)
    requires p.tools.Valid()
    ensures DropTool(p, call) == DropTools(p, {call})
  {
    if call in p.tools.values {
      var alias := p.tools.values[call].alias;
      assert AliasesOf(p, {call}) == if alias.Some? then {alias.value} else {};
      assert p.aliases - {} == p.aliases;
    } else {
      WithoutNone(p.tools, {call});
      assert AliasesOf(p, {call}) == {};
      assert p.aliases - {} == p.aliases;
    }
  }

  lemma WithoutJoinsKeeps(p: Parser, gone: set<Key>)
    requires Invariant(p)
    ensures Invariant(p.(joins := p.joins.Without(gone)))
  {
    WithoutValid(p.joins, gone);
  }

  lemma FirstIsIn(keys: seq<Key>)
    ensures keys == [] || keys[0] in keys
  {
  }

  lemma EmptyDict<V>(d: Dict<Key, V>)
    requires d.Valid() && forall k :: k !in d.values
    ensures d == Dict([], map[])
  {
    FirstIsIn(d.keys);
  }

  /** Closing the open run leaves only what the session header said. */
  lemma CloseOpenRun(p: Parser, run: Id)
    requires Invariant(p) && p.run == Some(run)
    ensures CloseRun(p, run) == FRESH.(conversation := p.conversation, meta := p.meta, bound := p.bound)
  {
    var q := CloseRun(p, run);
    WithoutValid(p.tools, OwnedBy(p, run));
    WithoutValid(p.joins, TaggedWith(p, run));
    forall call | call in p.tools.values ensures call in OwnedBy(p, run) {
    }
    forall key | key in p.joins.values ensures key in TaggedWith(p, run) {
    }
    forall a | a in p.aliases ensures a in AliasesOf(p, OwnedBy(p, run)) {
      var call := p.aliases[a];
      assert call in OwnedBy(p, run) && call in p.tools.values;
    }
    EmptyDict(q.tools);
    EmptyDict(q.joins);
    assert q.aliases == map[] && q.runs == map[];
  }

  lemma CloseOtherRun(p: Parser, run: Id)
    requires Invariant(p) && p.run != Some(run)
    ensures CloseRun(p, run) == p
  {
    forall call | call in OwnedBy(p, run) ensures false {
    }
    forall key | key in TaggedWith(p, run) ensures false {
    }
    assert OwnedBy(p, run) == {} && TaggedWith(p, run) == {};
    WithoutNone(p.tools, {});
    WithoutNone(p.joins, {});
    assert AliasesOf(p, {}) == {};
    assert p.aliases - {} == p.aliases;
    assert p.runs - {run} == p.runs;
  }

  lemma CloseRunKeeps(p: Parser, run: Id)
    requires Invariant(p)
    ensures Invariant(CloseRun(p, run))
    ensures p.run == Some(run) ==>
              CloseRun(p, run) == FRESH.(conversation := p.conversation, meta := p.meta, bound := p.bound)
    ensures p.run != Some(run) ==> CloseRun(p, run) == p
  {
    if p.run == Some(run) {
      CloseOpenRun(p, run);
    } else {
      CloseOtherRun(p, run);
    }
  }

  lemma StartTaskKeeps(p: Parser, conversation: Id, at: Option<int>, body: Body)
    requires Invariant(p) && p.meta && body.TaskStarted?
    ensures Invariant(StartTask(p, conversation, at, body).p)
  {
    if body.turn.Some? && p.run.Some? && p.run.value != body.turn.value {
      CloseRunKeeps(p, p.run.value);
    }
  }

  lemma CallToolKeeps(p: Parser, conversation: Id, at: Option<int>, body: Body)
    requires Invariant(p) && p.meta && body.ToolCall?
    ensures Invariant(CallTool(p, conversation, at, body).p)
  {
    var call := Either(body.callId, body.id);
    if p.run.Some? && call.Some? && call.value !in p.tools.values {
      var key := call.value;
      var alias := if body.id.Some? && body.id.value != key then body.id else None;
      var q := p.(tools := p.tools.Put(key, Tool(p.run.value, body.name, at, alias)),
                  aliases := if alias.Some? then p.aliases[alias.value := key] else p.aliases);
      PutValid(p.tools, key, Tool(p.run.value, body.name, at, alias));
      assert Linked(q);
      if |q.tools.keys| > MAX_OPEN_TOOLS {
        EvictKeeps(q);
      }
    }
  }

  lemma EvictKeeps(q: Parser)
    requires Linked(q) && HasSession(q) && q.tools.Valid() && |q.tools.keys| == MAX_OPEN_TOOLS + 1
    requires q.joins.Valid() && |q.joins.keys| <= MAX_ITEM_CACHE
    ensures Invariant(EvictTool(q))
  {
    var eldest := q.tools.keys[0];
    WithoutValid(q.tools, {eldest});
    assert eldest in q.tools.values;
    var t := EvictTool(q);
    forall a | a in t.aliases
      ensures t.aliases[a] in t.tools.values && t.tools.values[t.aliases[a]].alias == Some(a)
    {
      assert a in q.aliases;
    }
  }

  lemma CompleteItemKeeps(p: Parser, body: Body)
    requires Invariant(p) && body.ItemCompleted?
    ensures Invariant(CompleteItem(p, body))
  {
    if body.item.Some? && (body.item.value in p.tools.values || body.item.value in p.aliases) {
      var put := p.joins.Put(body.item.value, JoinOf(p, body));
      PutValid(p.joins, body.item.value, JoinOf(p, body));
      if |put.keys| > MAX_ITEM_CACHE {
        assert put.keys[0] in put.values;
        WithoutValid(put, {put.keys[0]});
      }
    }
  }

  lemma FinishToolKeeps(p: Parser, conversation: Id, at: Option<int>, body: Body)
    requires Invariant(p) && body.ToolOutput?
    ensures Invariant(FinishTool(p, conversation, at, body).p)
  {
    var call := OutputCall(p, body);
    if call.Some? {
      var q, alias := DropTool(p, call.value), p.tools.values[call.value].alias;
      DropToolIsDropTools(p, call.value);
      DropToolsKeeps(p, {call.value});
      WithoutJoinsKeeps(q, {call.value});
      if alias.Some? {
        WithoutJoinsKeeps(q, {alias.value});
      }
    }
  }

  lemma PruneKeeps(p: Parser, cutoff: int)
    requires Invariant(p)
    ensures Invariant(Prune(p, cutoff))
  {
    var calls := set call | call in p.tools.values && Before(p.tools.values[call].at, cutoff);
    var recent := DropTools(p, calls);
    DropToolsKeeps(p, calls);
    var gone := set run | run in p.runs && Before(p.runs[run], cutoff);
    var closed := CloseRuns(recent, gone);
    CloseRunsKeeps(recent, gone);
    WithoutValid(closed.joins, set k | k in closed.joins.values && !InRuns(closed, closed.joins.values[k].run));
  }

  lemma CloseRunsKeeps(p: Parser, gone: set<Id>)
    requires Invariant(p)
    ensures Invariant(CloseRuns(p, gone))
  {
    var calls := set call | call in p.tools.values && p.tools.values[call].run in gone;
    DropToolsKeeps(p, calls);
    WithoutValid(p.joins, set k | k in p.joins.values && p.joins.values[k].run.Some?
                 && p.joins.values[k].run.value in gone);
  }

  lemma ApplyKeeps(p: Parser, e: Event)
    requires Invariant(p)
    ensures Invariant(Apply(p, e).p)
  {
    match e
    case Pruned(cutoff) => PruneKeeps(p, cutoff);
    case Line(SessionMeta(_, _), _) =>
    case Line(Entry(ordinal, at, body), place) =>
      if !Replayed(p, ordinal) && p.conversation.Some? {
        var conversation := p.conversation.value;
        match body
        case TaskStarted(_, _) => StartTaskKeeps(p, conversation, at, body);
        case TaskEnded(_, _, _, _, _, _) =>
          var named := Either(body.turn, p.run);
          if named.Some? {
            CloseRunKeeps(p, named.value);
          }
        case ItemCompleted(_, _, _, _, _) => CompleteItemKeeps(p, body);
        case ToolCall(_, _, _) => CallToolKeeps(p, conversation, at, body);
        case ToolOutput(_, _) => FinishToolKeeps(p, conversation, at, body);
        case WebSearch =>
        case Ignored =>
      }
  }

  // ---- the records ----

  /** Every open tool is a call whose last record so far is its start. */
  ghost predicate Tracked(p: Parser, out: seq<Rec>) {
    p.tools.values != map[] ==>
      && p.conversation.Some?
      && forall call :: call in p.tools.values ==>
           OpenCall(out, call, p.conversation.value, p.tools.values[call].run, p.tools.values[call].name)
  }

  /** Dropping tools keeps the rest tracked as long as nothing is said about them. */
  lemma TrackedSubset(p: Parser, q: Parser, out: seq<Rec>, more: seq<Rec>)
    requires Tracked(p, out)
    requires forall call :: call in q.tools.values ==>
             call in p.tools.values && q.tools.values[call] == p.tools.values[call]
    requires forall call :: call in p.tools.values ==> q.conversation == p.conversation
    requires forall r, call :: r in more && call in q.tools.values ==> r.call != Some(Keyed(call))
    ensures Tracked(q, out + more)
  {
    forall call | call in q.tools.values
      ensures q.conversation.Some?
              && OpenCall(out + more, call, q.conversation.value, q.tools.values[call].run, q.tools.values[call].name)
    {
      OpenCallStays(out, more, call, p.conversation.value, p.tools.values[call].run, p.tools.values[call].name);
    }
  }

  lemma CallToolTracked(p: Parser, out: seq<Rec>, at: Option<int>, body: Body)
    requires Invariant(p) && Tracked(p, out) && EndsMatched(out) && body.ToolCall? && p.conversation.Some?
    ensures var step := CallTool(p, p.conversation.value, at, body);
            Tracked(step.p, out + step.out) && EndsMatched(out + step.out)
  {
    var step := CallTool(p, p.conversation.value, at, body);
    EndsMatchedMore(out, step.out);
    if step.out == [] {
      assert out + step.out == out;
    } else {
      var key, r := Either(body.callId, body.id).value, step.out[0];
      OpenCallBegins(out, r, key);
      forall call | call in step.p.tools.values
        ensures OpenCall(out + [r], call, p.conversation.value, step.p.tools.values[call].run,
                         step.p.tools.values[call].name)
      {
        if call != key {
          OpenCallStays(out, [r], call, p.conversation.value, p.tools.values[call].run, p.tools.values[call].name);
        }
      }
    }
  }

  lemma FinishToolTracked(p: Parser, out: seq<Rec>, at: Option<int>, body: Body)
    requires Invariant(p) && Tracked(p, out) && EndsMatched(out) && body.ToolOutput? && p.conversation.Some?
    ensures var step := FinishTool(p, p.conversation.value, at, body);
            Tracked(step.p, out + step.out) && EndsMatched(out + step.out)
  {
    var step, call := FinishTool(p, p.conversation.value, at, body), OutputCall(p, body);
    if call.Some? {
      EndsMatchedEnd(out, step.out[0], call.value);
    } else {
      assert out + step.out == out;
    }
    TrackedSubset(p, step.p, out, step.out);
  }

  lemma ApplyTracked(p: Parser, out: seq<Rec>, e: Event)
    requires Invariant(p) && Tracked(p, out) && EndsMatched(out)
    ensures var step := Apply(p, e); Tracked(step.p, out + step.out) && EndsMatched(out + step.out)
  {
    var step := Apply(p, e);
    if IsToolLine(p, e) && e.record.body.ToolCall? {
      CallToolTracked(p, out, e.record.at, e.record.body);
    } else if IsToolLine(p, e) {
      FinishToolTracked(p, out, e.record.at, e.record.body);
    } else {
      OtherTracked(p, out, e);
    }
  }

  predicate IsToolLine(p: Parser, e: Event) {
    && e.Line? && e.record.Entry? && !Replayed(p, e.record.ordinal) && p.conversation.Some?
    && (e.record.body.ToolCall? || e.record.body.ToolOutput?)
  }

  /** Any other event starts no tool, ends none by key, and forgets at most some. */
  lemma OtherTracked(p: Parser, out: seq<Rec>, e: Event)
    requires Invariant(p) && Tracked(p, out) && EndsMatched(out) && !IsToolLine(p, e)
    ensures var step := Apply(p, e); Tracked(step.p, out + step.out) && EndsMatched(out + step.out)
  {
    var step := Apply(p, e);
    OtherEvent(p, e);
    EndsMatchedMore(out, step.out);
    TrackedSubset(p, step.p, out, step.out);
  }

  lemma OtherEvent(p: Parser, e: Event)
    requires Invariant(p) && !IsToolLine(p, e)
    ensures var step := Apply(p, e);
            && (forall call :: call in step.p.tools.values ==>
                call in p.tools.values && step.p.tools.values[call] == p.tools.values[call])
            && (forall call :: call in p.tools.values ==> step.p.conversation == p.conversation)
            && (forall r :: r in step.out ==> r.call.None? || !r.call.value.Keyed?)
  {
  }

  /**
    Every parser state reached from a fresh one by any lines and prunings keeps the linked maps and
    caps, and in the records emitted on the way every keyed tool end follows its own start.
  */
  lemma {:induction false} ReachableCodex(events: seq<Event>)
    ensures var f := Fold(FRESH, events); Invariant(f.p) && Tracked(f.p, f.out) && EndsMatched(f.out)
  {
    if events != [] {
      var earlier, last := Fold(FRESH, events[..|events| - 1]), events[|events| - 1];
      ReachableCodex(events[..|events| - 1]);
      ApplyKeeps(earlier.p, last);
      ApplyTracked(earlier.p, earlier.out, last);
    }
  }

  lemma ToolRecordsOf(p: Parser, e: Event)
    requires Linked(p)
    ensures var step := Apply(p, e);
            forall r :: r in step.out && IsTool(r.role) ==>
              p.run == Some(r.run) && step.p.run == p.run && p.conversation == Some(r.conversation)
  {
    if e.Line? && e.record.Entry? && p.conversation.Some? {
      var conversation, at, body := p.conversation.value, e.record.at, e.record.body;
      if body.TaskStarted? || body.TaskEnded? {
        RunBodyHasNoTool(p, conversation, at, body);
      } else if body.ToolCall? || body.ToolOutput? {
        ToolBodyNamesRun(p, conversation, at, body);
      }
    }
  }

  lemma RunBodyHasNoTool(p: Parser, conversation: Id, at: Option<int>, body: Body)
    ensures body.TaskStarted? ==> forall r :: r in StartTask(p, conversation, at, body).out ==> !IsTool(r.role)
    ensures body.TaskEnded? ==> forall r :: r in EndTask(p, conversation, at, body).out ==> !IsTool(r.role)
  {
  }

  lemma ToolBodyNamesRun(p: Parser, conversation: Id, at: Option<int>, body: Body)
    requires Linked(p) && p.conversation == Some(conversation) && (body.ToolCall? || body.ToolOutput?)
    ensures var step := if body.ToolCall? then CallTool(p, conversation, at, body)
            else FinishTool(p, conversation, at, body);
            step.p.run == p.run && forall r :: r in step.out ==> p.run == Some(r.run) && r.conversation == conversation
  {
  }

  /** Every tool record names the run that is open when it is emitted, before and after the line. */
  lemma ToolRecordsNameOpenRun(events: seq<Event>, e: Event)
    ensures var p := Fold(FRESH, events).p; var step := Apply(p, e);
            forall r :: r in step.out && IsTool(r.role) ==>
              p.run == Some(r.run) && step.p.run == p.run && p.conversation == Some(r.conversation)
  {
    ReachableCodex(events);
    ToolRecordsOf(Fold(FRESH, events).p, e);
  }

  lemma FoldSnoc(p: Parser, events: seq<Event>, e: Event)
    ensures Fold(p, events + [e]) == Then(Fold(p, events), Apply(Fold(p, events).p, e))
  {
    assert (events + [e])[..|events|] == events;
  }

  lemma ThenAssociates(a: Parsed, b: Parsed, c: Parsed)
    ensures Then(Then(a, b), c) == Then(a, Then(b, c))
  {
  }

  /** Folding on is folding both stretches together. */
  lemma {:induction false} FoldConcat(p: Parser, first: seq<Event>, second: seq<Event>)
    ensures Fold(p, first + second) == Then(Fold(p, first), Fold(Fold(p, first).p, second))
    decreases |second|
  {
    var mid, whole := Fold(p, first), first + second;
    if second == [] {
      FoldNoFurther(p, first, whole, second);
    } else {
      var n := |second| - 1;
      var fewer, last := second[..n], second[n];
      FoldConcat(p, first, fewer);
      FoldOneFurther(p, first + fewer, mid, fewer, last, whole, second);
    }
  }

  lemma FoldNoFurther(p: Parser, first: seq<Event>, whole: seq<Event>, second: seq<Event>)
    requires whole == first && second == []
    ensures Fold(p, whole) == Then(Fold(p, first), Fold(Fold(p, first).p, second))
  {
    var mid := Fold(p, first);
    assert mid.out + [] == mid.out;
  }

  lemma FoldOneFurther(p: Parser, all: seq<Event>, mid: Parsed, fewer: seq<Event>, last: Event, whole: seq<Event>,
                       second: seq<Event>)
    requires Fold(p, all) == Then(mid, Fold(mid.p, fewer))
    requires |whole| == |all| + 1 && whole[..|all|] == all && whole[|all|] == last
    requires |second| == |fewer| + 1 && second[..|fewer|] == fewer && second[|fewer|] == last
    ensures Fold(p, whole) == Then(mid, Fold(mid.p, second))
  {
    ThenAssociates(mid, Fold(mid.p, fewer), Apply(Fold(mid.p, fewer).p, last));
  }
}
