/** What leaves the tables of the Codex parser, and when: finished, evicted, closed or pruned. */
module CodexForgets {
  import opened Common
  import opened OrderedDict
  import opened TraceRecord
  import opened CodexParser
  import opened CodexProofs
  import opened CodexRecords

  // ---- pruning ----

  /** It began before the cutoff; without a time it counts as having begun at the epoch. */
  predicate Old(at: Option<int>, cutoff: int) {
    (at.Some? && at.value < cutoff) || (at == None && 0 < cutoff)
  }

  lemma DropNone(p: Parser)
    requires p.tools.Valid()
    ensures DropTools(p, {}) == p
  {
    WithoutNone(p.tools, {});
    assert AliasesOf(p, {}) == {} && p.aliases - {} == p.aliases;
  }

  /** With no run to close, closing runs does nothing. */
  lemma CloseNone(p: Parser, gone: set<Id>)
    requires p.tools.Valid() && p.joins.Valid() && gone == {}
    ensures CloseRuns(p, gone) == p
  {
    var calls := set call | call in p.tools.values && p.tools.values[call].run in gone;
    var tagged := set k | k in p.joins.values && p.joins.values[k].run.Some? && p.joins.values[k].run.value in gone;
    assert calls == {} && tagged == {} && p.runs - gone == p.runs;
    DropNone(p);
    WithoutNone(p.joins, {});
  }

  lemma NoneStale(p: Parser)
    requires Invariant(p)
    ensures (set k | k in p.joins.values && !InRuns(p, p.joins.values[k].run)) == {}
  {
    forall k | k in p.joins.values ensures InRuns(p, p.joins.values[k].run) {
      assert p.joins.values[k].run == p.run;
    }
  }

  function OldTools(p: Parser, cutoff: int): set<Key> {
    set call | call in p.tools.values && Before(p.tools.values[call].at, cutoff)
  }

  lemma SweepsNothing(p: Parser)
    requires Invariant(p)
    ensures p.joins.Without(set k | k in p.joins.values && !InRuns(p, p.joins.values[k].run)) == p.joins
    ensures (map a | a in p.aliases && p.aliases[a] in p.tools.values :: p.aliases[a]) == p.aliases
  {
    NoneStale(p);
    WithoutNone(p.joins, {});
    var swept := map a | a in p.aliases && p.aliases[a] in p.tools.values :: p.aliases[a];
    assert forall a :: a in p.aliases ==> a in swept && swept[a] == p.aliases[a];
  }

  lemma PruneDrops(p: Parser, cutoff: int)
    requires Invariant(p) && p.run.Some? && !Old(p.runs[p.run.value], cutoff)
    ensures Prune(p, cutoff) == DropTools(p, OldTools(p, cutoff))
  {
    var recent := DropTools(p, OldTools(p, cutoff));
    DropToolsKeeps(p, OldTools(p, cutoff));
    var gone := set run | run in p.runs && Before(p.runs[run], cutoff);
    assert gone == {};
    CloseNone(recent, gone);
    SweepsNothing(recent);
  }

  /** An old tool with this alias. */
  predicate OldAlias(p: Parser, cutoff: int, alias: Key) {
    exists call ::
      call in p.tools.values && Old(p.tools.values[call].at, cutoff) && p.tools.values[call].alias == Some(alias)
  }

  lemma DropsOld(p: Parser, cutoff: int)
    ensures var q := DropTools(p, OldTools(p, cutoff));
            && (forall call :: call in q.tools.values <==>
                  call in p.tools.values && !Old(p.tools.values[call].at, cutoff))
            && (forall call :: call in q.tools.values ==> q.tools.values[call] == p.tools.values[call])
            && (forall a :: a in q.aliases <==> a in p.aliases && !OldAlias(p, cutoff, a))
            && (forall a :: a in q.aliases ==> q.aliases[a] == p.aliases[a])
  {
    forall a ensures a in AliasesOf(p, OldTools(p, cutoff)) <==> OldAlias(p, cutoff, a) {
      if OldAlias(p, cutoff, a) {
        var call :| call in p.tools.values && Old(p.tools.values[call].at, cutoff)
                    && p.tools.values[call].alias == Some(a);
        assert call in OldTools(p, cutoff);
      }
    }
  }

  lemma NothingOpen(p: Parser)
    requires Invariant(p) && p.run == None
    ensures p == FRESH.(conversation := p.conversation, meta := p.meta, bound := p.bound)
  {
    assert forall a :: a in p.aliases ==> p.aliases[a] in p.tools.values;
    EmptyDict(p.tools);
    EmptyDict(p.joins);
    assert p.aliases == map[];
  }

  lemma PruneClosesOld(p: Parser, cutoff: int)
    requires Invariant(p) && (p.run.Some? ==> Old(p.runs[p.run.value], cutoff))
    ensures var q := Prune(p, cutoff);
            q.run == None && q.conversation == p.conversation && q.meta == p.meta && q.bound == p.bound
  {
    assert p.run.Some? ==> p.run.value in (set run | run in p.runs && Before(p.runs[run], cutoff));
  }

  /**
    A pruning forgets exactly what began before its cutoff. An old run goes with everything of it and
    leaves the session header; otherwise exactly the old tools and their aliases go, and nothing else.
    (An alias that a newer tool has taken over goes with the older one as well.)
  */
  lemma PruneForgets(p: Parser, cutoff: int)
    requires Invariant(p)
    ensures var q := Prune(p, cutoff);
            if p.run.Some? && Old(p.runs[p.run.value], cutoff) then
              q == FRESH.(conversation := p.conversation, meta := p.meta, bound := p.bound)
            else
              && q == p.(tools := q.tools, aliases := q.aliases)
              && (forall call :: call in q.tools.values <==>
                    call in p.tools.values && !Old(p.tools.values[call].at, cutoff))
              && (forall call :: call in q.tools.values ==> q.tools.values[call] == p.tools.values[call])
              && (forall a :: a in q.aliases <==> a in p.aliases && !OldAlias(p, cutoff, a))
              && (forall a :: a in q.aliases ==> q.aliases[a] == p.aliases[a])
  {
    if p.run.Some? && !Old(p.runs[p.run.value], cutoff) {
      PruneDrops(p, cutoff);
      DropsOld(p, cutoff);
    } else {
      PruneKeeps(p, cutoff);
      PruneClosesOld(p, cutoff);
      NothingOpen(Prune(p, cutoff));
      if p.run == None {
        NothingOpen(p);
      }
    }
  }

  // ---- leaving the tables ----

  /** The line calls a new tool while 1024 are open: the oldest makes room. */
  predicate Crowds(p: Parser, e: Event, call: Key) {
    && |p.tools.keys| == 1024 && p.tools.keys[0] == call
    && Read(p, e) && e.record.body.ToolCall?
    && var called := if e.record.body.callId.Some? then e.record.body.callId else e.record.body.id;
       called.Some? && Calls(p, e, called.value)
  }

  lemma EvictedTool(p: Parser, key: Key, tool: Tool, call: Key)
    requires Invariant(p) && call in p.tools.values && key !in p.tools.values
    ensures forall aliases ::
              call !in EvictTool(p.(tools := p.tools.Put(key, tool), aliases := aliases)).tools.values
              <==> |p.tools.keys| == 1024 && p.tools.keys[0] == call
  {
    PutValid(p.tools, key, tool);
  }

  lemma CallCrowds(p: Parser, e: Event, call: Key)
    requires Invariant(p) && call in p.tools.values && Read(p, e) && e.record.body.ToolCall?
    ensures call !in Apply(p, e).p.tools.values <==> Crowds(p, e, call)
    ensures Apply(p, e).p.run == p.run
  {
    var called := Either(e.record.body.callId, e.record.body.id);
    if called.Some? && called.value !in p.tools.values {
      var key := called.value;
      var alias := if e.record.body.id.Some? && e.record.body.id.value != key then e.record.body.id else None;
      EvictedTool(p, key, Tool(p.run.value, e.record.body.name, e.record.at, alias), call);
    }
  }

  lemma OutputFinishes(p: Parser, e: Event, call: Key)
    requires Invariant(p) && call in p.tools.values && Read(p, e) && e.record.body.ToolOutput?
    ensures call !in Apply(p, e).p.tools.values <==> Finishes(p, e, call)
    ensures Apply(p, e).p.run == p.run
  {
    if Finishes(p, e, call) {
      FinishTells(p, e, call);
    }
  }

  /** Either the run stays open with all its tools and joins, or it goes with all of them. */
  predicate StaysOrGoes(p: Parser, q: Parser) {
    if q.run == p.run then q.tools == p.tools && q.joins == p.joins
    else q.tools == FRESH.tools && q.joins == FRESH.joins
  }

  lemma StartCloses(p: Parser, e: Event)
    requires Invariant(p) && p.run.Some? && Read(p, e) && e.record.body.TaskStarted?
    ensures StaysOrGoes(p, Apply(p, e).p)
  {
    CloseOpenRun(p, p.run.value);
  }

  lemma EndCloses(p: Parser, e: Event)
    requires Invariant(p) && p.run.Some? && Read(p, e) && e.record.body.TaskEnded?
    ensures StaysOrGoes(p, Apply(p, e).p)
  {
    EndClears(p, e);
  }

  /**
    An open tool leaves exactly when its output comes, when it is the oldest of 1024 and another is
    called, when its run does not stay open, or when a pruning finds it old.
  */
  lemma ToolLeavesIff(p: Parser, e: Event, call: Key)
    requires Invariant(p) && call in p.tools.values
    ensures call !in Apply(p, e).p.tools.values <==>
            || Finishes(p, e, call) || Crowds(p, e, call) || Apply(p, e).p.run != p.run
            || (e.Pruned? && Old(p.tools.values[call].at, e.cutoff))
  {
    if Read(p, e) {
      match e.record.body {
        case ToolCall(_, _, _) => CallCrowds(p, e, call);
        case ToolOutput(_, _) => OutputFinishes(p, e, call);
        case TaskStarted(_, _) => StartCloses(p, e);
        case TaskEnded(_, _, _, _, _, _) => EndCloses(p, e);
        case _ =>
      }
    } else if e.Pruned? {
      PruneForgets(p, e.cutoff);
    }
  }

  /** The line is the output of a call that uses the join under this key. */
  predicate Uses(p: Parser, e: Event, key: Key) {
    exists call :: call in p.tools.values && Finishes(p, e, call) && JoinUsed(p, call) == Some(key)
  }

  /** The line enters another join while 256 are kept: the oldest makes room. */
  predicate Displaces(p: Parser, e: Event, key: Key) {
    && |p.joins.keys| == 256 && p.joins.keys[0] == key
    && Read(p, e) && e.record.body.ItemCompleted? && e.record.body.item.Some?
    && e.record.body.item.value !in p.joins.values && TellsOf(p, e, e.record.body.item.value)
  }

  lemma EvictedJoin(joins: Dict<Key, Join>, item: Key, join: Join, key: Key)
    requires joins.Valid() && |joins.keys| <= MAX_ITEM_CACHE && key in joins.values
    ensures key !in EvictJoin(joins.Put(item, join)).values <==>
            item !in joins.values && |joins.keys| == MAX_ITEM_CACHE && joins.keys[0] == key
  {
    PutValid(joins, item, join);
  }

  /** An item is entered exactly when it is a telling one. */
  lemma ItemEntersIff(p: Parser, e: Event)
    requires Read(p, e) && e.record.body.ItemCompleted?
    ensures var body := e.record.body;
            Apply(p, e).p ==
              if body.item.Some? && TellsOf(p, e, body.item.value)
              then p.(joins := EvictJoin(p.joins.Put(body.item.value, JoinOf(p, body)))) else p
  {
    JoinOfSays(p, e.record.body);
  }

  lemma ItemDisplaces(p: Parser, e: Event, key: Key)
    requires Invariant(p) && key in p.joins.values && Read(p, e) && e.record.body.ItemCompleted?
    ensures key !in Apply(p, e).p.joins.values <==> Displaces(p, e, key)
    ensures Apply(p, e).p.run == p.run
  {
    var body := e.record.body;
    ItemEntersIff(p, e);
    if body.item.Some? && TellsOf(p, e, body.item.value) {
      EvictedJoin(p.joins, body.item.value, JoinOf(p, body), key);
    }
  }

  lemma OutputUses(p: Parser, e: Event, key: Key)
    requires Invariant(p) && key in p.joins.values && Read(p, e) && e.record.body.ToolOutput?
    ensures key !in Apply(p, e).p.joins.values <==> Uses(p, e, key)
    ensures Apply(p, e).p.run == p.run
  {
    var call := OutputCall(p, e.record.body);
    if call.Some? {
      assert Finishes(p, e, call.value);
      FinishTells(p, e, call.value);
    }
  }

  /**
    What an item said is kept until an output uses it, until it is the oldest of 256 and another comes,
    or until the run does not stay open; nothing else forgets it.
  */
  lemma JoinLeavesIff(p: Parser, e: Event, key: Key)
    requires Invariant(p) && key in p.joins.values
    ensures key !in Apply(p, e).p.joins.values <==>
            Uses(p, e, key) || Displaces(p, e, key) || Apply(p, e).p.run != p.run
  {
    if Read(p, e) {
      match e.record.body {
        case ItemCompleted(_, _, _, _, _) => ItemDisplaces(p, e, key);
        case ToolOutput(_, _) => OutputUses(p, e, key);
        case TaskStarted(_, _) => StartCloses(p, e);
        case TaskEnded(_, _, _, _, _, _) => EndCloses(p, e);
        case _ =>
      }
    } else if e.Pruned? {
      PruneForgets(p, e.cutoff);
    }
  }
}
