/**
  Tool starts and tool ends in the records of a Claude transcript. A result whose time is unknown is
  deferred; its call is no longer open in the parser, so its id could be used again before its end
  is told. Ends are matched with starts as long as that does not happen.
*/
module ClaudeTools {
  import opened Common
  import opened OrderedDict
  import opened TraceRecord
  import opened ClaudeParser

  ghost predicate OpenTool(out: seq<Rec>, key: Key, tool: Tool) {
    OpenCall(out, key, tool.conversation, tool.run, tool.name)
  }

  predicate Awaits(deferred: seq<Deferred>, key: Key) {
    exists i :: 0 <= i < |deferred| && deferred[i].key == key
  }

  /** Every open and every deferred tool is a call whose last record so far is its start, each call once. */
  ghost predicate Tracked(tools: map<Key, Tool>, deferred: seq<Deferred>, out: seq<Rec>) {
    && EndsMatched(out)
    && (forall call :: call in tools ==> OpenTool(out, call, tools[call]) && !Awaits(deferred, call))
    && (forall i :: 0 <= i < |deferred| ==> OpenTool(out, deferred[i].key, deferred[i].tool))
    && (forall i, j :: 0 <= i < j < |deferred| ==> deferred[i].key != deferred[j].key)
  }

  ghost predicate TrackedParser(p: Parser, out: seq<Rec>) {
    Tracked(p.tools.values, p.deferred, out)
  }

  /** Records about no keyed call change nothing. */
  lemma TrackedMore(tools: map<Key, Tool>, deferred: seq<Deferred>, out: seq<Rec>, more: seq<Rec>)
    requires Tracked(tools, deferred, out) && forall r :: r in more ==> r.call == None
    ensures Tracked(tools, deferred, out + more)
  {
    EndsMatchedMore(out, more);
    forall call | call in tools ensures OpenTool(out + more, call, tools[call]) {
      OpenCallStays(out, more, call, tools[call].conversation, tools[call].run, tools[call].name);
    }
    forall i | 0 <= i < |deferred| ensures OpenTool(out + more, deferred[i].key, deferred[i].tool) {
      var tool := deferred[i].tool;
      OpenCallStays(out, more, deferred[i].key, tool.conversation, tool.run, tool.name);
    }
  }

  lemma OthersStay(tools: map<Key, Tool>, deferred: seq<Deferred>, out: seq<Rec>, r: Rec, key: Key)
    requires r.call == Some(Keyed(key)) && key !in tools && !Awaits(deferred, key)
    requires forall call :: call in tools ==> OpenTool(out, call, tools[call])
    requires forall i :: 0 <= i < |deferred| ==> OpenTool(out, deferred[i].key, deferred[i].tool)
    ensures forall call :: call in tools ==> OpenTool(out + [r], call, tools[call])
    ensures forall i :: 0 <= i < |deferred| ==> OpenTool(out + [r], deferred[i].key, deferred[i].tool)
  {
    forall call | call in tools ensures OpenTool(out + [r], call, tools[call]) {
      OpenCallStays(out, [r], call, tools[call].conversation, tools[call].run, tools[call].name);
    }
    forall i | 0 <= i < |deferred| ensures OpenTool(out + [r], deferred[i].key, deferred[i].tool) {
      var tool := deferred[i].tool;
      OpenCallStays(out, [r], deferred[i].key, tool.conversation, tool.run, tool.name);
    }
  }

  /** The end of an open tool. */
  lemma EndTracked(tools: map<Key, Tool>, deferred: seq<Deferred>, out: seq<Rec>, key: Key, r: Rec)
    requires Tracked(tools, deferred, out) && key in tools && r.call == Some(Keyed(key))
    requires r.conversation == tools[key].conversation && r.run == tools[key].run && r.tool == tools[key].name
    ensures Tracked(tools - {key}, deferred, out + [r])
  {
    EndsMatchedEnd(out, r, key);
    OthersStay(tools - {key}, deferred, out, r, key);
  }

  /** The start of a call that is neither open nor deferred. */
  lemma StartTracked(tools: map<Key, Tool>, deferred: seq<Deferred>, out: seq<Rec>, key: Key, tool: Tool, r: Rec)
    requires Tracked(tools, deferred, out) && key !in tools && !Awaits(deferred, key)
    requires r.role == ToolStarted && r.call == Some(Keyed(key))
    requires r.conversation == tool.conversation && r.run == tool.run && r.tool == tool.name
    ensures Tracked(tools[key := tool], deferred, out + [r])
  {
    EndsMatchedMore(out, [r]);
    OpenCallBegins(out, r, key);
    OthersStay(tools, deferred, out, r, key);
  }

  lemma FewerTracked(tools: map<Key, Tool>, gone: set<Key>, deferred: seq<Deferred>, out: seq<Rec>)
    requires Tracked(tools, deferred, out)
    ensures Tracked(tools - gone, deferred, out)
  {
  }

  /** The ends of the deferred tools, oldest first. */
  lemma {:induction false} SettledTracked(tools: map<Key, Tool>, deferred: seq<Deferred>, out: seq<Rec>,
                                          at: Option<int>)
    requires Tracked(tools, deferred, out)
    ensures Tracked(tools, [], out + SettledRecords(deferred, at))
    decreases |deferred|
  {
    var all := SettledRecords(deferred, at);
    if deferred == [] {
      assert out + all == out;
    } else {
      var key, tool, rest, r := deferred[0].key, deferred[0].tool, deferred[1..], all[0];
      EndsMatchedEnd(out, r, key);
      assert !Awaits(rest, key);
      OthersStay(tools, rest, out, r, key);
      assert forall call :: call in tools && Awaits(rest, call) ==> Awaits(deferred, call);
      SettledTracked(tools, rest, out + [r], at);
      assert out + all == (out + [r]) + SettledRecords(rest, at);
    }
  }

  lemma {:induction false} ResultsTracked(p: Parser, out: seq<Rec>, at: Option<int>, results: seq<Result>)
    requires TrackedParser(p, out)
    ensures var q := TakeResults(p, at, results); TrackedParser(q.p, out + q.out) && q.p.deferred == p.deferred
  {
    if results == [] {
      assert out + [] == out;
    } else {
      var before, last := results[..|results| - 1], results[|results| - 1];
      ResultsTracked(p, out, at, before);
      var earlier, q := TakeResults(p, at, before), TakeResults(p, at, results);
      if last.call.Some? && last.call.value in earlier.p.tools.values {
        var r := q.out[|earlier.out|];
        EndTracked(earlier.p.tools.values, p.deferred, out + earlier.out, last.call.value, r);
        assert out + q.out == (out + earlier.out) + [r];
      }
    }
  }

  lemma {:induction false} UsesTracked(p: Parser, out: seq<Rec>, owner: Owner, at: Option<int>, uses: seq<Use>)
    requires TrackedParser(p, out)
    requires forall i :: 0 <= i < |uses| && uses[i].call.Some? ==> !Awaits(p.deferred, uses[i].call.value)
    ensures var q := TakeUses(p, owner, at, uses); TrackedParser(q.p, out + q.out) && q.p.deferred == p.deferred
  {
    if uses == [] {
      assert out + [] == out;
    } else {
      var before, last := uses[..|uses| - 1], uses[|uses| - 1];
      UsesTracked(p, out, owner, at, before);
      var earlier, q := TakeUses(p, owner, at, before), TakeUses(p, owner, at, uses);
      if last.call.Some? && last.call.value !in earlier.p.tools.values {
        var key, r := last.call.value, q.out[|earlier.out|];
        var tool := Tool(owner.run, owner.conversation, last.name, at);
        StartTracked(earlier.p.tools.values, p.deferred, out + earlier.out, key, tool, r);
        assert out + q.out == (out + earlier.out) + [r];
        var put := earlier.p.tools.Put(key, tool);
        if |put.keys| > MAX_OPEN_TOOLS {
          FewerTracked(put.values, {put.keys[0]}, p.deferred, out + q.out);
        }
      }
    }
  }

  /** An assistant record without a time uses a call id whose earlier result is still deferred. */
  predicate Reuses(p: Parser, e: Event) {
    && e.Record? && e.at == None && e.body.Assistant? && p.run.Some?
    && exists i :: 0 <= i < |e.body.uses| && e.body.uses[i].call.Some? && Awaits(p.deferred, e.body.uses[i].call.value)
  }

  lemma ParseTracked(p: Parser, out: seq<Rec>, at: Option<int>, body: Body)
    requires TrackedParser(p, out)
    requires body.Assistant? && p.run.Some? ==>
               forall i :: 0 <= i < |body.uses| && body.uses[i].call.Some? ==>
                 !Awaits(p.deferred, body.uses[i].call.value)
    ensures var step := Parse(p, at, body); TrackedParser(step.p, out + step.out)
  {
    var step := Parse(p, at, body);
    match body {
      case Results(results) => ResultsTracked(p, out, at, results);
      case Assistant(uses, _, _, _) =>
        if p.run.Some? {
          UsesTracked(p, out, p.run.value, at, uses);
          var used := TakeUses(p, p.run.value, at, uses);
          TrackedMore(used.p.tools.values, used.p.deferred, out + used.out, step.out[|used.out|..]);
          assert out + step.out == (out + used.out) + step.out[|used.out|..];
        } else {
          assert out + step.out == out;
        }
      case _ => TrackedMore(p.tools.values, p.deferred, out, step.out);
    }
  }

  lemma RecordTracked(p: Parser, out: seq<Rec>, at: Option<int>, body: Body)
    requires TrackedParser(p, out) && !Reuses(p, Record(at, body))
    ensures var step := Apply(p, Record(at, body)); TrackedParser(step.p, out + step.out)
  {
    var settled := Settle(p, at);
    SettleTracked(p, out, at);
    ParseTracked(settled.p, out + settled.out, at, body);
    var rest := Parse(settled.p, at, body).out;
    assert out + (settled.out + rest) == (out + settled.out) + rest;
  }

  lemma SettleTracked(p: Parser, out: seq<Rec>, at: Option<int>)
    requires TrackedParser(p, out)
    ensures var step := Settle(p, at); TrackedParser(step.p, out + step.out)
  {
    if p.deferred == [] || at == None {
      assert out + [] == out;
    } else {
      SettledTracked(p.tools.values, p.deferred, out, at);
    }
  }

  lemma LastTracked(tools: map<Key, Tool>, deferred: seq<Deferred>, out: seq<Rec>, n: nat)
    requires Tracked(tools, deferred, out) && n <= |deferred|
    ensures Tracked(tools, deferred[n..], out)
  {
    forall call | call in tools ensures !Awaits(deferred[n..], call) {
      assert !Awaits(deferred, call);
    }
  }

  lemma EnvelopeTracked(p: Parser, out: seq<Rec>, call: Option<Key>, at: Option<int>, success: Option<bool>)
    requires TrackedParser(p, out)
    ensures var step := Apply(p, Envelope(call, at, success)); TrackedParser(step.p, out + step.out)
  {
    if call.Some? && call.value in p.tools.values {
      var key, tool := call.value, p.tools.values[call.value];
      if at.Some? {
        EndTracked(p.tools.values, p.deferred, out, key, EndOfTool(key, tool, at, success));
      } else {
        var more := p.deferred + [Deferred(key, tool)];
        assert forall other :: other in p.tools.values && other != key && Awaits(more, other) ==>
            Awaits(p.deferred, other);
        assert forall i :: 0 <= i < |p.deferred| ==> p.deferred[i].key != key;
        assert Tracked(p.tools.values - {key}, more, out);
        if |more| > MAX_OPEN_TOOLS {
          LastTracked(p.tools.values - {key}, more, out, |more| - MAX_OPEN_TOOLS);
        }
        assert out + [] == out;
      }
    } else {
      assert out + [] == out;
    }
  }

  lemma {:induction false} RecentTracked(tools: map<Key, Tool>, deferred: seq<Deferred>, out: seq<Rec>, cutoff: int)
    requires Tracked(tools, deferred, out)
    ensures Tracked(tools, Recent(deferred, cutoff), out)
    ensures forall key :: Awaits(Recent(deferred, cutoff), key) ==> Awaits(deferred, key)
  {
    if deferred != [] {
      var first, rest := deferred[0], Recent(deferred[1..], cutoff);
      LastTracked(tools, deferred, out, 1);
      RecentTracked(tools, deferred[1..], out, cutoff);
      forall key | Awaits(deferred[1..], key) ensures Awaits(deferred, key) && key != first.key {
        var i :| 0 <= i < |deferred[1..]| && deferred[1..][i].key == key;
        assert deferred[i + 1].key == key;
      }
      assert !Awaits(rest, first.key);
      if !Before(first.tool.at, cutoff) {
        FirstTracked(tools, first, rest, out);
      }
    }
  }

  lemma FirstTracked(tools: map<Key, Tool>, first: Deferred, rest: seq<Deferred>, out: seq<Rec>)
    requires Tracked(tools, rest, out) && OpenTool(out, first.key, first.tool) && first.key !in tools
             && !Awaits(rest, first.key)
    ensures Tracked(tools, [first] + rest, out)
    ensures forall key :: Awaits([first] + rest, key) ==> key == first.key || Awaits(rest, key)
  {
    var all := [first] + rest;
    forall key | Awaits(all, key) ensures key == first.key || Awaits(rest, key) {
      var i :| 0 <= i < |all| && all[i].key == key;
      if i > 0 {
        assert rest[i - 1].key == key;
      }
    }
    forall i | 0 < i < |all| ensures OpenTool(out, all[i].key, all[i].tool) && all[i].key != first.key {
      assert all[i] == rest[i - 1];
    }
  }

  lemma PruneTracked(p: Parser, out: seq<Rec>, cutoff: int)
    requires TrackedParser(p, out)
    ensures var step := Apply(p, Pruned(cutoff)); TrackedParser(step.p, out + step.out)
  {
    var gone := set call | call in p.tools.values && Before(p.tools.values[call].at, cutoff);
    RecentTracked(p.tools.values, p.deferred, out, cutoff);
    FewerTracked(p.tools.values, gone, Recent(p.deferred, cutoff), out);
    assert out + [] == out;
  }

  lemma ApplyTracked(p: Parser, out: seq<Rec>, e: Event)
    requires TrackedParser(p, out) && !Reuses(p, e)
    ensures var step := Apply(p, e); TrackedParser(step.p, out + step.out)
  {
    match e
    case Record(at, body) => RecordTracked(p, out, at, body);
    case Envelope(call, at, success) => EnvelopeTracked(p, out, call, at, success);
    case Quiet(mtime) =>
      var settled := Settle(p, Some(mtime));
      SettleTracked(p, out, Some(mtime));
      var rest := Flush(settled.p).out;
      TrackedMore(settled.p.tools.values, settled.p.deferred, out + settled.out, rest);
      assert out + (settled.out + rest) == (out + settled.out) + rest;
    case Pruned(cutoff) => PruneTracked(p, out, cutoff);
  }

  predicate NeverReuses(events: seq<Event>) {
    forall i :: 0 <= i < |events| ==> !ReusesAt(events, i)
  }

  predicate ReusesAt(events: seq<Event>, i: nat)
    requires i < |events|
  {
    Reuses(Fold(FRESH, events[..i]).p, events[i])
  }

  /**
    Every end of a tool call follows its own start, and no start has two ends, unless a deferred call
    id is used again.
  */
  lemma {:induction false} ToolEndsMatched(events: seq<Event>)
    requires NeverReuses(events)
    ensures var f := Fold(FRESH, events); TrackedParser(f.p, f.out) && EndsMatched(f.out)
  {
    if events != [] {
      var k := |events| - 1;
      var before := events[..k];
      forall i | 0 <= i < k ensures !ReusesAt(before, i) {
        assert before[..i] == events[..i] && !ReusesAt(events, i);
      }
      ToolEndsMatched(before);
      assert !ReusesAt(events, k);
      ApplyTracked(Fold(FRESH, before).p, Fold(FRESH, before).out, events[k]);
    }
  }

  // ---- what using a deferred call id again does ----

  /** An end of the call after another one, with no start between, matches nothing. */
  lemma SecondEndUnmatched(out: seq<Rec>, ends: seq<Rec>, key: Key, m: nat, r: Rec)
    requires IsToolEnd(r.role) && r.call == Some(Keyed(key))
    requires m < |ends| && ends[m].call == Some(Keyed(key)) && forall i :: 0 <= i < |ends| ==> IsToolEnd(ends[i].role)
    ensures !EndsMatched(out + ends + [r])
  {
    var all := out + ends + [r];
    var j := |out| + |ends|;
    assert all[j] == r && all[|out| + m] == ends[m];
    assert forall i :: |out| <= i < j ==> all[i] == ends[i - |out|];
  }

  /** The next record with a time, and then the result of the call. */
  function Continuation(key: Key, at: int): seq<Event> {
    [Record(Some(at), Other), Record(Some(at), Results([Result(Some(key), None)]))]
  }

  lemma OneResult(p: Parser, at: Option<int>, key: Key)
    requires key in p.tools.values && p.deferred == []
    ensures Apply(p, Record(at, Results([Result(Some(key), None)]))).out
            == [EndOfTool(key, p.tools.values[key], at, None)]
  {
    var results := [Result(Some(key), None)];
    assert results[..0] == [] && TakeResults(p, at, results[..0]) == Parsed(p, []);
    assert [] + TakeResults(p, at, results).out == TakeResults(p, at, results).out;
  }

  /** The next record with a time tells every deferred end. */
  lemma TimeSettles(p: Parser, at: int)
    ensures Apply(p, Record(Some(at), Other)) == Parsed(p.(deferred := []), SettledRecords(p.deferred, Some(at)))
  {
    var ends := SettledRecords(p.deferred, Some(at));
    assert ends + [] == ends;
    assert p.deferred == [] ==> p == p.(deferred := []) && ends == [];
  }

  lemma FoldTwoMore(events: seq<Event>, more: seq<Event>)
    requires |more| == 2
    ensures var f := Fold(FRESH, events);
            var g := Apply(f.p, more[0]);
            Fold(FRESH, events + more).out == f.out + g.out + Apply(g.p, more[1]).out
  {
    var once, all := events + [more[0]], events + more;
    assert once[..|events|] == events && all[..|once|] == once && all[|once|] == more[1];
  }

  /** A call both open and deferred will have an unmatched end: its result and the deferred one share a start. */
  lemma DoubledBreaksMatching(events: seq<Event>, key: Key, at: int)
    requires var p := Fold(FRESH, events).p; key in p.tools.values && Awaits(p.deferred, key)
    ensures !EndsMatched(Fold(FRESH, events + Continuation(key, at)).out)
  {
    var f := Fold(FRESH, events);
    FoldTwoMore(events, Continuation(key, at));
    TimeSettles(f.p, at);
    OneResult(f.p.(deferred := []), Some(at), key);
    var m: nat :| m < |f.p.deferred| && f.p.deferred[m].key == key;
    SecondEndUnmatched(f.out, SettledRecords(f.p.deferred, Some(at)), key, m,
                       EndOfTool(key, f.p.tools.values[key], Some(at), None));
  }

  // ---- a call just used is not the one evicted ----

  predicate Used(uses: seq<Use>, key: Key) {
    exists i :: 0 <= i < |uses| && uses[i].call == Some(key)
  }

  /** The key is among the `n` newest. */
  predicate Newest(keys: seq<Key>, key: Key, n: nat) {
    exists m :: 0 <= m < |keys| && keys[m] == key && |keys| - m <= n
  }

  lemma OutsideFirst(keys: seq<Key>)
    requires keys != [] && forall i, j :: 0 <= i < j < |keys| ==> keys[i] != keys[j]
    ensures Outside(keys, {keys[0]}) == keys[1..]
  {
    OutsideNone(keys[1..], {keys[0]});
  }

  /** Another call is put, and the oldest evicted if they are too many: the newest stay. */
  lemma PutKeepsNewest(tools: Dict<Key, Tool>, call: Key, tool: Tool, key: Key, n: nat)
    requires tools.Valid() && call !in tools.values && n < MAX_OPEN_TOOLS
    requires key == call || Newest(tools.keys, key, n)
    ensures Newest(Evict(tools.Put(call, tool)).keys, key, n + 1)
  {
    PutValid(tools, call, tool);
    var put := tools.Put(call, tool);
    var m := |tools.keys|;
    if key != call {
      m :| 0 <= m < |tools.keys| && tools.keys[m] == key && |tools.keys| - m <= n;
    }
    assert put.keys[m] == key && |put.keys| - m <= n + 1;
    if |put.keys| > MAX_OPEN_TOOLS {
      OutsideFirst(put.keys);
      assert put.keys[1..][m - 1] == key;
    }
  }

  /** A call that was not open before is among the newest once it is used, and open only then. */
  lemma {:induction false} UsedIsNewest(p: Parser, owner: Owner, at: Option<int>, uses: seq<Use>, key: Key)
    requires Invariant(p) && p.run == Some(owner) && key !in p.tools.values && |uses| <= MAX_OPEN_TOOLS
    ensures var q := TakeUses(p, owner, at, uses).p;
            (key in q.tools.values ==> Used(uses, key)) && (Used(uses, key) ==> Newest(q.tools.keys, key, |uses|))
  {
    if uses != [] {
      var before, last := uses[..|uses| - 1], uses[|uses| - 1];
      var earlier := TakeUses(p, owner, at, before);
      UsedIsNewest(p, owner, at, before, key);
      TakeUsesKeeps(p, owner, at, before);
      UsedSnoc(uses, key);
      if last.call.Some? && last.call.value !in earlier.p.tools.values && Used(uses, key) {
        var tool := Tool(owner.run, owner.conversation, last.name, at);
        PutKeepsNewest(earlier.p.tools, last.call.value, tool, key, |before|);
      }
    }
  }

  lemma UsedSnoc(uses: seq<Use>, key: Key)
    requires uses != []
    ensures Used(uses, key) <==> Used(uses[..|uses| - 1], key) || uses[|uses| - 1].call == Some(key)
  {
    var before := uses[..|uses| - 1];
    if Used(before, key) {
      var i :| 0 <= i < |before| && before[i].call == Some(key);
      assert uses[i].call == Some(key);
    }
  }

  /** Using a deferred call id again makes the call both open and deferred. */
  lemma ReuseDoubles(p: Parser, body: Body, key: Key)
    requires Invariant(p) && key !in p.tools.values && body.Assistant? && p.run.Some?
    requires |body.uses| <= MAX_OPEN_TOOLS && Used(body.uses, key)
    ensures var q := Apply(p, Record(None, body)).p; key in q.tools.values && q.deferred == p.deferred
  {
    UsedStaysOpen(p, p.run.value, body.uses, key);
    assert Settle(p, None) == Parsed(p, []);
  }

  lemma UsedStaysOpen(p: Parser, owner: Owner, uses: seq<Use>, key: Key)
    requires Invariant(p) && p.run == Some(owner) && key !in p.tools.values
    requires |uses| <= MAX_OPEN_TOOLS && Used(uses, key)
    ensures var q := TakeUses(p, owner, None, uses).p; key in q.tools.values && q.deferred == p.deferred
  {
    var q := TakeUses(p, owner, None, uses).p;
    UsedIsNewest(p, owner, None, uses, key);
    TakeUsesKeeps(p, owner, None, uses);
    assert key in q.tools.keys;
  }

  // ---- exactly when ends stay matched ----

  lemma NeverReusesSnoc(events: seq<Event>, e: Event)
    requires NeverReuses(events) && !Reuses(Fold(FRESH, events).p, e)
    ensures NeverReuses(events + [e])
  {
    var all := events + [e];
    forall i | 0 <= i < |all| ensures !ReusesAt(all, i) {
      assert all[..i] == events[..i];
      if i < |events| {
        assert !ReusesAt(events, i);
      } else {
        assert events[..i] == events;
      }
    }
  }

  /** No event of the continuation uses a deferred call id. */
  predicate NoneAfter(events: seq<Event>, more: seq<Event>) {
    forall i :: |events| <= i < |events + more| ==> !ReusesAt(events + more, i)
  }

  lemma NeverReusesConcat(events: seq<Event>, more: seq<Event>)
    requires NeverReuses(events) && NoneAfter(events, more)
    ensures NeverReuses(events + more)
  {
    var all := events + more;
    forall i | 0 <= i < |all| ensures !ReusesAt(all, i) {
      if i < |events| {
        assert all[..i] == events[..i] && !ReusesAt(events, i);
      }
    }
  }

  lemma ContinuationReusesNone(events: seq<Event>, key: Key, at: int)
    ensures NoneAfter(events, Continuation(key, at))
  {
  }

  predicate FewUses(e: Event) {
    e.Record? && e.body.Assistant? ==> |e.body.uses| <= MAX_OPEN_TOOLS
  }

  /** The transcript can go on, without another such use, to an end that has no start of its own. */
  ghost predicate CanUnmatch(events: seq<Event>) {
    exists more :: NoneAfter(events, more) && !EndsMatched(Fold(FRESH, events + more).out)
  }

  /**
    After any transcript without such a use, an event with no more tool uses than are tracked can be
    followed by an unmatched end exactly when it uses a call id whose earlier result is deferred.
  */
  lemma UnmatchedIffReused(events: seq<Event>, e: Event)
    requires NeverReuses(events) && FewUses(e)
    ensures Reuses(Fold(FRESH, events).p, e) <==> CanUnmatch(events + [e])
  {
    var p := Fold(FRESH, events).p;
    var once := events + [e];
    if Reuses(p, e) {
      var i :| 0 <= i < |e.body.uses| && e.body.uses[i].call.Some? && Awaits(p.deferred, e.body.uses[i].call.value);
      var key := e.body.uses[i].call.value;
      ToolEndsMatched(events);
      ReachableClaude(events);
      ReuseDoubles(p, e.body, key);
      assert once[..|events|] == events;
      DoubledBreaksMatching(once, key, 0);
      ContinuationReusesNone(once, key, 0);
    } else {
      NeverReusesSnoc(events, e);
      forall more | NoneAfter(once, more) ensures EndsMatched(Fold(FRESH, once + more).out) {
        NeverReusesConcat(once, more);
        ToolEndsMatched(once + more);
      }
    }
  }

  /** A prompt, a use of a call and its untimed result: the call is deferred. */
  function Deferring(key: Key): seq<Event> {
    [Record(Some(0), Prompt(Some(1), 0, false)),
     Record(Some(0), Assistant([Use(Some(key), None)], false, None, false)),
     Envelope(Some(key), None, None)]
  }

  lemma DeferringStates(key: Key)
    ensures Fold(FRESH, Deferring(key)[..0]).p == FRESH
    ensures Fold(FRESH, Deferring(key)[..1]).p.run == Some(Owner(1, 0))
    ensures Fold(FRESH, Deferring(key)[..1]).p.deferred == []
    ensures key in Fold(FRESH, Deferring(key)[..2]).p.tools.values && Fold(FRESH, Deferring(key)[..2]).p.deferred == []
    ensures Fold(FRESH, Deferring(key)[..2]).p.run == Some(Owner(1, 0))
  {
    var events, uses := Deferring(key), [Use(Some(key), None)];
    assert events[..1][..0] == [] && events[..2][..1] == events[..1] && uses[..0] == [];
    var p := Fold(FRESH, events[..1]).p;
    assert p.run == Some(Owner(1, 0)) && p.tools == FRESH.tools && p.deferred == [];
    assert TakeUses(p, Owner(1, 0), Some(0), uses[..0]) == Parsed(p, []);
  }

  /** So a deferred call id can be used again, and then an end can be left without a start. */
  lemma ReuseHappens(key: Key)
    ensures NeverReuses(Deferring(key))
    ensures var e := Record(None, Assistant([Use(Some(key), None)], false, None, false));
            Reuses(Fold(FRESH, Deferring(key)).p, e) && CanUnmatch(Deferring(key) + [e])
  {
    var events, uses := Deferring(key), [Use(Some(key), None)];
    var e := Record(None, Assistant(uses, false, None, false));
    DeferringStates(key);
    var before, p := Fold(FRESH, events[..2]).p, Fold(FRESH, events).p;
    assert p.deferred == [Deferred(key, before.tools.values[key])];
    assert p.deferred[0].key == key && uses[0].call == Some(key);
    UnmatchedIffReused(events, e);
  }
}
