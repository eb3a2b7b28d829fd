/**
  Forgetting an idle Codex transcript (dashboard/provisioner/hivra-agent-trace.py, `_prune`,
  `_start` and `_seed`): the file's parser is dropped and only its inode and offset are kept. When
  the file grows again its parser is seeded from the first line alone and reads on from that offset.
*/
module Tombstone {
  import opened Common
  import opened OrderedDict
  import opened TraceRecord
  import opened CodexParser
  import opened CodexProofs
  import Records = CodexRecords

  predicate IsMeta(e: Event) {
    e.Line? && e.record.SessionMeta?
  }

  /** The first line read, and the first session header read; prunings are not lines. */
  function FirstLine(history: seq<Event>): Option<Event> {
    if history == [] then None
    else
      var earlier := FirstLine(history[..|history| - 1]);
      if earlier == None && history[|history| - 1].Line? then Some(history[|history| - 1]) else earlier
  }

  function FirstMeta(history: seq<Event>): Option<Event> {
    if history == [] then None
    else
      var earlier := FirstMeta(history[..|history| - 1]);
      if earlier == None && IsMeta(history[|history| - 1]) then Some(history[|history| - 1]) else earlier
  }

  /** `_seed`: a fresh parser that has seen the first line if that is a session header. */
  function Seed(first: Option<Event>): Parser {
    if first.Some? && IsMeta(first.value) then Apply(FRESH, first.value).p else FRESH
  }

  function Header(p: Parser): Parser {
    FRESH.(conversation := p.conversation, meta := p.meta, bound := p.bound)
  }

  /** An idle parser holds nothing but its session header: no run, tool, alias or join. */
  lemma IdleIsBare(p: Parser)
    requires Invariant(p) && Idle(p)
    ensures p == Header(p)
  {
    assert p.run == None by {
      assert p.runs.Keys == {};
    }
    EmptyDict(p.tools);
    EmptyDict(p.joins);
    forall a | a in p.aliases ensures false {
    }
    assert p.aliases == map[];
  }

  /** The session header of a parser is that of the first session header it read. */
  lemma {:induction false} HeaderIsFirstMeta(history: seq<Event>)
    ensures Header(Fold(FRESH, history).p) == Seed(FirstMeta(history))
    ensures FirstMeta(history).Some? ==> IsMeta(FirstMeta(history).value) && FirstLine(history).Some?
    ensures Fold(FRESH, history).p.meta == FirstMeta(history).Some?
  {
    if history != [] {
      var earlier, last := history[..|history| - 1], history[|history| - 1];
      HeaderIsFirstMeta(earlier);
      HeaderStays(Fold(FRESH, earlier).p, last);
    }
  }

  /** The line is of the thread whose header was read first: its session is known, and its ordinal is not a parent's. */
  predicate OfThread(history: seq<Event>, ordinal: Option<int>) {
    match FirstMeta(history)
    case Some(Line(SessionMeta(session, start), _)) =>
      session.Some? && !(start.Some? && 0 < start.value && ordinal.Some? && ordinal.value < start.value)
    case _ => false
  }

  /** Exactly the lines of the thread are read; any other changes nothing and says nothing. */
  lemma ThreadIsRead(history: seq<Event>, ordinal: Option<int>, at: Option<int>, body: Body, place: Place)
    ensures var p, e := Fold(FRESH, history).p, Line(Entry(ordinal, at, body), place);
            && (Records.Read(p, e) <==> OfThread(history, ordinal))
            && (!OfThread(history, ordinal) ==> Apply(p, e) == Parsed(p, []))
  {
    HeaderIsFirstMeta(history);
  }

  lemma HeaderStays(p: Parser, e: Event)
    ensures !IsMeta(e) || p.meta ==> Header(Apply(p, e).p) == Header(p)
  {
    match e
    case Pruned(cutoff) => PruneKeepsHeader(p, cutoff);
    case Line(SessionMeta(_, _), _) =>
    case Line(Entry(ordinal, at, body), place) =>
      if !Replayed(p, ordinal) && p.conversation.Some? {
        BodyKeepsHeader(p, p.conversation.value, at, body);
      }
  }

  lemma PruneKeepsHeader(p: Parser, cutoff: int)
    ensures Header(Prune(p, cutoff)) == Header(p)
  {
  }

  lemma BodyKeepsHeader(p: Parser, conversation: Id, at: Option<int>, body: Body)
    ensures body.TaskStarted? ==> Header(StartTask(p, conversation, at, body).p) == Header(p)
    ensures body.TaskEnded? ==> Header(EndTask(p, conversation, at, body).p) == Header(p)
    ensures body.ItemCompleted? ==> Header(CompleteItem(p, body)) == Header(p)
    ensures body.ToolCall? ==> Header(CallTool(p, conversation, at, body).p) == Header(p)
    ensures body.ToolOutput? ==> Header(FinishTool(p, conversation, at, body).p) == Header(p)
  {
  }

  /** The tombstone loses nothing: the header line came first, or no header was read at all. */
  predicate Transparent(history: seq<Event>) {
    FirstMeta(history) == None || HeaderFirst(history)
  }

  predicate HeaderFirst(history: seq<Event>) {
    FirstLine(history).Some? && IsMeta(FirstLine(history).value)
  }

  lemma {:induction false} MetaFirst(history: seq<Event>)
    requires HeaderFirst(history)
    ensures FirstMeta(history) == FirstLine(history)
  {
    var earlier := history[..|history| - 1];
    if FirstLine(earlier).Some? {
      MetaFirst(earlier);
    } else {
      NoLineNoMeta(earlier);
    }
  }

  lemma {:induction false} NoLineNoMeta(history: seq<Event>)
    requires FirstLine(history) == None
    ensures FirstMeta(history) == None
  {
    if history != [] {
      NoLineNoMeta(history[..|history| - 1]);
    }
  }

  /** Resuming from the tombstone of a transparent, idle file is resuming its own parser. */
  lemma SeedRestores(history: seq<Event>)
    requires Idle(Fold(FRESH, history).p) && Transparent(history)
    ensures Seed(FirstLine(history)) == Fold(FRESH, history).p
  {
    ReachableCodex(history);
    IdleIsBare(Fold(FRESH, history).p);
    HeaderIsFirstMeta(history);
    if HeaderFirst(history) {
      MetaFirst(history);
    }
  }

  const BEGIN := Line(Entry(None, Some(0), TaskStarted(Some(1), None)), Place(0, 0))
  const LATE_META := Line(SessionMeta(Some(1), None), Place(0, 0))

  lemma FoldOne(p: Parser, e: Event)
    ensures Fold(p, [e]) == Apply(p, e)
  {
    assert [e][..0] == [];
    assert Fold(p, [e][..0]) == Parsed(p, []);
    assert [] + Apply(p, e).out == Apply(p, e).out;
  }

  lemma FoldTwo(p: Parser, e: Event, f: Event)
    requires Apply(p, e).out == []
    ensures Fold(p, [e, f]) == Apply(Apply(p, e).p, f)
  {
    assert [e, f][..1] == [e];
    FoldOne(p, e);
    assert [] + Apply(Apply(p, e).p, f).out == Apply(Apply(p, e).p, f).out;
  }

  /** A header that is not the first line is lost: some continuation is reported differently. */
  lemma LateHeaderShows(history: seq<Event>) returns (more: seq<Event>)
    requires Idle(Fold(FRESH, history).p) && !Transparent(history)
    ensures Fold(Fold(FRESH, history).p, more).out != Fold(Seed(FirstLine(history)), more).out
  {
    var p := Fold(FRESH, history).p;
    ReachableCodex(history);
    IdleIsBare(p);
    HeaderIsFirstMeta(history);
    if p.conversation.Some? {
      more := [BEGIN];
      FoldOne(p, BEGIN);
      FoldOne(FRESH, BEGIN);
    } else {
      more := [LATE_META, BEGIN];
      FoldTwo(p, LATE_META, BEGIN);
      FoldTwo(FRESH, LATE_META, BEGIN);
    }
  }

  /**
    Forgetting an idle, fully read transcript and resuming it from its tombstone emits exactly the
    records that never forgetting it would emit, whatever follows, if and only if its session header
    was its first line or it had none.
  */
  lemma ForgettingIsInvisible(history: seq<Event>)
    requires Idle(Fold(FRESH, history).p)
    ensures (forall more :: Fold(Fold(FRESH, history).p, more).out == Fold(Seed(FirstLine(history)), more).out)
            <==> Transparent(history)
  {
    if Transparent(history) {
      SeedRestores(history);
    } else {
      var more := LateHeaderShows(history);
    }
  }

  const HEADER_SECOND := [Line(Entry(None, None, Ignored), Place(0, 0)), Line(SessionMeta(Some(1), None), Place(0, 1))]

  /** A transcript whose header is its second line can be idle, and is not resumed as it was. */
  lemma LateHeaderHappens()
    ensures Idle(Fold(FRESH, HEADER_SECOND).p) && !Transparent(HEADER_SECOND)
    ensures exists more ::
              Fold(Fold(FRESH, HEADER_SECOND).p, more).out != Fold(Seed(FirstLine(HEADER_SECOND)), more).out
  {
    var first := HEADER_SECOND[..1];
    assert first[..0] == [] && Fold(FRESH, first[..0]) == Parsed(FRESH, []);
    assert Fold(FRESH, first).p == FRESH && FirstLine(first[..0]) == None && FirstMeta(first[..0]) == None;
    var more := LateHeaderShows(HEADER_SECOND);
  }
}
