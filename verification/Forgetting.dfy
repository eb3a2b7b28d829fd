/**
  Collect, deliver and commit with pruning and tombstones (dashboard/provisioner/hivra-agent-trace.py,
  `Reporter._prune`, `Tracker._forgotten`, `_start` and `_seed` beside what `Delivery` models): parsers
  are pruned, fully read idle transcripts are forgotten, and a forgotten one that grows is read on
  from its tombstone. What a committed parser is worth is told by its history, kept beside it: the
  lines read so far in order, with the prunings applied in between.
*/
module Forgetting {
  import opened Common
  import opened TraceRecord
  import opened Tombstone
  import Codex = CodexParser
  import Proofs = CodexProofs
  import Reader = LineReader
  import D = Delivery

  type History = seq<Codex.Event>

  /** What one pass read of one file, on top of what had been read before. */
  datatype Story = Story(path: Id, history: History)

  /**
    Committed entries and tombstones, in memory and in state.json, each with its history; everything
    ever posted and settled, and the histories of the passes that posted it.
  */
  datatype World = World(
    contents: map<Id, D.Bytes>,
    files: map<Id, D.Entry>, idle: map<Id, nat>, past: map<Id, History>,
    disk: map<Id, D.Entry>, diskIdle: map<Id, nat>, diskPast: map<Id, History>,
    sent: set<D.Sent>, settled: set<D.Sent>, stories: set<Story>)

  /** A pass as in `Delivery`; a pruning, with the files not written for a day; a save alone; a restart. */
  datatype Action =
    | Grow(path: Id, bytes: D.Bytes)
    | Pass(plan: seq<D.Read>, posted: nat, settled: nat, alive: bool, saved: bool)
    | Prune(cutoff: int, quiet: set<Id>, saved: bool)
    | Save
    | Restart

  // ---- the reporter ----

  function FirstEvent(decode: D.Decode, path: Id, content: D.Bytes): Option<Codex.Event> {
    var lines := D.FileLines(content);
    if lines == [] then None else Some(Codex.Line(decode(lines[0]), Codex.Place(path, lines[0].start)))
  }

  /** The entry a forgotten file is read on with: its offset, and a parser seeded from the first line. */
  function Resumed(decode: D.Decode, path: Id, content: D.Bytes, offset: nat): D.Entry {
    D.Entry(offset, if offset == 0 then Codex.FRESH else Seed(FirstEvent(decode, path, content)))
  }

  /** The entry of a file, tracked or forgotten. */
  function EntryOf(decode: D.Decode, contents: map<Id, D.Bytes>, files: map<Id, D.Entry>, idle: map<Id, nat>, path: Id)
    : Option<D.Entry>
  {
    if path !in contents then None
    else if path in files then Some(files[path])
    else if path in idle then Some(Resumed(decode, path, contents[path], idle[path]))
    else None
  }

  /** Where a pass starts reading a file; one with nothing new, tracked or forgotten, is not opened. */
  function Start(decode: D.Decode, w: World, path: Id): Option<D.Entry> {
    var e := EntryOf(decode, w.contents, w.files, w.idle, path);
    if e.Some? && e.value.offset < |w.contents[path]| then e else None
  }

  function PastOf(past: map<Id, History>, path: Id): History {
    if path in past then past[path] else []
  }

  /** The events a reading of up to n complete lines from an offset feeds to the parser. */
  function ReadEvents(decode: D.Decode, path: Id, content: D.Bytes, offset: nat, n: nat): History {
    if offset > |content| then []
    else
      var todo := Reader.Lines(content[offset..], offset);
      D.Events(decode, path, if n <= |todo| then todo[..n] else todo)
  }

  /** The working copies of a pass, with their histories, and its records. */
  datatype Gathered = Gathered(working: map<Id, D.Entry>, read: map<Id, History>, records: seq<D.Sent>)

  function Collect(decode: D.Decode, w: World, plan: seq<D.Read>): Gathered {
    if plan == [] then Gathered(map[], map[], [])
    else
      var g, last := Collect(decode, w, plan[..|plan| - 1]), plan[|plan| - 1];
      var path, start := last.path, Start(decode, w, last.path);
      if start == None || path in g.working then g
      else
        var a := D.Advance(decode, path, w.contents[path], start.value, last.lines);
        var events := ReadEvents(decode, path, w.contents[path], start.value.offset, last.lines);
        Gathered(g.working[path := a.entry], g.read[path := PastOf(w.past, path) + events], g.records + a.records)
  }

  /** What is posted and settled on the way, before anything is committed. */
  function Told(w: World, g: Gathered, posted: nat, settled: nat): World {
    var all := D.Min(posted, |g.records|);
    w.(sent := w.sent + D.Elements(g.records[..all]),
       settled := w.settled + D.Elements(g.records[..D.Min(settled, all)]),
       stories := w.stories + set path | path in g.read :: Story(path, g.read[path]))
  }

  function Pruned(files: map<Id, D.Entry>, cutoff: int): map<Id, D.Entry> {
    map path | path in files :: D.Entry(files[path].offset, Codex.Prune(files[path].p, cutoff))
  }

  /** Every tracked file's history has one more pruning. */
  function PrunedPast(w: World, cutoff: int): map<Id, History> {
    w.past + map path | path in w.files :: PastOf(w.past, path) + [Codex.Pruned(cutoff)]
  }

  /** The files a pruning forgets: not written for a day, fully read, and idle once pruned. */
  function Forgotten(w: World, cutoff: int, quiet: set<Id>): set<Id> {
    set path | path in w.files && path in quiet && path in w.contents
               && w.files[path].offset == |w.contents[path]| && Codex.Idle(Codex.Prune(w.files[path].p, cutoff))
  }

  function Tombs(w: World, gone: set<Id>): map<Id, nat> {
    map path | path in gone && path in w.files :: w.files[path].offset
  }

  function Saved(w: World): World {
    w.(disk := w.files, diskIdle := w.idle, diskPast := w.past)
  }

  function Committed(w: World, g: Gathered): World {
    w.(files := w.files + g.working, idle := w.idle - g.working.Keys, past := w.past + g.read)
  }

  /** Deliver what was collected, and commit and save only once all of it is settled. */
  function Passed(w: World, g: Gathered, posted: nat, settled: nat, alive: bool, saved: bool): World {
    var told := Told(w, g, posted, settled);
    if D.Min(settled, D.Min(posted, |g.records|)) < |g.records| || !alive || g.working == map[] then told
    else if saved then Saved(Committed(told, g))
    else Committed(told, g)
  }

  /** Every parser pruned, and the given files forgotten. */
  function Forget(w: World, cutoff: int, gone: set<Id>): World {
    w.(files := Pruned(w.files, cutoff) - gone, idle := w.idle + Tombs(w, gone), past := PrunedPast(w, cutoff))
  }

  function Apply(decode: D.Decode, w: World, a: Action): World {
    match a
    case Grow(path, bytes) =>
      if path in w.contents then w.(contents := w.contents[path := w.contents[path] + bytes]) else w
    case Pass(plan, posted, settled, alive, saved) =>
      Passed(w, Collect(decode, w, plan), posted, settled, alive, saved)
    case Prune(cutoff, quiet, saved) =>
      var t := Forget(w, cutoff, Forgotten(w, cutoff, quiet));
      if saved then Saved(t) else t
    case Save => Saved(w)
    case Restart => w.(files := w.disk, idle := w.diskIdle, past := w.diskPast)
  }

  function Run(decode: D.Decode, w: World, actions: seq<Action>): World
    decreases |actions|
  {
    if actions == [] then w else Run(decode, Apply(decode, w, actions[0]), actions[1..])
  }

  predicate Initial(w: World) {
    && (forall path :: path in w.files ==> path in w.contents && w.files[path] == D.Entry(0, Codex.FRESH))
    && w.past == (map path | path in w.files :: []) && w.idle == map[]
    && w.disk == w.files && w.diskIdle == w.idle && w.diskPast == w.past
    && w.sent == {} && w.settled == {} && w.stories == {}
  }

  // ---- histories ----

  /** The lines of a history. */
  function LinesIn(h: History): History {
    if h == [] then []
    else LinesIn(h[..|h| - 1]) + if h[|h| - 1].Line? then [h[|h| - 1]] else []
  }

  /** The history has read exactly the first lines of the file, as many as it has. */
  predicate Explains(decode: D.Decode, path: Id, content: D.Bytes, h: History) {
    var k := |LinesIn(h)|;
    k <= |D.FileLines(content)| && LinesIn(h) == D.Events(decode, path, D.FileLines(content)[..k])
  }

  /** Where a history leads: behind the last line it read, with the parser it makes. */
  function LedTo(content: D.Bytes, h: History): D.Entry
    requires |LinesIn(h)| <= |D.FileLines(content)|
  {
    D.Entry(Reader.EndOf(D.FileLines(content)[..|LinesIn(h)|], 0), Codex.Fold(Codex.FRESH, h).p)
  }

  function RecordsIn(path: Id, h: History): seq<D.Sent> {
    D.Kept(path, Codex.Fold(Codex.FRESH, h).out)
  }

  /** The entry is where its history leads, and all records of the history are settled. */
  ghost predicate Covered(decode: D.Decode, path: Id, content: D.Bytes, h: History, e: D.Entry, settled: set<D.Sent>) {
    && Explains(decode, path, content, h) && e == LedTo(content, h)
    && forall s :: s in RecordsIn(path, h) ==> s in settled
  }

  ghost predicate AllCovered(decode: D.Decode, contents: map<Id, D.Bytes>, past: map<Id, History>,
                             files: map<Id, D.Entry>, settled: set<D.Sent>)
  {
    forall path :: path in files ==>
      path in contents && path in past && Covered(decode, path, contents[path], past[path], files[path], settled)
  }

  /** A tombstone is as good as the entry it was: what it resumes with is covered. */
  ghost predicate AllResumable(decode: D.Decode, contents: map<Id, D.Bytes>, past: map<Id, History>,
                               idle: map<Id, nat>, settled: set<D.Sent>)
  {
    forall path :: path in idle ==>
      && path in contents && path in past
      && Covered(decode, path, contents[path], past[path], Resumed(decode, path, contents[path], idle[path]), settled)
  }

  ghost predicate Kept(decode: D.Decode, contents: map<Id, D.Bytes>, past: map<Id, History>,
                       files: map<Id, D.Entry>, idle: map<Id, nat>, settled: set<D.Sent>)
  {
    && AllCovered(decode, contents, past, files, settled) && AllResumable(decode, contents, past, idle, settled)
    && forall path :: path in idle ==> path !in files
  }

  /** The record comes from a history that a pass went through. */
  ghost predicate Genuine(stories: set<Story>, s: D.Sent) {
    exists h :: Story(s.path, h) in stories && s in RecordsIn(s.path, h)
  }

  ghost predicate AllExplained(decode: D.Decode, contents: map<Id, D.Bytes>, stories: set<Story>) {
    forall t :: t in stories ==> t.path in contents && Explains(decode, t.path, contents[t.path], t.history)
  }

  ghost predicate Invariant(decode: D.Decode, w: World) {
    && Kept(decode, w.contents, w.past, w.files, w.idle, w.settled)
    && Kept(decode, w.contents, w.diskPast, w.disk, w.diskIdle, w.settled)
    && AllExplained(decode, w.contents, w.stories)
    && (forall s :: s in w.sent ==> Genuine(w.stories, s)) && w.settled <= w.sent
  }

  lemma LinesInSnoc(h: History, e: Codex.Event)
    ensures LinesIn(h + [e]) == LinesIn(h) + if e.Line? then [e] else []
  {
    assert (h + [e])[..|h|] == h;
  }

  lemma {:induction false} LinesInConcat(h: History, lines: History)
    requires forall i :: 0 <= i < |lines| ==> lines[i].Line?
    ensures LinesIn(h + lines) == LinesIn(h) + lines
    decreases |lines|
  {
    if lines == [] {
      assert h + lines == h;
    } else {
      var fewer, last := lines[..|lines| - 1], lines[|lines| - 1];
      LinesInConcat(h, fewer);
      assert h + lines == (h + fewer) + [last];
      LinesInSnoc(h + fewer, last);
      assert LinesIn(h) + fewer + [last] == LinesIn(h) + lines;
    }
  }

  // ---- reading on ----

  /** The line at which a reading of up to n lines after line k stops. */
  function LineAfter(content: D.Bytes, k: nat, n: nat): nat
    requires k <= |D.FileLines(content)|
  {
    if k + n <= |D.FileLines(content)| then k + n else |D.FileLines(content)|
  }

  lemma TodoIsNext(content: D.Bytes, k: nat, n: nat)
    requires k <= |D.FileLines(content)|
    ensures var offset := Reader.EndOf(D.FileLines(content)[..k], 0);
            && offset <= |content|
            && var todo := Reader.Lines(content[offset..], offset);
               (if n <= |todo| then todo[..n] else todo) == D.FileLines(content)[k..LineAfter(content, k, n)]
  {
    D.LinesLeft(content, k);
    var todo := D.FileLines(content)[k..];
    assert (if n <= |todo| then todo[..n] else todo) == D.FileLines(content)[k..LineAfter(content, k, n)];
  }

  /** What a reading from the end of line k feeds to the parser: the next lines of the file. */
  lemma ReadsNext(decode: D.Decode, path: Id, content: D.Bytes, k: nat, n: nat)
    requires k <= |D.FileLines(content)|
    ensures ReadEvents(decode, path, content, Reader.EndOf(D.FileLines(content)[..k], 0), n)
            == D.Events(decode, path, D.FileLines(content)[k..LineAfter(content, k, n)])
  {
    TodoIsNext(content, k, n);
  }

  lemma AdvanceReads(decode: D.Decode, path: Id, content: D.Bytes, k: nat, p: Codex.Parser, n: nat)
    requires k <= |D.FileLines(content)|
    ensures var lines, to := D.FileLines(content), LineAfter(content, k, n);
            var f := Codex.Fold(p, D.Events(decode, path, lines[k..to]));
            D.Advance(decode, path, content, D.Entry(Reader.EndOf(lines[..k], 0), p), n)
            == D.Progress(D.Entry(Reader.EndOf(lines[..to], 0), f.p), D.Kept(path, f.out))
  {
    TodoIsNext(content, k, n);
    D.EndOfMore(D.FileLines(content), k, LineAfter(content, k, n));
  }

  lemma ExplainsMore(decode: D.Decode, path: Id, content: D.Bytes, h: History, to: nat)
    requires Explains(decode, path, content, h) && |LinesIn(h)| <= to <= |D.FileLines(content)|
    ensures var longer := h + D.Events(decode, path, D.FileLines(content)[|LinesIn(h)|..to]);
            Explains(decode, path, content, longer) && |LinesIn(longer)| == to
  {
    var lines, k := D.FileLines(content), |LinesIn(h)|;
    LinesInConcat(h, D.Events(decode, path, lines[k..to]));
    D.EventsConcat(decode, path, lines[..k], lines[k..to]);
    assert lines[..k] + lines[k..to] == lines[..to];
  }

  lemma FoldsMore(path: Id, h: History, events: History)
    ensures var f := Codex.Fold(Codex.FRESH, h);
            && Codex.Fold(Codex.FRESH, h + events).p == Codex.Fold(f.p, events).p
            && RecordsIn(path, h + events) == RecordsIn(path, h) + D.Kept(path, Codex.Fold(f.p, events).out)
  {
    var f := Codex.Fold(Codex.FRESH, h);
    Proofs.FoldConcat(Codex.FRESH, h, events);
    D.KeptConcat(path, f.out, Codex.Fold(f.p, events).out);
  }

  /** Reading on lengthens the history by the lines read, and leads where the longer history leads. */
  lemma AdvanceExtends(decode: D.Decode, path: Id, content: D.Bytes, h: History, n: nat)
    requires Explains(decode, path, content, h)
    ensures var longer := h + ReadEvents(decode, path, content, LedTo(content, h).offset, n);
            var a := D.Advance(decode, path, content, LedTo(content, h), n);
            && Explains(decode, path, content, longer) && a.entry == LedTo(content, longer)
            && RecordsIn(path, longer) == RecordsIn(path, h) + a.records
  {
    var k := |LinesIn(h)|;
    ReadsNext(decode, path, content, k, n);
    AdvanceReads(decode, path, content, k, Codex.Fold(Codex.FRESH, h).p, n);
    ExplainsMore(decode, path, content, h, LineAfter(content, k, n));
    FoldsMore(path, h, ReadEvents(decode, path, content, LedTo(content, h).offset, n));
  }

  lemma AdvanceCovered(decode: D.Decode, path: Id, content: D.Bytes, h: History, e: D.Entry, n: nat,
                       settled: set<D.Sent>)
    requires Covered(decode, path, content, h, e, settled)
    ensures var a := D.Advance(decode, path, content, e, n);
            var longer := h + ReadEvents(decode, path, content, e.offset, n);
            && Covered(decode, path, content, longer, a.entry, settled + D.Elements(a.records))
            && (forall s :: s in a.records ==> s.path == path && s in RecordsIn(path, longer))
  {
    AdvanceExtends(decode, path, content, h, n);
    var longer := h + ReadEvents(decode, path, content, e.offset, n);
    D.KeptPath(path, Codex.Fold(Codex.FRESH, longer).out);
  }

  lemma KeptMore(decode: D.Decode, contents: map<Id, D.Bytes>, past: map<Id, History>, files: map<Id, D.Entry>,
                 idle: map<Id, nat>, settled: set<D.Sent>, more: set<D.Sent>)
    requires Kept(decode, contents, past, files, idle, settled) && settled <= more
    ensures Kept(decode, contents, past, files, idle, more)
  {
  }

  /** A file a pass opens is covered by its history. */
  lemma StartCovered(decode: D.Decode, w: World, path: Id)
    requires Kept(decode, w.contents, w.past, w.files, w.idle, w.settled) && Start(decode, w, path).Some?
    ensures path in w.past
    ensures Covered(decode, path, w.contents[path], w.past[path], Start(decode, w, path).value, w.settled)
  {
  }

  ghost predicate Gathers(decode: D.Decode, w: World, g: Gathered) {
    && g.read.Keys == g.working.Keys
    && AllCovered(decode, w.contents, g.read, g.working, w.settled + D.Elements(g.records))
    && (forall s :: s in g.records ==> s.path in g.read && s in RecordsIn(s.path, g.read[s.path]))
  }

  /** What a pass collects is covered once its records are settled, from entries and tombstones alike. */
  lemma {:induction false} CollectCovered(decode: D.Decode, w: World, plan: seq<D.Read>)
    requires Kept(decode, w.contents, w.past, w.files, w.idle, w.settled)
    ensures Gathers(decode, w, Collect(decode, w, plan))
  {
    if plan != [] {
      var before, last := plan[..|plan| - 1], plan[|plan| - 1];
      CollectCovered(decode, w, before);
      var g, start := Collect(decode, w, before), Start(decode, w, last.path);
      if start.Some? && last.path !in g.working {
        StartCovered(decode, w, last.path);
        AdvanceCovered(decode, last.path, w.contents[last.path], w.past[last.path], start.value, last.lines, w.settled);
      }
    }
  }

  lemma ToldKeeps(decode: D.Decode, w: World, g: Gathered, posted: nat, settled: nat)
    requires Invariant(decode, w) && Gathers(decode, w, g)
    ensures Invariant(decode, Told(w, g, posted, settled))
  {
    var t := Told(w, g, posted, settled);
    KeptMore(decode, w.contents, w.past, w.files, w.idle, w.settled, t.settled);
    KeptMore(decode, w.contents, w.diskPast, w.disk, w.diskIdle, w.settled, t.settled);
    forall s | s in t.sent ensures Genuine(t.stories, s) {
      if s in w.sent {
        var h :| Story(s.path, h) in w.stories && s in RecordsIn(s.path, h);
        assert Story(s.path, h) in t.stories;
      } else {
        assert Story(s.path, g.read[s.path]) in t.stories;
      }
    }
  }

  lemma CommitKept(decode: D.Decode, w: World, g: Gathered, settled: set<D.Sent>)
    requires Kept(decode, w.contents, w.past, w.files, w.idle, settled)
    requires g.read.Keys == g.working.Keys && AllCovered(decode, w.contents, g.read, g.working, settled)
    ensures Kept(decode, w.contents, w.past + g.read, w.files + g.working, w.idle - g.working.Keys, settled)
  {
  }

  lemma CommittedKeeps(decode: D.Decode, w: World, g: Gathered)
    requires Invariant(decode, w)
    requires g.read.Keys == g.working.Keys && AllCovered(decode, w.contents, g.read, g.working, w.settled)
    ensures Invariant(decode, Committed(w, g)) && Invariant(decode, Saved(Committed(w, g)))
  {
    CommitKept(decode, w, g, w.settled);
  }

  lemma PassKeeps(decode: D.Decode, w: World, a: Action)
    requires Invariant(decode, w) && a.Pass?
    ensures Invariant(decode, Apply(decode, w, a))
  {
    var g := Collect(decode, w, a.plan);
    CollectCovered(decode, w, a.plan);
    ToldKeeps(decode, w, g, a.posted, a.settled);
    if D.Min(a.settled, D.Min(a.posted, |g.records|)) == |g.records| {
      assert g.records[..|g.records|] == g.records;
      CommittedKeeps(decode, Told(w, g, a.posted, a.settled), g);
    }
  }

  // ---- growing ----

  lemma GrowExplains(decode: D.Decode, path: Id, content: D.Bytes, more: D.Bytes, h: History)
    requires Explains(decode, path, content, h)
    ensures Explains(decode, path, content + more, h) && LedTo(content + more, h) == LedTo(content, h)
  {
    Reader.LinesGrow(content, more, 0);
    var k := |LinesIn(h)|;
    assert D.FileLines(content + more)[..k] == D.FileLines(content)[..k];
  }

  lemma FirstStays(decode: D.Decode, path: Id, content: D.Bytes, more: D.Bytes)
    requires D.FileLines(content) != []
    ensures FirstEvent(decode, path, content + more) == FirstEvent(decode, path, content)
  {
    Reader.LinesGrow(content, more, 0);
  }

  /** A covered entry past the beginning has read a line, so what it resumes with does not change as the file grows. */
  lemma ResumedStays(decode: D.Decode, path: Id, content: D.Bytes, more: D.Bytes, h: History, offset: nat,
                     settled: set<D.Sent>)
    requires Covered(decode, path, content, h, Resumed(decode, path, content, offset), settled)
    ensures Resumed(decode, path, content + more, offset) == Resumed(decode, path, content, offset)
  {
    if offset > 0 {
      assert D.FileLines(content) != [];
      FirstStays(decode, path, content, more);
    }
  }

  lemma GrowKept(decode: D.Decode, w: World, path: Id, bytes: D.Bytes, past: map<Id, History>, files: map<Id, D.Entry>,
                 idle: map<Id, nat>)
    requires path in w.contents && Kept(decode, w.contents, past, files, idle, w.settled)
    ensures Kept(decode, w.contents[path := w.contents[path] + bytes], past, files, idle, w.settled)
  {
    var content := w.contents[path];
    if path in files {
      GrowExplains(decode, path, content, bytes, past[path]);
    }
    if path in idle {
      GrowExplains(decode, path, content, bytes, past[path]);
      ResumedStays(decode, path, content, bytes, past[path], idle[path], w.settled);
    }
  }

  lemma GrowKeeps(decode: D.Decode, w: World, path: Id, bytes: D.Bytes)
    requires Invariant(decode, w) && path in w.contents
    ensures Invariant(decode, Apply(decode, w, Grow(path, bytes)))
  {
    var t := Apply(decode, w, Grow(path, bytes));
    GrowKept(decode, w, path, bytes, w.past, w.files, w.idle);
    GrowKept(decode, w, path, bytes, w.diskPast, w.disk, w.diskIdle);
    forall story | story in w.stories ensures Explains(decode, story.path, t.contents[story.path], story.history) {
      if story.path == path {
        GrowExplains(decode, path, w.contents[path], bytes, story.history);
      }
    }
  }

  // ---- pruning and forgetting ----

  /** A pruning is one more event of the history: no line, no record, and the pruned parser. */
  lemma PruneFolds(h: History, cutoff: int)
    ensures var f, longer := Codex.Fold(Codex.FRESH, h), h + [Codex.Pruned(cutoff)];
            && LinesIn(longer) == LinesIn(h)
            && Codex.Fold(Codex.FRESH, longer) == Codex.Parsed(Codex.Prune(f.p, cutoff), f.out)
  {
    LinesInSnoc(h, Codex.Pruned(cutoff));
    Proofs.FoldSnoc(Codex.FRESH, h, Codex.Pruned(cutoff));
    var f := Codex.Fold(Codex.FRESH, h);
    assert f.out + [] == f.out && LinesIn(h) + [] == LinesIn(h);
  }

  lemma PrunedCovered(decode: D.Decode, w: World, cutoff: int)
    requires AllCovered(decode, w.contents, w.past, w.files, w.settled)
    ensures AllCovered(decode, w.contents, PrunedPast(w, cutoff), Pruned(w.files, cutoff), w.settled)
  {
    forall path | path in w.files
      ensures Covered(decode, path, w.contents[path], PrunedPast(w, cutoff)[path], Pruned(w.files, cutoff)[path],
                      w.settled)
    {
      PruneFolds(w.past[path], cutoff);
    }
  }

  /** The file's session header is its first line, or it has none. */
  predicate TransparentFile(decode: D.Decode, content: D.Bytes) {
    var lines := D.FileLines(content);
    (lines != [] && decode(lines[0]).SessionMeta?) || forall i :: 0 <= i < |lines| ==> !decode(lines[i]).SessionMeta?
  }

  /** First line and first header of a history are those of its lines. */
  lemma {:induction false} FirstsInLines(h: History)
    ensures FirstLine(h) == if LinesIn(h) == [] then None else Some(LinesIn(h)[0])
    ensures (FirstMeta(h) == None <==> forall i :: 0 <= i < |LinesIn(h)| ==> !IsMeta(LinesIn(h)[i]))
  {
    if h != [] {
      var before, last := h[..|h| - 1], h[|h| - 1];
      FirstsInLines(before);
      if last.Line? {
        assert LinesIn(h)[|LinesIn(before)|] == last;
        assert forall i :: 0 <= i < |LinesIn(before)| ==> LinesIn(h)[i] == LinesIn(before)[i];
      } else {
        assert LinesIn(h) == LinesIn(before);
      }
    }
  }

  lemma HistoryIsTransparent(decode: D.Decode, path: Id, content: D.Bytes, h: History)
    requires Explains(decode, path, content, h) && TransparentFile(decode, content)
    ensures Transparent(h)
    ensures FirstLine(h) == if LinesIn(h) == [] then None else FirstEvent(decode, path, content)
  {
    FirstsInLines(h);
    var lines, events := D.FileLines(content), LinesIn(h);
    assert forall i :: 0 <= i < |events| ==>
        events[i] == Codex.Line(decode(lines[i]), Codex.Place(path, lines[i].start));
  }

  /** Forgetting an idle, transparent file loses nothing: its tombstone resumes with the very entry it had. */
  lemma ForgetCovered(decode: D.Decode, path: Id, content: D.Bytes, h: History, e: D.Entry, settled: set<D.Sent>)
    requires Covered(decode, path, content, h, e, settled) && Codex.Idle(e.p) && TransparentFile(decode, content)
    ensures Resumed(decode, path, content, e.offset) == e
  {
    var k := |LinesIn(h)|;
    HistoryIsTransparent(decode, path, content, h);
    SeedRestores(h);
    if k > 0 {
      EndsPast(content, k);
    }
  }

  /** The end of any line lies behind the beginning of the file. */
  lemma EndsPast(content: D.Bytes, k: nat)
    requires 0 < k <= |D.FileLines(content)|
    ensures Reader.EndOf(D.FileLines(content)[..k], 0) > 0
  {
    Reader.LinesResume(content, 0, k - 1);
  }

  /** Every file the pruning forgets is transparent at that moment. */
  predicate ForgetsTransparently(decode: D.Decode, w: World, a: Action) {
    a.Prune? ==> forall path :: path in Forgotten(w, a.cutoff, a.quiet) ==> TransparentFile(decode, w.contents[path])
  }

  /** What a forgotten file resumes with is the entry it had when it was forgotten. */
  lemma ForgottenResumes(decode: D.Decode, w: World, a: Action, path: Id)
    requires AllCovered(decode, w.contents, w.past, w.files, w.settled) && a.Prune?
             && ForgetsTransparently(decode, w, a)
    requires path in Forgotten(w, a.cutoff, a.quiet)
    ensures Resumed(decode, path, w.contents[path], w.files[path].offset) == Pruned(w.files, a.cutoff)[path]
  {
    PrunedCovered(decode, w, a.cutoff);
    ForgetCovered(decode, path, w.contents[path], PrunedPast(w, a.cutoff)[path], Pruned(w.files, a.cutoff)[path],
                  w.settled);
  }

  lemma TombsResumable(decode: D.Decode, w: World, a: Action)
    requires Kept(decode, w.contents, w.past, w.files, w.idle, w.settled) && a.Prune?
    requires ForgetsTransparently(decode, w, a)
    ensures AllResumable(decode, w.contents, PrunedPast(w, a.cutoff), Tombs(w, Forgotten(w, a.cutoff, a.quiet)),
                         w.settled)
  {
    PrunedCovered(decode, w, a.cutoff);
    forall path | path in Forgotten(w, a.cutoff, a.quiet)
      ensures Resumed(decode, path, w.contents[path], w.files[path].offset) == Pruned(w.files, a.cutoff)[path]
    {
      ForgottenResumes(decode, w, a, path);
    }
  }

  /** A pruning does not touch the histories of files forgotten before. */
  lemma IdleResumable(decode: D.Decode, w: World, cutoff: int)
    requires Kept(decode, w.contents, w.past, w.files, w.idle, w.settled)
    ensures AllResumable(decode, w.contents, PrunedPast(w, cutoff), w.idle, w.settled)
  {
    assert forall path :: path in w.idle ==> PrunedPast(w, cutoff)[path] == w.past[path];
  }

  lemma BothResumable(decode: D.Decode, contents: map<Id, D.Bytes>, past: map<Id, History>, idle: map<Id, nat>,
                      tombs: map<Id, nat>, settled: set<D.Sent>)
    requires AllResumable(decode, contents, past, idle, settled) && AllResumable(decode, contents, past, tombs, settled)
    ensures AllResumable(decode, contents, past, idle + tombs, settled)
  {
  }

  lemma PruneKeeps(decode: D.Decode, w: World, a: Action)
    requires Invariant(decode, w) && a.Prune? && ForgetsTransparently(decode, w, a)
    ensures Invariant(decode, Apply(decode, w, a))
  {
    PruneKept(decode, w, a);
  }

  lemma PruneKept(decode: D.Decode, w: World, a: Action)
    requires Kept(decode, w.contents, w.past, w.files, w.idle, w.settled) && a.Prune?
             && ForgetsTransparently(decode, w, a)
    ensures var gone := Forgotten(w, a.cutoff, a.quiet);
            Kept(decode, w.contents, PrunedPast(w, a.cutoff), Pruned(w.files, a.cutoff) - gone,
                 w.idle + Tombs(w, gone), w.settled)
  {
    PrunedCovered(decode, w, a.cutoff);
    TombsResumable(decode, w, a);
    IdleResumable(decode, w, a.cutoff);
    BothResumable(decode, w.contents, PrunedPast(w, a.cutoff), w.idle, Tombs(w, Forgotten(w, a.cutoff, a.quiet)),
                  w.settled);
    FewerCovered(decode, w.contents, PrunedPast(w, a.cutoff), Pruned(w.files, a.cutoff), w.settled,
                 Forgotten(w, a.cutoff, a.quiet));
  }

  lemma FewerCovered(decode: D.Decode, contents: map<Id, D.Bytes>, past: map<Id, History>, files: map<Id, D.Entry>,
                     settled: set<D.Sent>, gone: set<Id>)
    requires AllCovered(decode, contents, past, files, settled)
    ensures AllCovered(decode, contents, past, files - gone, settled)
  {
  }

  // ---- every run ----

  predicate Transparently(decode: D.Decode, w: World, actions: seq<Action>)
    decreases |actions|
  {
    actions == []
    || (&& ForgetsTransparently(decode, w, actions[0])
        && Transparently(decode, Apply(decode, w, actions[0]), actions[1..]))
  }

  lemma ApplyKeeps(decode: D.Decode, w: World, a: Action)
    requires Invariant(decode, w) && ForgetsTransparently(decode, w, a)
    ensures Invariant(decode, Apply(decode, w, a))
  {
    match a
    case Grow(path, bytes) =>
      if path in w.contents {
        GrowKeeps(decode, w, path, bytes);
      }
    case Pass(_, _, _, _, _) => PassKeeps(decode, w, a);
    case Prune(_, _, _) => PruneKeeps(decode, w, a);
    case Save =>
    case Restart =>
  }

  lemma {:induction false} RunKeeps(decode: D.Decode, w: World, actions: seq<Action>)
    requires Invariant(decode, w) && Transparently(decode, w, actions)
    ensures Invariant(decode, Run(decode, w, actions))
    decreases |actions|
  {
    if actions != [] {
      ApplyKeeps(decode, w, actions[0]);
      RunKeeps(decode, Apply(decode, w, actions[0]), actions[1..]);
    }
  }

  lemma InitialInvariant(decode: D.Decode, w: World)
    requires Initial(w)
    ensures Invariant(decode, w)
  {
    forall path | path in w.files ensures Covered(decode, path, w.contents[path], w.past[path], w.files[path],
                                                  w.settled) {
      assert D.FileLines(w.contents[path])[..0] == [] && D.Events(decode, path, []) == [];
    }
  }

  /**
    Over any growth, passes, delivery failures, saves, prunings, forgettings of transparent files and
    restarts: every committed entry, and every tombstone as it would be resumed, is where its own
    history leads, whose lines are exactly the lines before its offset and whose records were all
    accepted or finally refused; and every record ever posted comes from a history a pass went through.
  */
  lemma NothingLostThroughForgetting(decode: D.Decode, w: World, actions: seq<Action>)
    requires Initial(w) && Transparently(decode, w, actions)
    ensures Invariant(decode, Run(decode, w, actions))
  {
    InitialInvariant(decode, w);
    RunKeeps(decode, w, actions);
  }

  // ---- the prunings of a history happened ----

  function Cutoffs(actions: seq<Action>): set<int> {
    if actions == [] then {} else (if actions[0].Prune? then {actions[0].cutoff} else {}) + Cutoffs(actions[1..])
  }

  predicate PrunedBy(h: History, log: set<int>) {
    forall i :: 0 <= i < |h| && h[i].Pruned? ==> h[i].cutoff in log
  }

  predicate AllPrunedBy(past: map<Id, History>, log: set<int>) {
    forall path :: path in past ==> PrunedBy(past[path], log)
  }

  /** No history has a pruning that is not in the log. */
  ghost predicate Logged(w: World, log: set<int>) {
    AllPrunedBy(w.past, log) && AllPrunedBy(w.diskPast, log) && forall t :: t in w.stories ==> PrunedBy(t.history, log)
  }

  lemma {:induction false} CollectLogged(decode: D.Decode, w: World, plan: seq<D.Read>, log: set<int>)
    requires AllPrunedBy(w.past, log)
    ensures AllPrunedBy(Collect(decode, w, plan).read, log)
  {
    if plan != [] {
      CollectLogged(decode, w, plan[..|plan| - 1], log);
    }
  }

  lemma StepLogged(decode: D.Decode, w: World, a: Action, log: set<int>)
    requires Logged(w, log) && (a.Prune? ==> a.cutoff in log)
    ensures Logged(Apply(decode, w, a), log)
  {
    match a
    case Pass(plan, posted, settled, _, _) =>
      CollectLogged(decode, w, plan, log);
      ReadLogged(w, Collect(decode, w, plan), posted, settled, log);
    case Prune(cutoff, _, _) => PrunedPastLogged(w, cutoff, log);
    case _ =>
  }

  lemma ReadLogged(w: World, g: Gathered, posted: nat, settled: nat, log: set<int>)
    requires Logged(w, log) && AllPrunedBy(g.read, log)
    ensures Logged(Told(w, g, posted, settled), log) && AllPrunedBy(w.past + g.read, log)
  {
  }

  lemma PrunedPastLogged(w: World, cutoff: int, log: set<int>)
    requires AllPrunedBy(w.past, log) && cutoff in log
    ensures AllPrunedBy(PrunedPast(w, cutoff), log)
  {
  }

  lemma {:induction false} RunLogged(decode: D.Decode, w: World, actions: seq<Action>, log: set<int>)
    requires Logged(w, log) && Cutoffs(actions) <= log
    ensures Logged(Run(decode, w, actions), log)
    decreases |actions|
  {
    if actions != [] {
      StepLogged(decode, w, actions[0], log);
      RunLogged(decode, Apply(decode, w, actions[0]), actions[1..], log);
    }
  }

  /** Every pruning in any history, committed or posted from, is one that the run made. */
  lemma PruningsHappened(decode: D.Decode, w: World, actions: seq<Action>)
    requires Initial(w)
    ensures Logged(Run(decode, w, actions), Cutoffs(actions))
  {
    RunLogged(decode, w, actions, Cutoffs(actions));
  }

  lemma {:induction false} OnlyLines(h: History)
    requires PrunedBy(h, {})
    ensures LinesIn(h) == h
  {
    if h != [] {
      OnlyLines(h[..|h| - 1]);
    }
  }

  /** Without prunings a history is the file's lines, so it leads where `Delivery` says. */
  lemma UnprunedIsFold(decode: D.Decode, path: Id, content: D.Bytes, h: History)
    requires Explains(decode, path, content, h) && PrunedBy(h, {})
    ensures LedTo(content, h) == D.EntryAt(decode, path, content, |LinesIn(h)|)
    ensures RecordsIn(path, h) == D.RecordsOf(decode, path, content, |LinesIn(h)|)
  {
    OnlyLines(h);
  }

  lemma UnprunedCovered(decode: D.Decode, contents: map<Id, D.Bytes>, past: map<Id, History>, files: map<Id, D.Entry>,
                        settled: set<D.Sent>)
    requires AllCovered(decode, contents, past, files, settled) && AllPrunedBy(past, {})
    ensures D.AllCovered(decode, contents, files, settled)
  {
    forall path | path in files ensures D.Covered(decode, path, contents[path], files[path], settled) {
      UnprunedIsFold(decode, path, contents[path], past[path]);
      assert D.CoveredAt(decode, path, contents[path], files[path], settled, |LinesIn(past[path])|);
    }
  }

  /** On a run without prunings this is what `Delivery` promises: folds over exactly the lines before the offset. */
  lemma UnprunedIsDelivery(decode: D.Decode, w: World, actions: seq<Action>)
    requires Initial(w) && Transparently(decode, w, actions) && Cutoffs(actions) == {}
    ensures var t := Run(decode, w, actions);
            D.Invariant(decode, D.World(t.contents, t.files, t.disk, t.sent, t.settled))
  {
    var t := Run(decode, w, actions);
    NothingLostThroughForgetting(decode, w, actions);
    PruningsHappened(decode, w, actions);
    UnprunedCovered(decode, t.contents, t.past, t.files, t.settled);
    UnprunedCovered(decode, t.contents, t.diskPast, t.disk, t.settled);
    forall s | s in t.sent ensures D.Genuine(decode, t.contents, s) {
      var h :| Story(s.path, h) in t.stories && s in RecordsIn(s.path, h);
      var content, k := t.contents[s.path], |LinesIn(h)|;
      assert Story(s.path, h).history == h;
      UnprunedIsFold(decode, s.path, content, h);
      D.RecordsGrow(decode, s.path, content, k, |D.FileLines(content)|);
    }
  }
}
