/**
  Collect, deliver, then commit (dashboard/provisioner/hivra-agent-trace.py, `Tracker.collect`,
  `_read`, `commit`, `Reporter.step`, `_deliver`, `_save_state`) over Codex transcripts that only
  grow. What a line decodes to is a fixed function of the line: the set of lines that are skipped
  instead of parsed does not change on the way.
*/
module Delivery {
  import opened Common
  import opened TraceRecord
  import Codex = CodexParser
  import Proofs = CodexProofs
  import Reader = LineReader

  type Decode = Reader.Line -> Codex.Record
  type Bytes = seq<Reader.byte>

  /** The committed state of one file: where reading goes on, and the parser at that point. */
  datatype Entry = Entry(offset: nat, p: Codex.Parser)
  datatype Sent = Sent(path: Id, rec: Rec)

  function Events(decode: Decode, path: Id, lines: seq<Reader.Line>): seq<Codex.Event> {
    seq(|lines|, i requires 0 <= i < |lines| => Codex.Line(decode(lines[i]), Codex.Place(path, lines[i].start)))
  }

  /** The records a fold sends: those with a time. */
  function Kept(path: Id, out: seq<Rec>): seq<Sent> {
    if out == [] then []
    else
      var last := out[|out| - 1];
      Kept(path, out[..|out| - 1]) + if last.at.Some? then [Sent(path, last)] else []
  }

  function FileLines(content: Bytes): seq<Reader.Line> {
    Reader.Lines(content, 0)
  }

  /** The fold of the line parser over the first k lines of a file. */
  function FoldOf(decode: Decode, path: Id, content: Bytes, k: nat): Codex.Parsed
    requires k <= |FileLines(content)|
  {
    Codex.Fold(Codex.FRESH, Events(decode, path, FileLines(content)[..k]))
  }

  function EntryAt(decode: Decode, path: Id, content: Bytes, k: nat): Entry
    requires k <= |FileLines(content)|
  {
    Entry(Reader.EndOf(FileLines(content)[..k], 0), FoldOf(decode, path, content, k).p)
  }

  function RecordsOf(decode: Decode, path: Id, content: Bytes, k: nat): seq<Sent>
    requires k <= |FileLines(content)|
  {
    Kept(path, FoldOf(decode, path, content, k).out)
  }

  // ---- one file ----

  datatype Progress = Progress(entry: Entry, records: seq<Sent>)

  /** Reading up to n more complete lines from an entry's own offset and parser. */
  function Advance(decode: Decode, path: Id, content: Bytes, e: Entry, n: nat): Progress {
    if e.offset > |content| then Progress(e, [])
    else
      var todo := Reader.Lines(content[e.offset..], e.offset);
      var lines := if n <= |todo| then todo[..n] else todo;
      var f := Codex.Fold(e.p, Events(decode, path, lines));
      Progress(Entry(Reader.EndOf(lines, e.offset), f.p), Kept(path, f.out))
  }

  lemma {:induction false} KeptConcat(path: Id, a: seq<Rec>, b: seq<Rec>)
    ensures Kept(path, a + b) == Kept(path, a) + Kept(path, b)
    decreases |b|
  {
    if b == [] {
      assert a + b == a;
    } else {
      assert (a + b)[..|a + b| - 1] == a + b[..|b| - 1];
      KeptConcat(path, a, b[..|b| - 1]);
    }
  }

  /** Exactly the records with a time are sent, in order: `at` says which of the fold's records each one is. */
  lemma {:induction false} KeptAreTimed(path: Id, out: seq<Rec>) returns (at: seq<nat>)
    ensures |at| == |Kept(path, out)|
    ensures forall k :: 0 <= k < |at| ==> at[k] < |out| && Kept(path, out)[k] == Sent(path, out[at[k]])
    ensures forall k, l :: 0 <= k < l < |at| ==> at[k] < at[l]
    ensures forall i :: 0 <= i < |out| ==> (i in at <==> out[i].at.Some?)
  {
    if out == [] {
      at := [];
    } else {
      var n := |out| - 1;
      at := KeptAreTimed(path, out[..n]);
      if out[n].at.Some? {
        at := at + [n];
      }
    }
  }

  lemma EventsConcat(decode: Decode, path: Id, a: seq<Reader.Line>, b: seq<Reader.Line>)
    ensures Events(decode, path, a + b) == Events(decode, path, a) + Events(decode, path, b)
  {
  }

  /** The lines still to read from the end of line k are the lines after it. */
  lemma LinesLeft(content: Bytes, k: nat)
    requires k <= |FileLines(content)|
    ensures var offset := Reader.EndOf(FileLines(content)[..k], 0);
            offset <= |content| && Reader.Lines(content[offset..], offset) == FileLines(content)[k..]
  {
    if k == 0 {
      assert content[0..] == content;
    } else {
      Reader.LinesResume(content, 0, k - 1);
    }
  }

  lemma FoldSplits(decode: Decode, path: Id, lines: seq<Reader.Line>, k: nat, to: nat)
    requires k <= to <= |lines|
    ensures var f := Codex.Fold(Codex.FRESH, Events(decode, path, lines[..k]));
            Codex.Fold(Codex.FRESH, Events(decode, path, lines[..to]))
              == Codex.Then(f, Codex.Fold(f.p, Events(decode, path, lines[k..to])))
  {
    assert lines[..to] == lines[..k] + lines[k..to];
    EventsConcat(decode, path, lines[..k], lines[k..to]);
    Proofs.FoldConcat(Codex.FRESH, Events(decode, path, lines[..k]), Events(decode, path, lines[k..to]));
  }

  lemma EndOfMore(lines: seq<Reader.Line>, k: nat, to: nat)
    requires k <= to <= |lines|
    ensures Reader.EndOf(lines[k..to], Reader.EndOf(lines[..k], 0)) == Reader.EndOf(lines[..to], 0)
  {
  }

  /** Reading on from line k lands on line k + n, and adds exactly the records in between. */
  lemma AdvanceFollowsFold(decode: Decode, path: Id, content: Bytes, k: nat, n: nat)
    requires k <= |FileLines(content)|
    ensures var to := if k + n <= |FileLines(content)| then k + n else |FileLines(content)|;
            var a := Advance(decode, path, content, EntryAt(decode, path, content, k), n);
            && a.entry == EntryAt(decode, path, content, to)
            && RecordsOf(decode, path, content, to) == RecordsOf(decode, path, content, k) + a.records
  {
    var lines := FileLines(content);
    var to := if k + n <= |lines| then k + n else |lines|;
    LinesLeft(content, k);
    var more := lines[k..to];
    FoldSplits(decode, path, lines, k, to);
    EndOfMore(lines, k, to);
    KeptConcat(path, FoldOf(decode, path, content, k).out,
               Codex.Fold(FoldOf(decode, path, content, k).p, Events(decode, path, more)).out);
    var todo := lines[k..];
    assert (if n <= |todo| then todo[..n] else todo) == more;
  }

  /** Appended bytes change nothing about the lines already complete. */
  lemma GrowthKeepsFold(decode: Decode, path: Id, content: Bytes, more: Bytes, k: nat)
    requires k <= |FileLines(content)|
    ensures k <= |FileLines(content + more)|
    ensures EntryAt(decode, path, content + more, k) == EntryAt(decode, path, content, k)
    ensures RecordsOf(decode, path, content + more, k) == RecordsOf(decode, path, content, k)
  {
    Reader.LinesGrow(content, more, 0);
    assert FileLines(content + more)[..k] == FileLines(content)[..k];
  }

  lemma RecordsGrow(decode: Decode, path: Id, content: Bytes, j: nat, k: nat)
    requires j <= k <= |FileLines(content)|
    ensures RecordsOf(decode, path, content, j) <= RecordsOf(decode, path, content, k)
  {
    var more := Advance(decode, path, content, EntryAt(decode, path, content, j), k - j).records;
    assert RecordsOf(decode, path, content, k) == RecordsOf(decode, path, content, j) + more by {
      AdvanceFollowsFold(decode, path, content, j, k - j);
    }
  }

  // ---- the whole reporter ----

  /**
    The transcripts, the committed entries in memory and in state.json, and the history of delivery:
    everything ever posted, and what was accepted or finally refused (400, 413).
  */
  datatype World = World(
    contents: map<Id, Bytes>, files: map<Id, Entry>, disk: map<Id, Entry>, sent: set<Sent>, settled: set<Sent>)

  /** How many lines of which file a pass plan before a budget, an error or the end stops it. */
  datatype Read = Read(path: Id, lines: nat)
  datatype Collected = Collected(working: map<Id, Entry>, records: seq<Sent>)

  /** `collect`: every file is read at most once per pass, on a copy of its committed entry. */
  function Collect(decode: Decode, w: World, plan: seq<Read>): Collected {
    if plan == [] then Collected(map[], [])
    else
      var earlier := Collect(decode, w, plan[..|plan| - 1]);
      var last := plan[|plan| - 1];
      if last.path !in w.files || last.path !in w.contents || last.path in earlier.working then earlier
      else
        var a := Advance(decode, last.path, w.contents[last.path], w.files[last.path], last.lines);
        Collected(earlier.working[last.path := a.entry], earlier.records + a.records)
  }

  function Elements(records: seq<Sent>): set<Sent> {
    set s | s in records
  }

  function Min(a: nat, b: nat): nat {
    if a <= b then a else b
  }

  /**
    A pass posts its first `posted` records, of which the first `settled` are accepted or refused for
    good. It commits only when all are settled and the process is still alive; saving may fail.
  */
  datatype Action =
    | Grow(path: Id, bytes: Bytes)
    | Pass(plan: seq<Read>, posted: nat, settled: nat, alive: bool, saved: bool)
    | Save
    | Restart

  function Apply(decode: Decode, w: World, a: Action): World {
    match a
    case Grow(path, bytes) =>
      if path in w.contents then w.(contents := w.contents[path := w.contents[path] + bytes]) else w
    case Pass(plan, posted, settled, alive, saved) =>
      var c := Collect(decode, w, plan);
      var all := Min(posted, |c.records|);
      var done := Min(settled, all);
      var told := w.(sent := w.sent + Elements(c.records[..all]), settled := w.settled + Elements(c.records[..done]));
      if done < |c.records| || !alive then told
      else
        var files := w.files + c.working;
        told.(files := files, disk := if saved && c.working != map[] then files else w.disk)
    case Save => w.(disk := w.files)
    case Restart => w.(files := w.disk)
  }

  function Run(decode: Decode, w: World, actions: seq<Action>): World
    decreases |actions|
  {
    if actions == [] then w else Run(decode, Apply(decode, w, actions[0]), actions[1..])
  }

  /** Every tracked file at its beginning, nothing posted yet. */
  predicate Initial(w: World) {
    && (forall path :: path in w.files ==> path in w.contents && w.files[path] == Entry(0, Codex.FRESH))
    && w.disk == w.files && w.sent == {} && w.settled == {}
  }

  /** The entry is the fold over exactly the lines before its offset, and every record of it is settled. */
  ghost predicate Covered(decode: Decode, path: Id, content: Bytes, e: Entry, settled: set<Sent>) {
    exists k: nat :: k <= |FileLines(content)| && CoveredAt(decode, path, content, e, settled, k)
  }

  ghost predicate CoveredAt(decode: Decode, path: Id, content: Bytes, e: Entry, settled: set<Sent>, k: nat)
    requires k <= |FileLines(content)|
  {
    && e == EntryAt(decode, path, content, k)
    && (forall s :: s in RecordsOf(decode, path, content, k) ==> s in settled)
  }

  ghost predicate AllCovered(decode: Decode, contents: map<Id, Bytes>, files: map<Id, Entry>, settled: set<Sent>) {
    forall path :: path in files ==> path in contents && Covered(decode, path, contents[path], files[path], settled)
  }

  /** The record belongs to the fold of its whole file. */
  ghost predicate Genuine(decode: Decode, contents: map<Id, Bytes>, s: Sent) {
    && s.path in contents
    && s in RecordsOf(decode, s.path, contents[s.path], |FileLines(contents[s.path])|)
  }

  ghost predicate Invariant(decode: Decode, w: World) {
    && AllCovered(decode, w.contents, w.files, w.settled)
    && AllCovered(decode, w.contents, w.disk, w.settled)
    && (forall s :: s in w.sent ==> Genuine(decode, w.contents, s))
    && w.settled <= w.sent
  }

  // ---- what a pass collects ----

  /** The working entry is covered once the collected records are settled too. */
  lemma AdvanceCovered(decode: Decode, path: Id, content: Bytes, e: Entry, n: nat, settled: set<Sent>)
    requires Covered(decode, path, content, e, settled)
    ensures var a := Advance(decode, path, content, e, n);
            && Covered(decode, path, content, a.entry, settled + Elements(a.records))
            && (forall s :: s in a.records ==>
                  s.path == path && s in RecordsOf(decode, path, content, |FileLines(content)|))
  {
    var k: nat :| k <= |FileLines(content)| && CoveredAt(decode, path, content, e, settled, k);
    var to := if k + n <= |FileLines(content)| then k + n else |FileLines(content)|;
    var a := Advance(decode, path, content, e, n);
    AdvanceFollowsFold(decode, path, content, k, n);
    assert CoveredAt(decode, path, content, a.entry, settled + Elements(a.records), to);
    RecordsGrow(decode, path, content, to, |FileLines(content)|);
    forall s | s in a.records
      ensures s.path == path && s in RecordsOf(decode, path, content, |FileLines(content)|)
    {
      assert s in RecordsOf(decode, path, content, to);
      KeptPath(path, FoldOf(decode, path, content, to).out);
    }
  }

  lemma {:induction false} KeptPath(path: Id, out: seq<Rec>)
    ensures forall s :: s in Kept(path, out) ==> s.path == path && s.rec in out && s.rec.at.Some?
  {
    if out != [] {
      KeptPath(path, out[..|out| - 1]);
    }
  }

  lemma {:induction false} CoveredMore(decode: Decode, path: Id, content: Bytes, e: Entry, settled: set<Sent>,
                                       more: set<Sent>)
    requires Covered(decode, path, content, e, settled) && settled <= more
    ensures Covered(decode, path, content, e, more)
  {
    var k: nat :| k <= |FileLines(content)| && CoveredAt(decode, path, content, e, settled, k);
    assert CoveredAt(decode, path, content, e, more, k);
  }

  lemma {:induction false} CollectCovered(decode: Decode, w: World, plan: seq<Read>)
    requires AllCovered(decode, w.contents, w.files, w.settled)
    ensures var c := Collect(decode, w, plan);
            && c.working.Keys <= w.files.Keys
            && AllCovered(decode, w.contents, c.working, w.settled + Elements(c.records))
            && (forall s :: s in c.records ==> Genuine(decode, w.contents, s))
  {
    if plan != [] {
      var before, last := plan[..|plan| - 1], plan[|plan| - 1];
      CollectCovered(decode, w, before);
      var earlier, c := Collect(decode, w, before), Collect(decode, w, plan);
      if last.path in w.files && last.path in w.contents && last.path !in earlier.working {
        var content := w.contents[last.path];
        var a := Advance(decode, last.path, content, w.files[last.path], last.lines);
        AdvanceCovered(decode, last.path, content, w.files[last.path], last.lines, w.settled);
        var settled := w.settled + Elements(c.records);
        forall path | path in c.working
          ensures path in w.contents && Covered(decode, path, w.contents[path], c.working[path], settled)
        {
          if path == last.path {
            CoveredMore(decode, path, content, a.entry, w.settled + Elements(a.records), settled);
          } else {
            CoveredMore(decode, path, w.contents[path], earlier.working[path], w.settled + Elements(earlier.records),
                        settled);
          }
        }
      }
    }
  }

  // ---- every run ----

  lemma AllCoveredMore(decode: Decode, contents: map<Id, Bytes>, files: map<Id, Entry>, settled: set<Sent>,
                       more: set<Sent>)
    requires AllCovered(decode, contents, files, settled) && settled <= more
    ensures AllCovered(decode, contents, files, more)
  {
    forall path | path in files ensures Covered(decode, path, contents[path], files[path], more) {
      CoveredMore(decode, path, contents[path], files[path], settled, more);
    }
  }

  lemma PassKeeps(decode: Decode, w: World, a: Action)
    requires Invariant(decode, w) && a.Pass?
    ensures Invariant(decode, Apply(decode, w, a))
  {
    var c, t := Collect(decode, w, a.plan), Apply(decode, w, a);
    CollectCovered(decode, w, a.plan);
    AllCoveredMore(decode, w.contents, w.files, w.settled, t.settled);
    AllCoveredMore(decode, w.contents, w.disk, w.settled, t.settled);
    if t.files != w.files {
      CommitSettles(decode, w, a);
    }
  }

  lemma CommitSettles(decode: Decode, w: World, a: Action)
    requires a.Pass? && Apply(decode, w, a).files != w.files
    ensures Apply(decode, w, a).settled == w.settled + Elements(Collect(decode, w, a.plan).records)
  {
    var records := Collect(decode, w, a.plan).records;
    assert records[..Min(a.settled, Min(a.posted, |records|))] == records;
  }

  lemma GrowCovered(decode: Decode, w: World, path: Id, bytes: Bytes, files: map<Id, Entry>)
    requires path in w.contents && AllCovered(decode, w.contents, files, w.settled)
    ensures AllCovered(decode, w.contents[path := w.contents[path] + bytes], files, w.settled)
  {
    var content := w.contents[path];
    if path in files {
      var k: nat :| k <= |FileLines(content)| && CoveredAt(decode, path, content, files[path], w.settled, k);
      GrowthKeepsFold(decode, path, content, bytes, k);
      assert CoveredAt(decode, path, content + bytes, files[path], w.settled, k);
    }
  }

  lemma GrowKeeps(decode: Decode, w: World, path: Id, bytes: Bytes)
    requires Invariant(decode, w) && path in w.contents
    ensures Invariant(decode, Apply(decode, w, Grow(path, bytes)))
  {
    var content, t := w.contents[path], Apply(decode, w, Grow(path, bytes));
    GrowCovered(decode, w, path, bytes, w.files);
    GrowCovered(decode, w, path, bytes, w.disk);
    forall s | s in t.sent ensures Genuine(decode, t.contents, s) {
      assert Genuine(decode, w.contents, s);
      if s.path == path {
        var k := |FileLines(content)|;
        GrowthKeepsFold(decode, path, content, bytes, k);
        RecordsGrow(decode, path, content + bytes, k, |FileLines(content + bytes)|);
      }
    }
  }

  lemma ApplyKeeps(decode: Decode, w: World, a: Action)
    requires Invariant(decode, w)
    ensures Invariant(decode, Apply(decode, w, a))
  {
    match a
    case Grow(path, bytes) =>
      if path in w.contents {
        GrowKeeps(decode, w, path, bytes);
      }
    case Pass(_, _, _, _, _) => PassKeeps(decode, w, a);
    case Save =>
    case Restart =>
  }

  lemma {:induction false} RunKeeps(decode: Decode, w: World, actions: seq<Action>)
    requires Invariant(decode, w)
    ensures Invariant(decode, Run(decode, w, actions))
    decreases |actions|
  {
    if actions != [] {
      ApplyKeeps(decode, w, actions[0]);
      RunKeeps(decode, Apply(decode, w, actions[0]), actions[1..]);
    }
  }

  lemma InitialInvariant(decode: Decode, w: World)
    requires Initial(w)
    ensures Invariant(decode, w)
  {
    forall path | path in w.files ensures Covered(decode, path, w.contents[path], w.files[path], w.settled) {
      var content := w.contents[path];
      assert FileLines(content)[..0] == [] && Events(decode, path, []) == [];
      assert CoveredAt(decode, path, content, w.files[path], w.settled, 0);
    }
  }

  /**
    Under any growth, budgets, delivery failures, failed saves and restarts: every committed entry,
    in memory and on disk, is the fold of the parser over exactly the lines before its offset; every
    record of that fold was accepted or finally refused; and every record ever posted belongs to the
    fold of the whole file.
  */
  lemma NothingLostNothingInvented(decode: Decode, w: World, actions: seq<Action>)
    requires Initial(w)
    ensures Invariant(decode, Run(decode, w, actions))
  {
    InitialInvariant(decode, w);
    RunKeeps(decode, w, actions);
  }

  /** A pass that reads a file to its end and settles what it collected commits the whole file. */
  lemma FullPassCommits(decode: Decode, w: World, path: Id, n: nat, posted: nat, saved: bool)
    requires Invariant(decode, w) && path in w.files && n >= |FileLines(w.contents[path])|
    requires posted >= |Collect(decode, w, [Read(path, n)]).records|
    ensures var t := Apply(decode, w, Pass([Read(path, n)], posted, posted, true, saved));
            var all := |FileLines(w.contents[path])|;
            && t.files[path] == EntryAt(decode, path, w.contents[path], all)
            && (forall s :: s in RecordsOf(decode, path, w.contents[path], all) ==> s in t.settled)
            && t.disk == if saved then t.files else w.disk
  {
    var content := w.contents[path];
    var t := Apply(decode, w, Pass([Read(path, n)], posted, posted, true, saved));
    var k: nat :| k <= |FileLines(content)| && CoveredAt(decode, path, content, w.files[path], w.settled, k);
    AdvanceFollowsFold(decode, path, content, k, n);
    var a, c := Advance(decode, path, content, w.files[path], n), Collect(decode, w, [Read(path, n)]);
    assert [Read(path, n)][..0] == [];
    assert c == Collected(map[path := a.entry], [] + a.records);
    assert c.records == a.records && c.records[..|c.records|] == c.records;
    assert t.settled == w.settled + Elements(a.records);
  }
}
