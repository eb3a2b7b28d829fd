/** That reading goes on across forgetting: which files a pruning forgets, and what a full pass commits. */
module ForgettingProgress {
  import opened Common
  import opened TraceRecord
  import opened Forgetting
  import Codex = CodexParser
  import Proofs = CodexProofs
  import Forgets = CodexForgets
  import Reader = LineReader
  import D = Delivery

  // ---- what a pruning forgets ----

  /** Fully read, not written for a day, and no run open that began since the cutoff. */
  predicate Over(w: World, path: Id, cutoff: int, quiet: set<Id>)
    requires path in w.files && path in w.contents
  {
    var p := w.files[path].p;
    && path in quiet && w.files[path].offset == |w.contents[path]|
    && (p.run.Some? ==> p.run.value in p.runs && Forgets.Old(p.runs[p.run.value], cutoff))
  }

  /** A reachable parser is idle once pruned exactly when no run is open that began since the cutoff. */
  lemma IdleOncePruned(h: History, cutoff: int)
    ensures var p := Codex.Fold(Codex.FRESH, h).p;
            Codex.Idle(Codex.Prune(p, cutoff))
            <==> (p.run.Some? ==> p.run.value in p.runs && Forgets.Old(p.runs[p.run.value], cutoff))
  {
    var p := Codex.Fold(Codex.FRESH, h).p;
    Proofs.ReachableCodex(h);
    Forgets.PruneForgets(p, cutoff);
    if p.run == None {
      assert p.runs.Keys == {};
      assert forall call :: call !in p.tools.values;
    } else {
      assert p.run.value in p.runs.Keys;
    }
  }

  /**
    In every run a pruning forgets exactly the files that were read to their end and not written for
    a day, and in which no run is open that began since the cutoff; a forgotten one keeps its offset.
  */
  lemma PruningForgetsExactly(decode: D.Decode, w: World, a: Action, path: Id)
    requires Invariant(decode, w) && a.Prune? && path in w.files
    ensures path in w.contents
    ensures var t := Apply(decode, w, a);
            && (path !in t.files <==> Over(w, path, a.cutoff, a.quiet))
            && (path in t.idle <==> Over(w, path, a.cutoff, a.quiet))
            && (path in t.idle ==> t.idle[path] == w.files[path].offset)
            && (path in t.files ==> t.files[path].offset == w.files[path].offset)
  {
    IdleOncePruned(w.past[path], a.cutoff);
    assert Covered(decode, path, w.contents[path], w.past[path], w.files[path], w.settled);
  }

  // ---- what a full pass commits ----

  /** The file is known, tracked or forgotten, and there is something behind where it was read to. */
  predicate HasNews(w: World, path: Id) {
    && path in w.contents && (path in w.files || path in w.idle)
    && (if path in w.files then w.files[path].offset else w.idle[path]) < |w.contents[path]|
  }

  /** Where reading ends that has read every complete line. */
  function EndOfLines(content: D.Bytes): nat {
    Reader.EndOf(D.FileLines(content), 0)
  }

  lemma ReadsAll(decode: D.Decode, path: Id, content: D.Bytes, h: History, e: D.Entry, n: nat, settled: set<D.Sent>)
    requires Covered(decode, path, content, h, e, settled) && n >= |D.FileLines(content)|
    ensures D.Advance(decode, path, content, e, n).entry.offset == EndOfLines(content)
  {
    var lines, k := D.FileLines(content), |LinesIn(h)|;
    AdvanceReads(decode, path, content, k, e.p, n);
    assert lines[..|lines|] == lines;
  }

  lemma CollectOne(decode: D.Decode, w: World, path: Id, n: nat)
    requires Start(decode, w, path).Some?
    ensures var a := D.Advance(decode, path, w.contents[path], Start(decode, w, path).value, n);
            var g := Collect(decode, w, [D.Read(path, n)]);
            g.working == map[path := a.entry] && g.records == a.records && path in g.read
  {
    var plan := [D.Read(path, n)];
    assert plan[..0] == [] && Collect(decode, w, plan[..0]) == Gathered(map[], map[], []);
    var a := D.Advance(decode, path, w.contents[path], Start(decode, w, path).value, n);
    assert [] + a.records == a.records;
  }

  /**
    A file with news that is read to its end is committed there once everything is settled, whether it
    was tracked or forgotten: then it is tracked, and saved if the save succeeds.
  */
  lemma FullPassReadsOn(decode: D.Decode, w: World, path: Id, n: nat, posted: nat, saved: bool)
    requires Invariant(decode, w) && HasNews(w, path) && n >= |D.FileLines(w.contents[path])|
    requires posted >= |Collect(decode, w, [D.Read(path, n)]).records|
    ensures var t := Apply(decode, w, Pass([D.Read(path, n)], posted, posted, true, saved));
            && path in t.files && path !in t.idle && t.files[path].offset == EndOfLines(w.contents[path])
            && path in t.past && (forall s :: s in RecordsIn(path, t.past[path]) ==> s in t.settled)
            && (saved ==> t.disk == t.files && t.diskIdle == t.idle)
  {
    var a := Pass([D.Read(path, n)], posted, posted, true, saved);
    StartCovered(decode, w, path);
    CollectOne(decode, w, path, n);
    ReadsAll(decode, path, w.contents[path], w.past[path], Start(decode, w, path).value, n, w.settled);
    PassKeeps(decode, w, a);
  }

  // ---- what a restart finds ----

  predicate Saves(a: Action) {
    a.Save? || ((a.Pass? || a.Prune?) && a.saved)
  }

  predicate SameOnDisk(w: World, t: World) {
    t.disk == w.disk && t.diskIdle == w.diskIdle && t.diskPast == w.diskPast
  }

  lemma UnsavedStep(decode: D.Decode, w: World, a: Action)
    requires !Saves(a)
    ensures SameOnDisk(w, Apply(decode, w, a))
  {
    match a
    case Pass(plan, posted, settled, alive, _) => UnsavedPass(w, Collect(decode, w, plan), posted, settled, alive);
    case Prune(cutoff, quiet, _) => UnsavedForget(w, cutoff, Forgotten(w, cutoff, quiet));
    case _ =>
  }

  lemma UnsavedPass(w: World, g: Gathered, posted: nat, settled: nat, alive: bool)
    ensures SameOnDisk(w, Passed(w, g, posted, settled, alive, false))
  {
  }

  lemma UnsavedForget(w: World, cutoff: int, gone: set<Id>)
    ensures SameOnDisk(w, Forget(w, cutoff, gone))
  {
  }

  lemma {:induction false} UnsavedRun(decode: D.Decode, w: World, actions: seq<Action>)
    requires forall i :: 0 <= i < |actions| ==> !Saves(actions[i])
    ensures SameOnDisk(w, Run(decode, w, actions))
    decreases |actions|
  {
    if actions != [] {
      assert !Saves(actions[0]);
      UnsavedStep(decode, w, actions[0]);
      UnsavedRun(decode, Apply(decode, w, actions[0]), actions[1..]);
    }
  }

  /** A restart finds what was last saved, whatever was committed, pruned or forgotten since. */
  lemma RestartFindsSaved(decode: D.Decode, w: World, actions: seq<Action>)
    requires forall i :: 0 <= i < |actions| ==> !Saves(actions[i])
    ensures var t := Apply(decode, Run(decode, w, actions), Restart);
            t.files == w.disk && t.idle == w.diskIdle && t.past == w.diskPast
  {
    UnsavedRun(decode, w, actions);
  }
}
