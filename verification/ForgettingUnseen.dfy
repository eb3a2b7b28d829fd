/**
  A reporter that forgets idle transcripts against one that never does: over any run that forgets
  transparent files only, both post and settle the same records.
*/
module ForgettingUnseen {
  import opened Common
  import opened TraceRecord
  import opened Tombstone
  import opened Forgetting
  import Codex = CodexParser
  import D = Delivery

  /** The same run by a reporter that prunes and never forgets. */
  function Remembering(actions: seq<Action>): seq<Action> {
    seq(|actions|, i requires 0 <= i < |actions| => Remember(actions[i]))
  }

  function Remember(a: Action): Action {
    if a.Prune? then a.(quiet := {}) else a
  }

  /** The entries of a reporter that never forgets: tracked ones, and forgotten ones as they would be resumed. */
  ghost predicate Same(decode: D.Decode, contents: map<Id, D.Bytes>, files: map<Id, D.Entry>, idle: map<Id, nat>,
                       whole: map<Id, D.Entry>)
  {
    forall path ::
      && (path in whole <==> path in files || path in idle)
      && (path in whole ==> path in contents && EntryOf(decode, contents, files, idle, path) == Some(whole[path]))
  }

  ghost predicate Hidden(decode: D.Decode, w: World, v: World) {
    && v.contents == w.contents && v.sent == w.sent && v.settled == w.settled
    && v.idle == map[] && v.diskIdle == map[]
    && Same(decode, w.contents, w.files, w.idle, v.files) && Same(decode, w.contents, w.disk, w.diskIdle, v.disk)
  }

  lemma StartHidden(decode: D.Decode, w: World, v: World, path: Id)
    requires Hidden(decode, w, v)
    ensures Start(decode, w, path) == Start(decode, v, path)
  {
  }

  lemma {:induction false} CollectHidden(decode: D.Decode, w: World, v: World, plan: seq<D.Read>)
    requires Hidden(decode, w, v)
    ensures Collect(decode, w, plan).working == Collect(decode, v, plan).working
    ensures Collect(decode, w, plan).records == Collect(decode, v, plan).records
  {
    if plan != [] {
      CollectHidden(decode, w, v, plan[..|plan| - 1]);
      StartHidden(decode, w, v, plan[|plan| - 1].path);
    }
  }

  lemma SavedHidden(decode: D.Decode, w: World, v: World)
    requires Hidden(decode, w, v)
    ensures Hidden(decode, Saved(w), Saved(v))
  {
  }

  lemma ToldHidden(decode: D.Decode, w: World, v: World, g: Gathered, f: Gathered, posted: nat, settled: nat)
    requires Hidden(decode, w, v) && g.records == f.records
    ensures Hidden(decode, Told(w, g, posted, settled), Told(v, f, posted, settled))
  {
  }

  lemma CommittedHidden(decode: D.Decode, w: World, v: World, g: Gathered, f: Gathered)
    requires Hidden(decode, w, v) && g.working == f.working && forall path :: path in g.working ==> path in w.contents
    ensures Hidden(decode, Committed(w, g), Committed(v, f))
  {
    CommitSame(decode, w.contents, w.files, w.idle, v.files, g.working);
    assert v.idle - f.working.Keys == map[];
  }

  lemma PassedHidden(decode: D.Decode, w: World, v: World, g: Gathered, f: Gathered, posted: nat, settled: nat,
                     alive: bool, saved: bool)
    requires Hidden(decode, w, v) && g.records == f.records && g.working == f.working
    requires forall path :: path in g.working ==> path in w.contents
    ensures Hidden(decode, Passed(w, g, posted, settled, alive, saved), Passed(v, f, posted, settled, alive, saved))
  {
    var t, u := Told(w, g, posted, settled), Told(v, f, posted, settled);
    ToldHidden(decode, w, v, g, f, posted, settled);
    CommittedHidden(decode, t, u, g, f);
    SavedHidden(decode, Committed(t, g), Committed(u, f));
  }

  lemma {:induction false} WorkingExists(decode: D.Decode, w: World, plan: seq<D.Read>)
    ensures forall path :: path in Collect(decode, w, plan).working ==> path in w.contents
  {
    if plan != [] {
      WorkingExists(decode, w, plan[..|plan| - 1]);
    }
  }

  lemma PassHidden(decode: D.Decode, w: World, v: World, a: Action)
    requires Hidden(decode, w, v) && a.Pass?
    ensures Hidden(decode, Apply(decode, w, a), Apply(decode, v, a))
  {
    var g, f := Collect(decode, w, a.plan), Collect(decode, v, a.plan);
    CollectHidden(decode, w, v, a.plan);
    WorkingExists(decode, w, a.plan);
    PassedHidden(decode, w, v, g, f, a.posted, a.settled, a.alive, a.saved);
  }

  lemma CommitSame(decode: D.Decode, contents: map<Id, D.Bytes>, files: map<Id, D.Entry>, idle: map<Id, nat>,
                   whole: map<Id, D.Entry>, working: map<Id, D.Entry>)
    requires Same(decode, contents, files, idle, whole) && forall path :: path in working ==> path in contents
    ensures Same(decode, contents, files + working, idle - working.Keys, whole + working)
  {
  }

  /** A parser that knows no more than a session header has nothing to prune. */
  lemma SeedIsPruned(first: Option<Codex.Event>, cutoff: int)
    ensures Codex.Prune(Seed(first), cutoff) == Seed(first)
  {
  }

  lemma PruneHidden(decode: D.Decode, w: World, v: World, a: Action)
    requires Hidden(decode, w, v) && a.Prune? && Invariant(decode, w) && ForgetsTransparently(decode, w, a)
    ensures Hidden(decode, Apply(decode, w, a), Apply(decode, v, Remember(a)))
  {
    var gone := Forgotten(w, a.cutoff, a.quiet);
    forall path | path in gone
      ensures Resumed(decode, path, w.contents[path], w.files[path].offset) == Pruned(w.files, a.cutoff)[path]
    {
      ForgottenResumes(decode, w, a, path);
    }
    ForgetHidden(decode, w, v, a.cutoff, gone);
    assert Forgotten(v, a.cutoff, {}) == {};
    SavedHidden(decode, Forget(w, a.cutoff, gone), Forget(v, a.cutoff, {}));
  }

  lemma ForgetHidden(decode: D.Decode, w: World, v: World, cutoff: int, gone: set<Id>)
    requires Hidden(decode, w, v) && forall path :: path in w.idle ==> path !in w.files
    requires forall path :: path in gone ==> path in w.files
    requires forall path :: path in gone && path in w.contents ==>
               Resumed(decode, path, w.contents[path], w.files[path].offset) == Pruned(w.files, cutoff)[path]
    ensures Hidden(decode, Forget(w, cutoff, gone), Forget(v, cutoff, {}))
  {
    PruneSame(decode, w, v.files, cutoff, gone);
    assert Pruned(v.files, cutoff) - {} == Pruned(v.files, cutoff) && v.idle + Tombs(v, {}) == v.idle;
  }

  /** Pruning all, and forgetting some that resume as they were, is pruning all. */
  lemma PruneSame(decode: D.Decode, w: World, whole: map<Id, D.Entry>, cutoff: int, gone: set<Id>)
    requires Same(decode, w.contents, w.files, w.idle, whole) && forall path :: path in w.idle ==> path !in w.files
    requires forall path :: path in gone ==> path in w.files
    requires forall path :: path in gone && path in w.contents ==>
               Resumed(decode, path, w.contents[path], w.files[path].offset) == Pruned(w.files, cutoff)[path]
    ensures Same(decode, w.contents, Pruned(w.files, cutoff) - gone, w.idle + Tombs(w, gone), Pruned(whole, cutoff))
  {
    forall path | path in w.idle
      ensures path in whole && Pruned(whole, cutoff)[path] == whole[path]
    {
      ResumedIsPruned(decode, path, w.contents[path], w.idle[path], cutoff);
    }
  }

  lemma ResumedIsPruned(decode: D.Decode, path: Id, content: D.Bytes, offset: nat, cutoff: int)
    ensures var e := Resumed(decode, path, content, offset); D.Entry(e.offset, Codex.Prune(e.p, cutoff)) == e
  {
    SeedIsPruned(FirstEvent(decode, path, content), cutoff);
    SeedIsPruned(None, cutoff);
  }

  lemma GrowSame(decode: D.Decode, w: World, path: Id, bytes: D.Bytes, past: map<Id, History>, files: map<Id, D.Entry>,
                 idle: map<Id, nat>, whole: map<Id, D.Entry>)
    requires path in w.contents && Kept(decode, w.contents, past, files, idle, w.settled)
    requires Same(decode, w.contents, files, idle, whole)
    ensures Same(decode, w.contents[path := w.contents[path] + bytes], files, idle, whole)
  {
    if path in idle {
      ResumedStays(decode, path, w.contents[path], bytes, past[path], idle[path], w.settled);
    }
  }

  lemma StepHidden(decode: D.Decode, w: World, v: World, a: Action)
    requires Hidden(decode, w, v) && Invariant(decode, w) && ForgetsTransparently(decode, w, a)
    ensures Hidden(decode, Apply(decode, w, a), Apply(decode, v, Remember(a)))
  {
    match a
    case Grow(path, bytes) =>
      if path in w.contents {
        GrowSame(decode, w, path, bytes, w.past, w.files, w.idle, v.files);
        GrowSame(decode, w, path, bytes, w.diskPast, w.disk, w.diskIdle, v.disk);
      }
    case Pass(_, _, _, _, _) => PassHidden(decode, w, v, a);
    case Prune(_, _, _) => PruneHidden(decode, w, v, a);
    case Save =>
    case Restart =>
  }

  lemma {:induction false} RunHidden(decode: D.Decode, w: World, v: World, actions: seq<Action>)
    requires Hidden(decode, w, v) && Invariant(decode, w) && Transparently(decode, w, actions)
    ensures Hidden(decode, Run(decode, w, actions), Run(decode, v, Remembering(actions)))
    decreases |actions|
  {
    if actions != [] {
      StepHidden(decode, w, v, actions[0]);
      ApplyKeeps(decode, w, actions[0]);
      RunHidden(decode, Apply(decode, w, actions[0]), Apply(decode, v, Remember(actions[0])), actions[1..]);
      assert Remembering(actions)[1..] == Remembering(actions[1..]);
    }
  }

  /**
    A reporter that forgets transparent files posts and settles exactly the records of one that makes
    the same prunings and never forgets, and has its entries, in memory and on disk.
  */
  lemma ForgettingIsInvisibleToDelivery(decode: D.Decode, w: World, actions: seq<Action>)
    requires Initial(w) && Transparently(decode, w, actions)
    ensures var t, u := Run(decode, w, actions), Run(decode, w, Remembering(actions));
            && t.sent == u.sent && t.settled == u.settled
            && Same(decode, t.contents, t.files, t.idle, u.files)
               && Same(decode, t.contents, t.disk, t.diskIdle, u.disk)
  {
    InitialInvariant(decode, w);
    RunHidden(decode, w, w, actions);
  }
}
