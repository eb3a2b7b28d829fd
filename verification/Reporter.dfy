/** The reporter's loop as it runs: reading, posting and committing, with its state updated in place. */
module Reporter {
  import opened Common
  import opened TraceRecord
  import opened Delivery
  import Codex = CodexParser
  import Proofs = CodexProofs
  import Lines = LineReader
  import Chunks

  const MAX_PASSES := 16
  const MAX_RECORDS := 400
  const PASS_BYTES := 64 * 1024 * 1024

  lemma ConcatOne(data: Bytes)
    ensures Lines.Concat([data]) == data
  {
    assert Lines.Concat([data]) == data + Lines.Concat([data][1..]);
  }

  lemma FoldLine(decode: Decode, path: Id, p: Codex.Parser, lines: seq<Lines.Line>, i: nat)
    requires i < |lines|
    ensures var f := Codex.Fold(p, Events(decode, path, lines[..i]));
            var step := Codex.Parse(f.p, decode(lines[i]), Codex.Place(path, lines[i].start));
            var g := Codex.Fold(p, Events(decode, path, lines[..i + 1]));
            g.p == step.p && Kept(path, g.out) == Kept(path, f.out) + Kept(path, step.out)
  {
    var f, e := Codex.Fold(p, Events(decode, path, lines[..i])),
        Codex.Line(decode(lines[i]), Codex.Place(path, lines[i].start));
    assert Events(decode, path, lines[..i + 1]) == Events(decode, path, lines[..i]) + [e];
    Proofs.FoldSnoc(p, Events(decode, path, lines[..i]), e);
    KeptConcat(path, f.out, Codex.Apply(f.p, e).out);
  }

  /** The first `i` lines have been read. */
  ghost predicate ReadTo(decode: Decode, path: Id, entry: Entry, lines: seq<Lines.Line>, i: nat, now: Progress) {
    && i <= |lines|
    && var f := Codex.Fold(entry.p, Events(decode, path, lines[..i]));
       now == Progress(Entry(Lines.EndOf(lines[..i], entry.offset), f.p), Kept(path, f.out))
  }

  function ReadLine(decode: Decode, path: Id, line: Lines.Line, now: Progress): Progress {
    var step := Codex.Parse(now.entry.p, decode(line), Codex.Place(path, line.start));
    Progress(Entry(line.end, step.p), now.records + Kept(path, step.out))
  }

  lemma ReadNext(decode: Decode, path: Id, entry: Entry, lines: seq<Lines.Line>, i: nat, now: Progress)
    requires i < |lines| && ReadTo(decode, path, entry, lines, i, now)
    ensures ReadTo(decode, path, entry, lines, i + 1, ReadLine(decode, path, lines[i], now))
  {
    FoldLine(decode, path, entry.p, lines, i);
    assert lines[..i + 1] == lines[..i] + [lines[i]];
  }

  lemma {:induction false} ContiguousAt(lines: seq<Lines.Line>, offset: nat, i: nat)
    requires i < |lines| && Lines.Contiguous(lines, offset)
    ensures lines[i].start == Lines.EndOf(lines[..i], offset)
  {
    var earlier := lines[..|lines| - 1];
    if i < |earlier| {
      ContiguousAt(earlier, offset, i);
      assert earlier[..i] == lines[..i];
    }
  }

  lemma ReadStart(decode: Decode, path: Id, entry: Entry, lines: seq<Lines.Line>)
    ensures ReadTo(decode, path, entry, lines, 0, Progress(entry, []))
  {
    assert lines[..0] == [] && Events(decode, path, lines[..0]) == [];
  }

  datatype Status = End | Budget | Error

  /** How many complete lines there are from the entry on. */
  function LinesAhead(content: Bytes, entry: Entry): nat
    requires entry.offset <= |content|
  {
    |Lines.Lines(content[entry.offset..], entry.offset)|
  }

  /** `_read`: complete lines from the entry's offset until a budget is used up or a read fails. */
  method ReadFile(decode: Decode, path: Id, content: Bytes, entry: Entry, recordBudget: int, byteBudget: int)
    returns (now: Progress, used: int, status: Status, n: nat)
    requires entry.offset <= |content|
    ensures n <= LinesAhead(content, entry) && now == Advance(decode, path, content, entry, n)
    ensures status == End ==> n == LinesAhead(content, entry)
    ensures status == Budget ==> |now.records| >= recordBudget || used >= byteBudget
    ensures used == now.entry.offset - entry.offset
  {
    ConcatOne(content[entry.offset..]);
    var lines := Lines.IterLines([content[entry.offset..]], entry.offset);
    now, used, status, n := Progress(entry, []), 0, End, 0;
    ReadStart(decode, path, entry, lines);
    Lines.LinesExact(content[entry.offset..], entry.offset);
    for i := 0 to |lines|
      invariant n == i && ReadTo(decode, path, entry, lines, i, now)
      invariant used == now.entry.offset - entry.offset
    {
      var readable: bool := *;
      if !readable {
        status := Error;
        return;
      }
      ReadNext(decode, path, entry, lines, i, now);
      ContiguousAt(lines, entry.offset, i);
      now := ReadLine(decode, path, lines[i], now);
      used := used + (lines[i].end - lines[i].start);
      n := i + 1;
      if |now.records| >= recordBudget || used >= byteBudget {
        status := Budget;
        return;
      }
    }
  }

  /** The answer to a post: a status, or none when the network failed. */
  datatype Answer = Answered(code: int) | Unanswered

  /** A batch as it was posted, and the answer to it. */
  datatype Post = Post(batch: seq<Sent>, answer: Answer)

  datatype Outcome = Ok | Retry | Blocked

  /** Accepted, or refused for good: the batch need never be posted again. */
  predicate Final(answer: Answer) {
    answer.Answered? && (200 <= answer.code <= 299 || answer.code == 400 || answer.code == 413)
  }

  predicate AllFinal(posts: seq<Post>) {
    forall i :: 0 <= i < |posts| ==> Final(posts[i].answer)
  }

  /** The records of the posts with a final answer. */
  function SettledBy(posts: seq<Post>): set<Sent> {
    set i, s | 0 <= i < |posts| && Final(posts[i].answer) && s in posts[i].batch :: s
  }

  function SentBy(posts: seq<Post>): set<Sent> {
    set i, s | 0 <= i < |posts| && s in posts[i].batch :: s
  }

  lemma PostsConcat(a: seq<Post>, b: seq<Post>)
    ensures SettledBy(a + b) == SettledBy(a) + SettledBy(b) && SentBy(a + b) == SentBy(a) + SentBy(b)
  {
    var all := a + b;
    assert forall i :: 0 <= i < |a| ==> all[i] == a[i];
    forall i | 0 <= i < |b| ensures b[i] == all[|a| + i] {
    }
  }

  lemma OnePost(post: Post)
    ensures SentBy([post]) == Elements(post.batch)
    ensures SettledBy([post]) == if Final(post.answer) then Elements(post.batch) else {}
  {
    assert [post][0] == post;
  }

  /** The posts are the first of the batches in order, and nothing is posted after an answer that is not final. */
  predicate PostsInOrder(posts: seq<Post>, batches: seq<seq<Sent>>) {
    && |posts| <= |batches|
    && (forall i :: 0 <= i < |posts| ==> posts[i].batch == batches[i])
    && (forall i :: 0 <= i < |posts| - 1 ==> Final(posts[i].answer))
  }

  lemma OneMorePost(posts: seq<Post>, post: Post)
    ensures SentBy(posts + [post]) == SentBy(posts) + Elements(post.batch)
    ensures SettledBy(posts + [post]) == SettledBy(posts) + if Final(post.answer) then Elements(post.batch) else {}
  {
    PostsConcat(posts, [post]);
    OnePost(post);
  }

  /** Posts in order carry first parts of the records: what was posted, and of it what is settled. */
  lemma {:induction false} PostedRecords(posts: seq<Post>, batches: seq<seq<Sent>>, records: seq<Sent>)
    returns (posted: nat, done: nat)
    requires PostsInOrder(posts, batches) && Chunks.Flatten(batches) == records
    ensures done <= posted <= |records|
    ensures SentBy(posts) == Elements(records[..posted]) && SettledBy(posts) == Elements(records[..done])
    ensures records[..posted] == Chunks.Flatten(batches[..|posts|]) && (AllFinal(posts) ==> done == posted)
    ensures |posts| == |batches| ==> posted == |records|
  {
    if posts == [] {
      assert batches[..0] == [];
      posted, done := 0, 0;
    } else {
      var n := |posts| - 1;
      var earlier := posts[..n];
      assert posts == earlier + [posts[n]] && AllFinal(earlier);
      posted, done := PostedRecords(earlier, batches, records);
      NextBatch(batches, n);
      OneMorePost(earlier, posts[n]);
      var further := posted + |batches[n]|;
      assert records[..further] == records[..posted] + batches[n];
      done := if Final(posts[n].answer) then further else posted;
      posted := further;
      if |posts| == |batches| {
        assert batches[..|posts|] == batches;
      }
    }
  }

  /** How a delivery ends, from the answer to its last post. */
  predicate EndsAs(outcome: Outcome, posts: seq<Post>, batches: seq<seq<Sent>>) {
    && (outcome == Ok <==> |posts| == |batches| && AllFinal(posts))
    && (outcome == Blocked <==>
          posts != [] && posts[|posts| - 1].answer in {Answered(401), Answered(403), Answered(404)})
  }

  /** Between two moments exactly the posts were sent, and settled as they were answered. */
  ghost predicate Posted(w: World, t: World, posts: seq<Post>) {
    t.settled == w.settled + SettledBy(posts) && t.sent == w.sent + SentBy(posts)
  }

  lemma PostedConcat(w: World, t: World, u: World, a: seq<Post>, b: seq<Post>)
    requires Posted(w, t, a) && Posted(t, u, b)
    ensures Posted(w, u, a + b)
  {
    PostsConcat(a, b);
  }

  /** The loop of `_deliver`: the batches are posted in turn until the answer to one is not final. */
  method PostAll(batches: seq<seq<Sent>>) returns (outcome: Outcome, expired: bool, ghost posts: seq<Post>)
    ensures PostsInOrder(posts, batches) && EndsAs(outcome, posts, batches)
    ensures expired <==> posts != [] && posts[|posts| - 1].answer == Answered(401)
  {
    posts := [];
    for i := 0 to |batches|
      invariant |posts| == i && AllFinal(posts) && PostsInOrder(posts, batches)
    {
      var status: Answer := *;
      posts := posts + [Post(batches[i], status)];
      if status.Answered? && 200 <= status.code < 300 {
        continue;
      }
      if status.Answered? && status.code in {400, 413} {
        continue;
      }
      expired := status == Answered(401);
      outcome := if expired || (status.Answered? && status.code in {403, 404}) then Blocked else Retry;
      return;
    }
    outcome, expired := Ok, false;
  }

  /** Nothing complete is left to read in the file once its entry in `files` is replaced by that in `working`. */
  ghost predicate ReadToEnd(decode: Decode, path: Id, files: map<Id, Entry>, found: map<Id, Bytes>,
                            working: map<Id, Entry>)
  {
    path in files && path in found && files[path].offset < |found[path]| ==>
      path in working
      && working[path] == Advance(decode, path, found[path], files[path], LinesAhead(found[path], files[path])).entry
  }

  /** Only files with something behind their entry are read. */
  predicate OnlyGrown(files: map<Id, Entry>, found: map<Id, Bytes>, working: map<Id, Entry>) {
    forall path :: path in working ==> path in files && path in found && files[path].offset < |found[path]|
  }

  /** Files with nothing behind their entry keep it. */
  predicate OthersStay(files: map<Id, Entry>, found: map<Id, Bytes>, after: map<Id, Entry>) {
    forall path :: path in files && (path !in found || files[path].offset >= |found[path]|) ==>
      path in after && after[path] == files[path]
  }

  lemma GrownCommitted(files: map<Id, Entry>, found: map<Id, Bytes>, working: map<Id, Entry>)
    requires OnlyGrown(files, found, working)
    ensures (files + working).Keys == files.Keys && OthersStay(files, found, files + working)
  {
    forall path | path in working.Keys ensures path in files.Keys {
      assert path in working;
    }
    assert (files + working).Keys == files.Keys + working.Keys;
  }

  /** No complete line of the file is left to read behind its entry. */
  ghost predicate CaughtUp(path: Id, files: map<Id, Entry>, found: map<Id, Bytes>) {
    path in files && path in found ==>
      files[path].offset <= |found[path]| && Lines.Lines(found[path][files[path].offset..], files[path].offset) == []
  }

  /** Behind the last complete line there is no complete line. */
  lemma EndIsCaughtUp(decode: Decode, path: Id, content: Bytes)
    ensures var e := EntryAt(decode, path, content, |FileLines(content)|);
            e.offset <= |content| && Lines.Lines(content[e.offset..], e.offset) == []
  {
    LinesLeft(content, |FileLines(content)|);
  }

  /** An entry that was read on to the end of its file is caught up with it. */
  lemma ReadToEndCatchesUp(decode: Decode, path: Id, content: Bytes, e: Entry, settled: set<Sent>)
    requires Covered(decode, path, content, e, settled)
    ensures e.offset <= |content|
    ensures var end := Advance(decode, path, content, e, LinesAhead(content, e)).entry;
            end.offset <= |content| && Lines.Lines(content[end.offset..], end.offset) == []
  {
    var k: nat :| k <= |FileLines(content)| && CoveredAt(decode, path, content, e, settled, k);
    LinesLeft(content, k);
    AdvanceFollowsFold(decode, path, content, k, LinesAhead(content, e));
    EndIsCaughtUp(decode, path, content);
  }

  lemma FileCatchesUp(decode: Decode, path: Id, files: map<Id, Entry>, found: map<Id, Bytes>, after: map<Id, Entry>,
                      settled: set<Sent>)
    requires AllCovered(decode, found, files, settled) && after.Keys == files.Keys
    requires ReadToEnd(decode, path, files, found, after) && OthersStay(files, found, after)
    ensures CaughtUp(path, after, found)
  {
    if path in files {
      ReadToEndCatchesUp(decode, path, found[path], files[path], settled);
      if files[path].offset >= |found[path]| {
        assert found[path][files[path].offset..] == [];
      }
    }
  }

  ghost predicate AllRead(decode: Decode, paths: set<Id>, failed: set<Id>, files: map<Id, Entry>, found: map<Id, Bytes>,
                          working: map<Id, Entry>)
  {
    forall path :: path in paths && path !in failed ==> ReadToEnd(decode, path, files, found, working)
  }

  lemma AllReadMore(decode: Decode, paths: set<Id>, failed: set<Id>, files: map<Id, Entry>, found: map<Id, Bytes>,
                    working: map<Id, Entry>, path: Id, next: Entry)
    requires AllRead(decode, paths, failed, files, found, working) && path in files && path in found
    requires files[path].offset <= |found[path]|
    requires next == Advance(decode, path, found[path], files[path], LinesAhead(found[path], files[path])).entry
    ensures AllRead(decode, paths + {path}, failed, files, found, working[path := next])
  {
  }

  lemma AllReadError(decode: Decode, paths: set<Id>, failed: set<Id>, files: map<Id, Entry>, found: map<Id, Bytes>,
                     working: map<Id, Entry>, path: Id, next: Entry)
    requires AllRead(decode, paths, failed, files, found, working)
    ensures AllRead(decode, paths + {path}, failed + {path}, files, found, working[path := next])
  {
  }

  lemma FlattenOneMore<T>(batches: seq<seq<T>>, i: nat)
    requires i < |batches|
    ensures Chunks.Flatten(batches[..i + 1]) == Chunks.Flatten(batches[..i]) + batches[i]
  {
    var one := [batches[i]];
    assert Chunks.Flatten(one) == batches[i] by {
      assert one[1..] == [] && one[0] + [] == one[0];
    }
    Chunks.FlattenConcat(batches[..i], one);
    assert batches[..i + 1] == batches[..i] + one;
  }

  lemma FlattenCut<T>(batches: seq<seq<T>>, i: nat)
    requires i <= |batches|
    ensures Chunks.Flatten(batches) == Chunks.Flatten(batches[..i]) + Chunks.Flatten(batches[i..])
  {
    Chunks.FlattenConcat(batches[..i], batches[i..]);
    assert batches == batches[..i] + batches[i..];
  }

  lemma NextBatch<T>(batches: seq<seq<T>>, i: nat)
    requires i < |batches|
    ensures Chunks.Flatten(batches[..i + 1]) == Chunks.Flatten(batches[..i]) + batches[i]
    ensures Chunks.Flatten(batches) == Chunks.Flatten(batches[..i]) + batches[i] + Chunks.Flatten(batches[i + 1..])
  {
    FlattenOneMore(batches, i);
    FlattenCut(batches, i + 1);
  }

  lemma CollectMore(decode: Decode, w: World, plan: seq<Read>, path: Id, n: nat)
    requires path in w.files && path in w.contents && path !in Collect(decode, w, plan).working
    ensures var c, a := Collect(decode, w, plan), Advance(decode, path, w.contents[path], w.files[path], n);
            Collect(decode, w, plan + [Read(path, n)]) == Collected(c.working[path := a.entry], c.records + a.records)
  {
    assert (plan + [Read(path, n)])[..|plan|] == plan;
  }

  class Service {
    var files: map<Id, Entry>
    var disk: map<Id, Entry>
    ghost var contents: map<Id, Bytes>
    ghost var sent: set<Sent>
    ghost var settled: set<Sent>
    ghost var posts: seq<Post>

    ghost function Now(): World
      reads this
    {
      World(contents, files, disk, sent, settled)
    }

    /**
      `collect`: read the files in turn, on copies, until a budget is used up. A complete pass has read
      every file to its end, but for those that could not be read.
    */
    method CollectAll(decode: Decode, order: seq<Id>, found: map<Id, Bytes>)
      returns (working: map<Id, Entry>, records: seq<Sent>, complete: bool, failed: set<Id>, ghost plan: seq<Read>)
      requires found == contents
      ensures Collected(working, records) == Collect(decode, Now(), plan)
      ensures complete ==> forall i :: 0 <= i < |order| && order[i] !in failed ==>
              ReadToEnd(decode, order[i], files, found, working)
      ensures OnlyGrown(files, found, working)
    {
      working, records, complete, failed, plan := map[], [], true, {}, [];
      var used := 0;
      ghost var seen: set<Id> := {};
      for i := 0 to |order|
        invariant Collected(working, records) == Collect(decode, Now(), plan)
        invariant OnlyGrown(files, found, working)
        invariant working.Keys <= seen && forall k :: 0 <= k < i ==> order[k] in seen
        invariant |records| < MAX_RECORDS && used < PASS_BYTES ==> AllRead(decode, seen, failed, files, found, working)
      {
        if |records| >= MAX_RECORDS || used >= PASS_BYTES {
          complete := false;
          return;
        }
        var path := order[i];
        if path in files && path in found && path !in working && files[path].offset < |found[path]| {
          var now, size, status, n :=
            ReadFile(decode, path, found[path], files[path], MAX_RECORDS - |records|, PASS_BYTES - used);
          CollectMore(decode, Now(), plan, path, n);
          if status == Error {
            AllReadError(decode, seen, failed, files, found, working, path, now.entry);
            failed := failed + {path};
          } else if status == End {
            AllReadMore(decode, seen, failed, files, found, working, path, now.entry);
          }
          working, records, used, plan := working[path := now.entry], records + now.records, used + size,
            plan + [Read(path, n)];
        }
        seen := seen + {path};
      }
      complete := |records| < MAX_RECORDS && used < PASS_BYTES;
    }

    /**
      `_deliver`: batch after batch until one is neither accepted nor finally refused. An expired
      credential is noted in state.json, which saves the entries as they were committed before.
    */
    method Deliver(size: seq<Sent> -> nat, records: seq<Sent>)
      returns (outcome: Outcome, kept: bool, ghost posted: nat, ghost done: nat)
      modifies this`sent, this`settled, this`disk, this`posts
      ensures old(posts) <= posts
      ensures var more, batches := posts[|old(posts)|..], Chunks.Batches(size, records);
              && PostsInOrder(more, batches) && EndsAs(outcome, more, batches)
              && Posted(old(Now()), Now(), more)
              && (kept ==> more != [] && more[|more| - 1].answer == Answered(401))
      ensures disk == (if kept then files else old(disk))
      ensures done <= posted <= |records| && (outcome == Ok ==> done == |records|)
      ensures sent == old(sent) + Elements(records[..posted]) && settled == old(settled) + Elements(records[..done])
    {
      var batches := Chunks.ChunkBodies(size, records);
      ghost var more: seq<Post>;
      var expired;
      outcome, expired, more := PostAll(batches);
      var saved: bool := *;
      kept := expired && saved;
      if kept {
        disk := files;
      }
      sent, settled, posts := sent + SentBy(more), settled + SettledBy(more), posts + more;
      assert posts[|old(posts)|..] == more;
      posted, done := PostedRecords(more, batches, records);
    }

    /**
      One pass of `step`: collect, deliver everything, and only then, if any file moved, commit and
      save. After a complete pass every file that could be read is committed to its end.
    */
    method OnePass(decode: Decode, size: seq<Sent> -> nat, order: seq<Id>, found: map<Id, Bytes>)
      returns (ok: bool, complete: bool, collected: bool, failed: set<Id>, ghost actions: seq<Action>)
      requires found == contents
      modifies this
      ensures old(posts) <= posts
      ensures var more := posts[|old(posts)|..];
              && Posted(old(Now()), Now(), more)
              && (ok || files != old(files) ==> AllFinal(more))
      ensures Now() == Run(decode, old(Now()), actions)
      ensures |actions| == 1 || (|actions| == 2 && actions[1] == Save && !ok && files == old(files))
      ensures actions[0].Pass?
      ensures ok && collected ==> disk == files
      ensures ok && !collected ==> disk == old(disk) && files == old(files)
      ensures ok && complete ==>
                forall i :: 0 <= i < |order| && order[i] !in failed ==>
                  ReadToEnd(decode, order[i], old(files), found, files)
      ensures files.Keys == old(files).Keys && OthersStay(old(files), found, files) && contents == old(contents)
    {
      var working, records, all, unread, plan := CollectAll(decode, order, found);
      complete, collected, failed := all, working != map[], unread;
      GrownCommitted(files, found, working);
      ghost var before := Now();
      var outcome, kept, posted, done := Deliver(size, records);
      var delivered := outcome == Ok;
      var alive: bool := *;
      var saved: bool := *;
      actions := [Pass(plan, posted, done, delivered && alive, saved)] + if kept then [Save] else [];
      RunOneOrTwo(decode, before, actions);
      assert records[..|records|] == records;
      ok := delivered && alive && (saved || !collected);
      if delivered && alive && collected {
        files := files + working;
        if saved {
          disk := files;
        }
      }
    }

    /**
      `step`: up to 16 passes while catching up. It ends before them only with a pass that failed or was
      complete; after a complete one every file that could be read is committed to its last complete line.
    */
    method Step(decode: Decode, size: seq<Sent> -> nat, order: seq<Id>, found: map<Id, Bytes>)
      returns (ok: bool, complete: bool, failed: set<Id>, ghost actions: seq<Action>, ghost passes: seq<bool>)
      requires found == contents && Invariant(decode, Now())
      modifies this
      ensures old(posts) <= posts
      ensures Stepped(decode, old(Now()), Now(), actions, posts[|old(posts)|..]) && Invariant(decode, Now())
      ensures 0 < |actions| && 1 <= |passes| <= 16 && passes[|passes| - 1] == (!ok || complete)
      ensures forall i :: 0 <= i < |passes| - 1 ==> !passes[i]
      ensures |passes| < 16 ==> !ok || complete
      ensures ok && complete ==>
                forall i :: 0 <= i < |order| && order[i] !in failed ==> CaughtUp(order[i], files, found)
    {
      ok, complete, failed, actions, passes := true, false, {}, [], [];
      ghost var before, more := Now(), [];
      for i := 0 to MAX_PASSES
        invariant found == contents && posts == old(posts) + more && Invariant(decode, Now())
        invariant Stepped(decode, before, Now(), actions, more) && (i > 0 ==> 0 < |actions|)
        invariant |passes| == i && (forall k :: 0 <= k < i ==> !passes[k]) && ok && !complete
      {
        ghost var earlier, reached := posts, Now();
        ghost var further;
        var collected;
        ok, complete, collected, failed, further := OnePass(decode, size, order, found);
        ghost var latest := posts[|earlier|..];
        SteppedMore(decode, before, reached, Now(), actions, further, more, latest);
        RunKeeps(decode, reached, further);
        actions, more, passes := actions + further, more + latest, passes + [!ok || complete];
        if !ok || complete {
          AllCaughtUp(decode, order, failed, reached.files, found, files, reached.settled, ok && complete);
          break;
        }
      }
      assert posts[|old(posts)|..] == more;
    }
  }

  lemma AllCaughtUp(decode: Decode, order: seq<Id>, failed: set<Id>, files: map<Id, Entry>, found: map<Id, Bytes>,
                    after: map<Id, Entry>, settled: set<Sent>, complete: bool)
    requires AllCovered(decode, found, files, settled) && after.Keys == files.Keys && OthersStay(files, found, after)
    requires complete ==> forall i :: 0 <= i < |order| && order[i] !in failed ==>
               ReadToEnd(decode, order[i], files, found, after)
    ensures complete ==> forall i :: 0 <= i < |order| && order[i] !in failed ==> CaughtUp(order[i], after, found)
  {
    forall i | complete && 0 <= i < |order| && order[i] !in failed ensures CaughtUp(order[i], after, found) {
      FileCatchesUp(decode, order[i], files, found, after, settled);
    }
  }

  /** Passes, each perhaps followed by a save, lead from one moment to the other, and these are their posts. */
  ghost predicate Stepped(decode: Decode, w: World, t: World, actions: seq<Action>, posts: seq<Post>) {
    && t == Run(decode, w, actions) && Posted(w, t, posts)
    && (forall i :: 0 <= i < |actions| ==> actions[i].Pass? || actions[i].Save?)
    && (actions != [] ==> actions[0].Pass?)
  }

  lemma SteppedMore(decode: Decode, w: World, t: World, u: World, first: seq<Action>, second: seq<Action>, a: seq<Post>,
                    b: seq<Post>)
    requires Stepped(decode, w, t, first, a) && Stepped(decode, t, u, second, b)
    ensures Stepped(decode, w, u, first + second, a + b)
  {
    RunConcat(decode, w, first, second);
    PostedConcat(w, t, u, a, b);
  }

  lemma {:induction false} RunConcat(decode: Decode, w: World, first: seq<Action>, second: seq<Action>)
    ensures Run(decode, w, first + second) == Run(decode, Run(decode, w, first), second)
    decreases |first|
  {
    if first == [] {
      assert first + second == second;
    } else {
      assert (first + second)[1..] == first[1..] + second;
      RunConcat(decode, Apply(decode, w, first[0]), first[1..], second);
    }
  }

  lemma RunOneOrTwo(decode: Decode, w: World, actions: seq<Action>)
    requires 1 <= |actions| <= 2
    ensures var t := Apply(decode, w, actions[0]);
            Run(decode, w, actions) == if |actions| == 1 then t else Apply(decode, t, actions[1])
  {
    if |actions| == 2 {
      var rest, t := actions[1..], Apply(decode, w, actions[0]);
      assert Run(decode, t, rest) == Run(decode, Apply(decode, t, rest[0]), rest[1..]);
    } else {
      assert actions[1..] == [];
    }
  }
}
