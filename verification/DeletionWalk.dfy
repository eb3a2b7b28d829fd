/**
  The iterative directory walks that delete a tree: `do_remove_home`
  (dashboard/provisioner/attached-workspace.py) and `remove_tree` (attached-agent.py). Both keep an
  explicit stack of open directories and a list of names still to be removed from their parents;
  here they are shown to refine the recursive post-order deletion `Clear`. No one else writes, and
  system calls fail only for the reasons modelled.
*/
module DeletionWalk {
  import opened Common

  type Name = int

  /** A directory lists its entries in name order. `mounted` marks a name something is mounted on. */
  datatype Node =
    | Leaf(name: Name, device: int, mounted: bool)
    | Dir(name: Name, device: int, mounted: bool, entries: seq<Node>)

  datatype Failure = MountFound | TooDeep | TooLarge | Busy | NotDirectory | Running

  /** What a walk refuses: depth, size, and mounts of the same device (openat2 with RESOLVE_NO_XDEV). */
  datatype Policy = Policy(maxDepth: Option<nat>, maxEntries: Option<nat>, refuseMounts: bool)

  const MAX_DEPTH := 128
  const MAX_ENTRIES := 250_000
  const HOME_POLICY := Policy(Some(MAX_DEPTH), Some(MAX_ENTRIES), true)
  const TREE_POLICY := Policy(None, None, false)

  /** What is left of a directory, how many nodes were removed so far, and why it stopped, if it did. */
  datatype Result = Result(left: seq<Node>, removed: nat, failure: Option<Failure>)

  predicate Over(limit: Option<nat>, n: nat) {
    limit.Some? && n > limit.value
  }

  /** Recursive post-order deletion of a directory's entries, last name first. */
  function Clear(policy: Policy, device: int, entries: seq<Node>, depth: nat, removed: nat): Result
    decreases entries
  {
    if entries == [] then Result([], removed, None)
    else
      var rest, last := entries[..|entries| - 1], entries[|entries| - 1];
      if last.device != device then Result(entries, removed, Some(MountFound))
      else if last.Leaf? then
        if last.mounted then Result(entries, removed, Some(Busy))
        else if Over(policy.maxEntries, removed + 1) then Result(rest, removed + 1, Some(TooLarge))
        else Clear(policy, device, rest, depth, removed + 1)
      else if Over(policy.maxDepth, depth + 1) then Result(entries, removed, Some(TooDeep))
      else if policy.refuseMounts && last.mounted then Result(entries, removed, Some(MountFound))
      else if Over(policy.maxEntries, removed) then Result(entries, removed, Some(TooLarge))
      else
        var inner := Clear(policy, device, last.entries, depth + 1, removed);
        if inner.failure.Some? then Result(rest + [Emptied(last, inner.left)], inner.removed, inner.failure)
        else if last.mounted then Result(rest + [Emptied(last, [])], inner.removed, Some(Busy))
        else Clear(policy, device, rest, depth, inner.removed + 1)
  }

  /** A directory entry whose contents are now `left`. */
  function Emptied(entry: Node, left: seq<Node>): Node {
    if entry.Dir? then entry.(entries := left) else entry
  }

  // ---- what the recursive deletion does ----

  function Size(entries: seq<Node>): nat
    decreases entries
  {
    if entries == [] then 0
    else Size(entries[..|entries| - 1]) + NodeSize(entries[|entries| - 1])
  }

  function NodeSize(node: Node): nat
    decreases node
  {
    1 + if node.Dir? then Size(node.entries) else 0
  }

  /** The node is somewhere in the tree, at any depth. */
  predicate Holds(entries: seq<Node>, node: Node)
    decreases entries
  {
    && entries != []
    && var last := entries[|entries| - 1];
       last == node || (last.Dir? && Holds(last.entries, node)) || Holds(entries[..|entries| - 1], node)
  }

  /** A node a walk must not touch: on another device, or something it does not look into is mounted on it. */
  predicate Untouchable(policy: Policy, device: int, node: Node) {
    node.device != device || (node.mounted && (node.Leaf? || policy.refuseMounts))
  }

  /** Every node is on the device, none is a mount point, and no directory lies too deep. */
  predicate Removable(policy: Policy, device: int, entries: seq<Node>, depth: nat)
    decreases entries
  {
    entries == [] ||
    var node := entries[|entries| - 1];
    && Removable(policy, device, entries[..|entries| - 1], depth)
    && node.device == device && !node.mounted
    && (node.Dir? ==>
          !Over(policy.maxDepth, depth + 1) && Removable(policy, device, node.entries, depth + 1))
  }

  /** The count at the last size check: the directories around the very last name are not counted yet. */
  function LastCount(entries: seq<Node>, removed: nat): nat
    decreases entries
  {
    if entries == [] then removed
    else
      var rest, last := entries[..|entries| - 1], entries[|entries| - 1];
      if rest != [] then LastCount(rest, removed + NodeSize(last))
      else if last.Leaf? then removed + 1
      else LastCount(last.entries, removed)
  }

  /** A deletion that succeeds leaves nothing and reports exactly the number of nodes. */
  lemma ClearRemovesAll(policy: Policy, device: int, entries: seq<Node>, depth: nat, removed: nat)
    ensures var r := Clear(policy, device, entries, depth, removed);
            && (r.failure == None ==> r.left == [] && r.removed == removed + Size(entries))
            && removed <= r.removed <= removed + Size(entries)
            && Size(r.left) == removed + Size(entries) - r.removed
  {
    ClearEmpties(policy, device, entries, depth, removed);
    ClearCounts(policy, device, entries, depth, removed);
  }

  lemma {:induction false} ClearEmpties(policy: Policy, device: int, entries: seq<Node>, depth: nat, removed: nat)
    ensures var r := Clear(policy, device, entries, depth, removed); r.failure == None ==> r.left == []
    decreases entries
  {
    if entries != [] {
      var rest, last := entries[..|entries| - 1], entries[|entries| - 1];
      if last.Dir? {
        var inner := Clear(policy, device, last.entries, depth + 1, removed);
        ClearEmpties(policy, device, rest, depth, inner.removed + 1);
      } else {
        ClearEmpties(policy, device, rest, depth, removed + 1);
      }
    }
  }

  lemma {:induction false} ClearCounts(policy: Policy, device: int, entries: seq<Node>, depth: nat, removed: nat)
    ensures var r := Clear(policy, device, entries, depth, removed);
            removed <= r.removed && Size(r.left) + r.removed == removed + Size(entries)
    decreases entries
  {
    if entries != [] {
      var rest, last := entries[..|entries| - 1], entries[|entries| - 1];
      if last.Dir? {
        var inner := Clear(policy, device, last.entries, depth + 1, removed);
        ClearCounts(policy, device, last.entries, depth + 1, removed);
        ClearEmpties(policy, device, last.entries, depth + 1, removed);
        ClearCounts(policy, device, rest, depth, inner.removed + 1);
        SizeSnoc(rest, Emptied(last, inner.left));
      } else {
        ClearCounts(policy, device, rest, depth, removed + 1);
      }
    }
  }

  lemma SizeSnoc(entries: seq<Node>, entry: Node)
    ensures Size(entries + [entry]) == Size(entries) + NodeSize(entry)
  {
    assert (entries + [entry])[..|entries|] == entries;
  }

  lemma HoldsSnoc(entries: seq<Node>, entry: Node, node: Node)
    ensures Holds(entries + [entry], node)
            <==> entry == node || (entry.Dir? && Holds(entry.entries, node)) || Holds(entries, node)
  {
    assert (entries + [entry])[..|entries|] == entries;
  }

  /** A node that must not be touched forces a failure wherever it lies, and is still there, contents and all. */
  lemma {:induction false} UntouchableStays(policy: Policy, device: int, entries: seq<Node>, depth: nat, removed: nat,
                                            node: Node)
    requires Holds(entries, node) && Untouchable(policy, device, node)
    ensures var r := Clear(policy, device, entries, depth, removed); r.failure.Some? && Holds(r.left, node)
    decreases entries
  {
    var rest, last := entries[..|entries| - 1], entries[|entries| - 1];
    if last.Leaf? {
      if last != node {
        UntouchableStays(policy, device, rest, depth, removed + 1, node);
      }
    } else {
      var inner := Clear(policy, device, last.entries, depth + 1, removed);
      HoldsSnoc(rest, Emptied(last, inner.left), node);
      HoldsSnoc(rest, Emptied(last, []), node);
      if last != node && Holds(last.entries, node) {
        UntouchableStays(policy, device, last.entries, depth + 1, removed, node);
      } else if last != node {
        UntouchableStays(policy, device, rest, depth, inner.removed + 1, node);
      }
    }
  }

  /** How many directories lie inside each other, at most. */
  function Nested(entries: seq<Node>): nat
    decreases entries
  {
    if entries == [] then 0
    else
      var rest, last := Nested(entries[..|entries| - 1]), entries[|entries| - 1];
      var inner := if last.Dir? then 1 + Nested(last.entries) else 0;
      if rest > inner then rest else inner
  }

  /**
    What the failure says of what is left: a mount found, or a name that is busy, is there to see; too
    deep and too large are so by the depth and the count.
  */
  ghost predicate Explains(policy: Policy, device: int, left: seq<Node>, depth: nat, removed: nat, why: Failure) {
    match why
    case MountFound =>
      exists node :: Holds(left, node)
                     && (node.device != device || (policy.refuseMounts && node.Dir? && node.mounted))
    case Busy =>
      exists node :: Holds(left, node) && node.device == device && node.mounted
                     && (node.Leaf? || (node.entries == [] && !policy.refuseMounts))
    case TooDeep => Over(policy.maxDepth, depth + Nested(left))
    case TooLarge => Over(policy.maxEntries, removed)
    case NotDirectory => false
    case Running => false
  }

  lemma ExplainsAround(policy: Policy, device: int, rest: seq<Node>, entry: Node, depth: nat, removed: nat,
                       why: Failure)
    requires entry.Dir? && Explains(policy, device, entry.entries, depth + 1, removed, why)
    ensures Explains(policy, device, rest + [entry], depth, removed, why)
  {
    forall node | Holds(entry.entries, node) ensures Holds(rest + [entry], node) {
      HoldsSnoc(rest, entry, node);
    }
    assert (rest + [entry])[..|rest|] == rest;
    match why {
      case MountFound =>
        var node :| Holds(entry.entries, node)
                    && (node.device != device || (policy.refuseMounts && node.Dir? && node.mounted));
        assert Holds(rest + [entry], node);
      case Busy =>
        var node :| Holds(entry.entries, node) && node.device == device && node.mounted
                    && (node.Leaf? || (node.entries == [] && !policy.refuseMounts));
        assert Holds(rest + [entry], node);
      case _ =>
    }
  }

  /** Every failure of a deletion is the one that what it leaves explains. */
  lemma {:induction false} FailureIsExplained(policy: Policy, device: int, entries: seq<Node>, depth: nat, removed: nat)
    ensures var r := Clear(policy, device, entries, depth, removed);
            r.failure.Some? ==> Explains(policy, device, r.left, depth, r.removed, r.failure.value)
    decreases entries
  {
    if entries != [] {
      var rest, last := entries[..|entries| - 1], entries[|entries| - 1];
      assert Holds(entries, last);
      if last.Leaf? {
        FailureIsExplained(policy, device, rest, depth, removed + 1);
      } else {
        var inner := Clear(policy, device, last.entries, depth + 1, removed);
        if inner.failure.Some? {
          FailureIsExplained(policy, device, last.entries, depth + 1, removed);
          ExplainsAround(policy, device, rest, Emptied(last, inner.left), depth, inner.removed, inner.failure.value);
        } else {
          HoldsSnoc(rest, Emptied(last, []), Emptied(last, []));
          FailureIsExplained(policy, device, rest, depth, inner.removed + 1);
        }
      }
    }
  }

  lemma {:induction false} LastCountBounds(entries: seq<Node>, removed: nat)
    ensures removed <= LastCount(entries, removed) <= removed + Size(entries)
    ensures entries != [] && entries[|entries| - 1].Leaf? ==> removed < LastCount(entries, removed)
    decreases entries
  {
    if entries != [] {
      var rest, last := entries[..|entries| - 1], entries[|entries| - 1];
      if rest != [] {
        LastCountBounds(rest, removed + NodeSize(last));
      } else if last.Dir? {
        LastCountBounds(last.entries, removed);
      }
    }
  }

  predicate Within(policy: Policy, entries: seq<Node>, removed: nat) {
    entries == [] || !Over(policy.maxEntries, LastCount(entries, removed))
  }

  /**
    A deletion succeeds exactly when every node is on the device, none is a mount point, no directory
    is too deep, and the count at the last size check is within the limit.
  */
  lemma {:induction false} ClearSucceeds(policy: Policy, device: int, entries: seq<Node>, depth: nat, removed: nat)
    ensures Clear(policy, device, entries, depth, removed).failure == None
            <==> Removable(policy, device, entries, depth) && Within(policy, entries, removed)
    decreases entries
  {
    if entries != [] {
      var rest, last := entries[..|entries| - 1], entries[|entries| - 1];
      LastCountBounds(entries, removed);
      if last.Leaf? {
        ClearSucceeds(policy, device, rest, depth, removed + 1);
      } else {
        ClearSucceeds(policy, device, last.entries, depth + 1, removed);
        ClearRemovesAll(policy, device, last.entries, depth + 1, removed);
        LastCountBounds(last.entries, removed);
        LastCountBounds(rest, removed + NodeSize(last));
        ClearSucceeds(policy, device, rest, depth, removed + NodeSize(last));
      }
    }
  }

  // ---- the walk ----

  function Names(entries: seq<Node>): seq<Name> {
    seq(|entries|, i requires 0 <= i < |entries| => entries[i].name)
  }

  /** The entry a name stands for in a directory; names are unique there. */
  function Stat(entries: seq<Node>, name: Name): Node
    requires name in Names(entries)
  {
    var last := entries[|entries| - 1];
    if last.name == name then last
    else
      assert forall i :: 0 <= i < |entries| - 1 ==> Names(entries[..|entries| - 1])[i] == Names(entries)[i];
      Stat(entries[..|entries| - 1], name)
  }

  /** `os.unlink` or `os.rmdir` of a name: the entries without it. */
  function Remove(entries: seq<Node>, name: Name): seq<Node> {
    if entries == [] then []
    else
      var rest, last := entries[..|entries| - 1], entries[|entries| - 1];
      if last.name == name then rest else Remove(rest, name) + [last]
  }

  /**
    The open directories, outermost first, each with its present entries; the last entry of every
    one but the innermost is the directory opened after it, whose own entries are on the next level.
  */
  type Tables = seq<seq<Node>>

  predicate Chain(tables: Tables) {
    forall i :: 0 <= i < |tables| - 1 ==> tables[i] != [] && tables[i][|tables[i]| - 1].Dir?
  }

  function Top(tables: Tables): seq<Node>
    requires tables != []
  {
    tables[|tables| - 1]
  }

  /** The outermost directory as it is on disk: each open directory put back into its parent. */
  function Rebuild(tables: Tables): seq<Node>
    requires tables != [] && Chain(tables)
    decreases |tables|
  {
    if |tables| == 1 then tables[0]
    else
      var n := |tables|;
      var parent := tables[n - 2];
      var last := parent[|parent| - 1];
      Rebuild(tables[..n - 2] + [parent[..|parent| - 1] + [Emptied(last, tables[n - 1])]])
  }

  /** What the recursive deletion still does from here: the innermost directory, then each parent in turn. */
  function Resume(policy: Policy, device: int, tables: Tables, removed: nat): Result
    requires tables != [] && Chain(tables)
    decreases |tables|
  {
    var n := |tables|;
    var r := Clear(policy, device, Top(tables), n - 1, removed);
    if r.failure.Some? || n == 1 then Result(Rebuild(tables[n - 1 := r.left]), r.removed, r.failure)
    else
      var outer, parent := tables[..n - 1], tables[n - 2];
      var rest, last := parent[..|parent| - 1], parent[|parent| - 1];
      if last.mounted then Result(Rebuild(outer[n - 2 := rest + [Emptied(last, [])]]), r.removed, Some(Busy))
      else Resume(policy, device, outer[n - 2 := rest], r.removed + 1)
  }

  /** The innermost directory's last entry is a removable leaf: remove it and go on. */
  lemma ResumeLeaf(policy: Policy, device: int, tables: Tables, removed: nat)
    requires tables != [] && Chain(tables) && Top(tables) != []
             && Top(tables)[|Top(tables)| - 1] == Leaf(Top(tables)[|Top(tables)| - 1].name, device, false)
    requires !Over(policy.maxEntries, removed + 1)
    ensures var n, top := |tables|, Top(tables);
            Chain(tables[n - 1 := top[..|top| - 1]])
            && Resume(policy, device, tables, removed)
               == Resume(policy, device, tables[n - 1 := top[..|top| - 1]], removed + 1)
  {
    var n, top := |tables|, Top(tables);
    var next := tables[n - 1 := top[..|top| - 1]];
    assert next[..n - 1] == tables[..n - 1];
    var r := Clear(policy, device, Top(next), n - 1, removed + 1);
    assert next[n - 1 := r.left] == tables[n - 1 := r.left];
  }

  /** Its last entry is a directory the walk descends into. */
  predicate Opens(policy: Policy, device: int, tables: Tables, removed: nat)
    requires tables != []
  {
    && Top(tables) != []
    && var last := Top(tables)[|Top(tables)| - 1];
       && last.Dir? && last.device == device && !Over(policy.maxDepth, |tables|)
       && !(policy.refuseMounts && last.mounted) && !Over(policy.maxEntries, removed)
  }

  lemma ResumeOpenFails(policy: Policy, device: int, tables: Tables, removed: nat)
    requires tables != [] && Chain(tables) && Opens(policy, device, tables, removed)
    requires Clear(policy, device, Top(tables)[|Top(tables)| - 1].entries, |tables|, removed).failure.Some?
    ensures var last := Top(tables)[|Top(tables)| - 1];
            Chain(tables + [last.entries])
            && Resume(policy, device, tables, removed) == Resume(policy, device, tables + [last.entries], removed)
  {
    var n, top := |tables|, Top(tables);
    var rest, last := top[..|top| - 1], top[|top| - 1];
    var deeper := tables + [last.entries];
    var inner := Clear(policy, device, last.entries, n, removed);
    var open := deeper[n := inner.left];
    assert open[..n - 1] == tables[..n - 1] && open[n - 1] == top;
    assert tables[n - 1 := rest + [Emptied(last, inner.left)]] == open[..n - 1] + [rest + [Emptied(last, inner.left)]];
  }

  /** Open the directory, and go on inside. */
  lemma ResumeOpen(policy: Policy, device: int, tables: Tables, removed: nat)
    requires tables != [] && Chain(tables) && Opens(policy, device, tables, removed)
    ensures var last := Top(tables)[|Top(tables)| - 1];
            Chain(tables + [last.entries])
            && Resume(policy, device, tables, removed) == Resume(policy, device, tables + [last.entries], removed)
  {
    var n, top := |tables|, Top(tables);
    var rest, last := top[..|top| - 1], top[|top| - 1];
    var deeper := tables + [last.entries];
    var inner := Clear(policy, device, last.entries, n, removed);
    assert deeper[..n] == tables;
    if inner.failure.Some? {
      ResumeOpenFails(policy, device, tables, removed);
    } else if !last.mounted {
      var next := tables[n - 1 := rest];
      var r := Clear(policy, device, rest, n - 1, inner.removed + 1);
      assert next[n - 1 := r.left] == tables[n - 1 := r.left];
      assert next[..n - 1] == tables[..n - 1];
    }
  }

  // ---- the loop ----

  /**
    The walk's variables: the open directories, the names still to visit in each, and the names to
    remove when empty.
  */
  datatype Progress = Progress(tables: Tables, names: seq<seq<Name>>, pending: seq<Name>, removed: nat)

  /** What is left to visit in the directories around the innermost one. */
  ghost function Outside(tables: Tables): nat {
    if tables == [] then 0
    else
      var table := tables[|tables| - 1];
      Outside(tables[..|tables| - 1]) + 1 + if table == [] then 0 else 2 * Size(table[..|table| - 1])
  }

  ghost function Work(tables: Tables): nat {
    if tables == [] then 0 else Outside(tables[..|tables| - 1]) + 1 + 2 * Size(Top(tables))
  }

  /** An outer directory is missing exactly the pending name from its list. */
  ghost predicate PairedOuter(table: seq<Node>, names: seq<Name>, pending: Name) {
    table != [] && table[|table| - 1].name == pending && names == Names(table[..|table| - 1])
  }

  /** The pending names are the open directories' own names, and each list is what its directory still holds. */
  ghost predicate Paired(p: Progress) {
    && p.tables != [] && Chain(p.tables)
    && |p.names| == |p.tables| == |p.pending| + 1
    && p.names[|p.pending|] == Names(Top(p.tables))
    && forall i :: 0 <= i < |p.pending| ==> PairedOuter(p.tables[i], p.names[i], p.pending[i])
  }

  lemma NamesSnoc(entries: seq<Node>)
    requires entries != []
    ensures var k := |entries| - 1;
            && |Names(entries)| == k + 1
            && Names(entries)[k] == entries[k].name
            && Names(entries)[..k] == Names(entries[..k])
  {
  }

  lemma OpenWork(tables: Tables)
    requires tables != [] && Top(tables) != [] && Top(tables)[|Top(tables)| - 1].Dir?
    ensures Work(tables + [Top(tables)[|Top(tables)| - 1].entries]) < Work(tables)
  {
    var top := Top(tables);
    assert (tables + [top[|top| - 1].entries])[..|tables|] == tables;
    assert Size(top) == Size(top[..|top| - 1]) + 1 + Size(top[|top| - 1].entries);
  }

  lemma ShrinkWork(tables: Tables)
    requires tables != [] && Top(tables) != []
    ensures Work(tables[|tables| - 1 := Top(tables)[..|Top(tables)| - 1]]) < Work(tables)
  {
    var n := |tables|;
    assert tables[n - 1 := Top(tables)[..|Top(tables)| - 1]][..n - 1] == tables[..n - 1];
    assert Size(Top(tables)) >= Size(Top(tables)[..|Top(tables)| - 1]) + 1;
  }

  /** The table of the parent once the innermost directory is gone. */
  function Dropped(tables: Tables): Tables
    requires |tables| > 1 && Chain(tables)
  {
    var n := |tables|;
    tables[..n - 2] + [tables[n - 2][..|tables[n - 2]| - 1]]
  }

  lemma CloseWork(tables: Tables)
    requires |tables| > 1 && Chain(tables) && Top(tables) == []
    ensures Chain(Dropped(tables)) && Work(Dropped(tables)) < Work(tables)
  {
    var n := |tables|;
    assert Dropped(tables)[..n - 2] == tables[..n - 1][..n - 2] == tables[..n - 2];
  }

  lemma ResumeClose(policy: Policy, device: int, tables: Tables, removed: nat)
    requires |tables| > 1 && Chain(tables) && Top(tables) == []
             && !tables[|tables| - 2][|tables[|tables| - 2]| - 1].mounted
    ensures Chain(Dropped(tables))
    ensures Resume(policy, device, tables, removed) == Resume(policy, device, Dropped(tables), removed + 1)
  {
    var n := |tables|;
    assert tables[..n - 1][n - 2 := tables[n - 2][..|tables[n - 2]| - 1]] == Dropped(tables);
  }

  /** A step keeps the pairing, and what the recursive deletion would still do from here. */
  ghost predicate Advances(policy: Policy, device: int, p: Progress, q: Progress) {
    && Paired(p) && Paired(q) && Work(q.tables) < Work(p.tables)
    && Resume(policy, device, q.tables, q.removed) == Resume(policy, device, p.tables, p.removed)
  }

  /** A step that stops leaves on disk what the recursive deletion leaves. */
  ghost predicate Stops(policy: Policy, device: int, p: Progress, q: Progress, failure: Option<Failure>) {
    && Paired(p) && q.tables != [] && Chain(q.tables)
    && Resume(policy, device, p.tables, p.removed) == Result(Rebuild(q.tables), q.removed, failure)
  }

  lemma CloseAdvances(policy: Policy, device: int, p: Progress)
    requires Paired(p) && Top(p.tables) == [] && p.pending != []
    requires var parent := p.tables[|p.tables| - 2]; !parent[|parent| - 1].mounted
    ensures var n := |p.tables|;
            Advances(policy, device, p, Progress(Dropped(p.tables), p.names[..n - 1], p.pending[..n - 2],
                                                 p.removed + 1))
  {
    var n := |p.tables|;
    assert PairedOuter(p.tables[n - 2], p.names[n - 2], p.pending[n - 2]);
    CloseWork(p.tables);
    ResumeClose(policy, device, p.tables, p.removed);
  }

  lemma CloseStops(policy: Policy, device: int, p: Progress, left: Tables)
    requires Paired(p) && Top(p.tables) == [] && p.pending != []
    requires var parent := p.tables[|p.tables| - 2];
             && parent[|parent| - 1].mounted
             && left == p.tables[..|p.tables| - 2] + [parent[..|parent| - 1] + [Emptied(parent[|parent| - 1], [])]]
    ensures Stops(policy, device, p, p.(tables := left), Some(Busy))
  {
    var n := |p.tables|;
    assert left == p.tables[..n - 1][n - 2 := left[n - 2]];
  }

  /** The innermost list is empty: leave the directory and remove its name from the parent. */
  method CloseTop(policy: Policy, device: int, p: Progress) returns (q: Progress, failure: Option<Failure>)
    requires Paired(p) && p.names[|p.pending|] == [] && p.pending != []
    ensures failure == None ==> Advances(policy, device, p, q)
    ensures failure != None ==> Stops(policy, device, p, q, failure)
  {
    var n := |p.tables|;
    var parent, name := p.tables[n - 2], p.pending[n - 2];
    assert PairedOuter(parent, p.names[n - 2], name) && |Names(Top(p.tables))| == 0;
    NamesSnoc(parent);
    if Stat(parent, name).mounted {
      q := p.(tables := p.tables[..n - 2] + [Remove(parent, name) + [Emptied(Stat(parent, name), [])]]);
      CloseStops(policy, device, p, q.tables);
      return q, Some(Busy);
    }
    CloseAdvances(policy, device, p);
    q := Progress(p.tables[..n - 2] + [Remove(parent, name)], p.names[..n - 1], p.pending[..n - 2], p.removed + 1);
    failure := None;
  }

  lemma StopsHere(policy: Policy, device: int, p: Progress, left: seq<Node>, removed: nat, failure: Option<Failure>)
    requires Paired(p) && failure.Some?
    requires Clear(policy, device, Top(p.tables), |p.tables| - 1, p.removed) == Result(left, removed, failure)
    ensures Chain(p.tables[|p.tables| - 1 := left])
    ensures Stops(policy, device, p, p.(tables := p.tables[|p.tables| - 1 := left], removed := removed), failure)
  {
  }

  /** The lists with the innermost one's last name popped. */
  function Popped(names: seq<seq<Name>>): seq<seq<Name>>
    requires names != [] && names[|names| - 1] != []
  {
    var left := names[|names| - 1];
    names[|names| - 1 := left[..|left| - 1]]
  }

  lemma OpenAdvances(policy: Policy, device: int, p: Progress)
    requires Paired(p) && Opens(policy, device, p.tables, p.removed)
    ensures |Names(Top(p.tables))| > 0
    ensures var last := Top(p.tables)[|Top(p.tables)| - 1];
            Advances(policy, device, p,
                     p.(tables := p.tables + [last.entries], names := Popped(p.names) + [Names(last.entries)],
                     pending := p.pending + [last.name]))
  {
    NamesSnoc(Top(p.tables));
    ResumeOpen(policy, device, p.tables, p.removed);
    OpenWork(p.tables);
  }

  lemma UnlinkAdvances(policy: Policy, device: int, p: Progress)
    requires Paired(p) && Top(p.tables) != [] && !Over(policy.maxEntries, p.removed + 1)
    requires var last := Top(p.tables)[|Top(p.tables)| - 1]; last.Leaf? && last.device == device && !last.mounted
    ensures |Names(Top(p.tables))| > 0
    ensures var top := Top(p.tables);
            Advances(policy, device, p,
                     p.(tables := p.tables[|p.tables| - 1 := top[..|top| - 1]], names := Popped(p.names),
                     removed := p.removed + 1))
  {
    NamesSnoc(Top(p.tables));
    ResumeLeaf(policy, device, p.tables, p.removed);
    ShrinkWork(p.tables);
  }

  /** The next name is a directory of the device: open it, or refuse it. */
  method Descend(policy: Policy, device: int, p: Progress, info: Node) returns (q: Progress, failure: Option<Failure>)
    requires Paired(p) && Top(p.tables) != [] && Top(p.tables)[|Top(p.tables)| - 1] == info
    requires info.Dir? && info.device == device
    ensures failure == None ==> Advances(policy, device, p, q)
    ensures failure != None ==>
              && q == p
              && Clear(policy, device, Top(p.tables), |p.tables| - 1, p.removed)
                 == Result(Top(p.tables), p.removed, failure)
  {
    q, failure := p, None;
    if Over(policy.maxDepth, |p.tables|) {
      failure := Some(TooDeep);
    } else if policy.refuseMounts && info.mounted {
      failure := Some(MountFound);
    } else if Over(policy.maxEntries, p.removed) {
      failure := Some(TooLarge);
    } else {
      OpenAdvances(policy, device, p);
      q := p.(tables := p.tables + [info.entries], names := Popped(p.names) + [Names(info.entries)],
      pending := p.pending + [info.name]);
    }
  }

  /** Visit the next name of the innermost directory. */
  method Visit(policy: Policy, device: int, p: Progress) returns (q: Progress, failure: Option<Failure>)
    requires Paired(p) && p.names[|p.pending|] != []
    ensures failure == None ==> Advances(policy, device, p, q)
    ensures failure != None ==> Stops(policy, device, p, q, failure)
  {
    var n := |p.tables|;
    var top := p.tables[n - 1];
    var name := p.names[n - 1][|p.names[n - 1]| - 1];
    NamesSnoc(top);
    var info := Stat(top, name);
    q, failure := p, None;
    if info.device != device {
      failure := Some(MountFound);
    } else if info.Dir? {
      q, failure := Descend(policy, device, p, info);
    } else if info.mounted {
      failure := Some(Busy);
    } else {
      q := p.(tables := p.tables[n - 1 := Remove(top, name)], names := Popped(p.names), removed := p.removed + 1);
      if Over(policy.maxEntries, q.removed) {
        StopsHere(policy, device, p, Remove(top, name), q.removed, Some(TooLarge));
        return p.(tables := q.tables, removed := q.removed), Some(TooLarge);
      }
      UnlinkAdvances(policy, device, p);
    }
    if failure != None {
      StopsHere(policy, device, p, top, p.removed, failure);
      assert p.tables[n - 1 := top] == p.tables;
    }
  }

  /** The explicit-stack walk ends exactly like the recursive deletion: same remains, same count, same reason. */
  method Walk(policy: Policy, device: int, entries: seq<Node>) returns (r: Result)
    ensures r == Clear(policy, device, entries, 0, 0)
  {
    var p, failure := Progress([entries], [Names(entries)], [], 0), None;
    while p.pending != [] || p.names[|p.pending|] != []
      invariant Paired(p)
      invariant Resume(policy, device, p.tables, p.removed) == Clear(policy, device, entries, 0, 0)
      decreases Work(p.tables)
    {
      if p.names[|p.pending|] == [] {
        p, failure := CloseTop(policy, device, p);
      } else {
        p, failure := Visit(policy, device, p);
      }
      if failure != None {
        return Result(Rebuild(p.tables), p.removed, failure);
      }
    }
    assert |Names(Top(p.tables))| == 0;
    r := Result([], p.removed, None);
  }

  // ---- what lies below a mount point ----

  /** How many nodes lie strictly below a mount point. */
  function Under(entries: seq<Node>): nat
    decreases entries
  {
    if entries == [] then 0 else Under(entries[..|entries| - 1]) + UnderNode(entries[|entries| - 1])
  }

  function UnderNode(node: Node): nat
    decreases node
  {
    if node.Leaf? then 0 else if node.mounted then Size(node.entries) else Under(node.entries)
  }

  /** The first node a walk tries to remove can go: last entry of last entry, down to the bottom. */
  predicate Yields(device: int, entries: seq<Node>)
    decreases entries
  {
    && entries != []
    && var last := entries[|entries| - 1];
       && last.device == device
       && if last.Leaf? || last.entries == [] then !last.mounted else Yields(device, last.entries)
  }

  /** The first thing in the way of a walk is a mounted directory of the device, and a node below it goes. */
  predicate Crosses(device: int, entries: seq<Node>)
    decreases entries
  {
    && entries != []
    && var rest, last := entries[..|entries| - 1], entries[|entries| - 1];
       && last.device == device
       && if last.Leaf? then !last.mounted && Crosses(device, rest)
          else if last.mounted then Yields(device, last.entries)
          else Crosses(device, last.entries) || (Removable(TREE_POLICY, device, last.entries, 0)
                                                 && Crosses(device, rest))
  }

  lemma UnderSnoc(entries: seq<Node>, entry: Node)
    ensures Under(entries + [entry]) == Under(entries) + UnderNode(entry)
  {
    assert (entries + [entry])[..|entries|] == entries;
  }

  lemma {:induction false} RemovableAnyDepth(device: int, entries: seq<Node>, depth: nat)
    ensures Removable(TREE_POLICY, device, entries, depth) <==> Removable(TREE_POLICY, device, entries, 0)
    decreases entries
  {
    RemovableMeans(device, entries, depth);
    RemovableMeans(device, entries, 0);
  }

  lemma {:induction false} RemovableUnmounted(policy: Policy, device: int, entries: seq<Node>, depth: nat)
    requires Removable(policy, device, entries, depth)
    ensures Under(entries) == 0
    decreases entries
  {
    if entries != [] {
      var rest, last := entries[..|entries| - 1], entries[|entries| - 1];
      RemovableUnmounted(policy, device, rest, depth);
      if last.Dir? {
        RemovableUnmounted(policy, device, last.entries, depth + 1);
      }
    }
  }

  /** The walk removes something exactly when the first node it tries can go. */
  lemma {:induction false} RemovesIffYields(device: int, entries: seq<Node>, depth: nat, removed: nat)
    ensures Clear(TREE_POLICY, device, entries, depth, removed).removed > removed <==> Yields(device, entries)
    decreases entries
  {
    if entries != [] {
      var rest, last := entries[..|entries| - 1], entries[|entries| - 1];
      if last.Dir? {
        var inner := Clear(TREE_POLICY, device, last.entries, depth + 1, removed);
        RemovesIffYields(device, last.entries, depth + 1, removed);
        ClearRemovesAll(TREE_POLICY, device, last.entries, depth + 1, removed);
        ClearRemovesAll(TREE_POLICY, device, rest, depth, inner.removed + 1);
      } else {
        ClearRemovesAll(TREE_POLICY, device, rest, depth, removed + 1);
      }
    }
  }

  /**
    `remove_tree` says no mount is crossed. For every tree, a node below a mount point is removed
    exactly when the walk meets such a mount first and the first node it tries below it can go.
  */
  lemma {:induction false} MountsCrossedIff(device: int, entries: seq<Node>, depth: nat, removed: nat)
    ensures Under(Clear(TREE_POLICY, device, entries, depth, removed).left)
            <= Under(entries)
    ensures Under(Clear(TREE_POLICY, device, entries, depth, removed).left) < Under(entries) <==>
            Crosses(device, entries)
    decreases entries
  {
    if entries != [] {
      var rest, last := entries[..|entries| - 1], entries[|entries| - 1];
      if last.Leaf? {
        MountsCrossedIff(device, rest, depth, removed + 1);
      } else if last.device == device {
        CrossedDirectory(device, rest, last, depth, removed);
        if !last.mounted {
          var inner := Clear(TREE_POLICY, device, last.entries, depth + 1, removed);
          MountsCrossedIff(device, last.entries, depth + 1, removed);
          MountsCrossedIff(device, rest, depth, inner.removed + 1);
        }
      }
    }
  }

  /** What the deletion of one directory leaves below mount points. */
  lemma CrossedDirectory(device: int, rest: seq<Node>, last: Node, depth: nat, removed: nat)
    requires last.Dir? && last.device == device
    ensures var inner := Clear(TREE_POLICY, device, last.entries, depth + 1, removed);
            && Under(rest + [Emptied(last, inner.left)]) == Under(rest) + UnderNode(Emptied(last, inner.left))
            && (inner.failure == None ==> inner.left == [])
            && (inner.failure == None <==> Removable(TREE_POLICY, device, last.entries, 0))
            && (inner.failure == None ==> Under(last.entries) == 0)
            && (last.mounted ==> (Size(inner.left) < Size(last.entries) <==> Yields(device, last.entries)))
            && Size(inner.left) <= Size(last.entries)
  {
    var inner := Clear(TREE_POLICY, device, last.entries, depth + 1, removed);
    UnderSnoc(rest, Emptied(last, inner.left));
    ClearRemovesAll(TREE_POLICY, device, last.entries, depth + 1, removed);
    ClearSucceeds(TREE_POLICY, device, last.entries, depth + 1, removed);
    RemovableAnyDepth(device, last.entries, depth + 1);
    RemovesIffYields(device, last.entries, depth + 1, removed);
    if inner.failure == None {
      RemovableUnmounted(TREE_POLICY, device, last.entries, depth + 1);
    }
  }

  /** A walk that refuses mounts keeps the promise on every tree. */
  lemma {:induction false} RefusingSparesMounts(policy: Policy, device: int, entries: seq<Node>, depth: nat,
                                                removed: nat)
    requires policy.refuseMounts
    ensures Under(Clear(policy, device, entries, depth, removed).left) == Under(entries)
    decreases entries
  {
    if entries != [] {
      var rest, last := entries[..|entries| - 1], entries[|entries| - 1];
      if last.Dir? {
        var inner := Clear(policy, device, last.entries, depth + 1, removed);
        RefusingSparesMounts(policy, device, last.entries, depth + 1, removed);
        ClearRemovesAll(policy, device, last.entries, depth + 1, removed);
        RefusingSparesMounts(policy, device, rest, depth, inner.removed + 1);
        UnderSnoc(rest, Emptied(last, inner.left));
      } else {
        RefusingSparesMounts(policy, device, rest, depth, removed + 1);
      }
    }
  }

  // ---- the two callers ----

  datatype Outcome = Absent | Gone(removed: nat) | Failed(why: Failure)

  /** `name` now holds `node` in the directory. */
  function Updated(entries: seq<Node>, name: Name, node: Node): seq<Node> {
    if entries == [] then []
    else
      var rest, last := entries[..|entries| - 1], entries[|entries| - 1];
      if last.name == name then rest + [node] else Updated(rest, name, node) + [last]
  }

  /** The whole named tree can go: a directory and not a mount point, and so for everything in it. */
  predicate TreeGoes(policy: Policy, top: Node) {
    && top.Dir? && !top.mounted
    && Removable(policy, top.device, top.entries, 0) && Within(policy, top.entries, 0)
  }

  /** Deleting the tree removes a node below a mount point: of the tree's own mount, or of the first one in the way. */
  predicate TreeCrosses(top: Node) {
    top.Dir? && if top.mounted then Yields(top.device, top.entries) else Crosses(top.device, top.entries)
  }

  lemma TreeCrossedIff(top: Node)
    requires top.Dir?
    ensures var r := Clear(TREE_POLICY, top.device, top.entries, 0, 0);
            && UnderNode(top.(entries := r.left)) <= UnderNode(top)
            && (UnderNode(top.(entries := r.left)) < UnderNode(top) <==> TreeCrosses(top))
            && (r.failure == None && !top.mounted ==> UnderNode(top) == 0)
  {
    MountsCrossedIff(top.device, top.entries, 0, 0);
    RemovesIffYields(top.device, top.entries, 0, 0);
    ClearRemovesAll(TREE_POLICY, top.device, top.entries, 0, 0);
    ClearSucceeds(TREE_POLICY, top.device, top.entries, 0, 0);
    if Removable(TREE_POLICY, top.device, top.entries, 0) {
      RemovableUnmounted(TREE_POLICY, top.device, top.entries, 0);
    }
  }

  lemma {:induction false} UnderChanged(entries: seq<Node>, name: Name, node: Node)
    requires name in Names(entries)
    ensures Under(Remove(entries, name)) + UnderNode(Stat(entries, name)) == Under(entries)
    ensures Under(Updated(entries, name, node)) == Under(Remove(entries, name)) + UnderNode(node)
  {
    var rest, last := entries[..|entries| - 1], entries[|entries| - 1];
    if last.name == name {
      UnderSnoc(rest, node);
    } else {
      assert forall i :: 0 <= i < |rest| ==> Names(rest)[i] == Names(entries)[i];
      UnderChanged(rest, name, node);
      UnderSnoc(Remove(rest, name), last);
      UnderSnoc(Updated(rest, name, node), last);
    }
  }

  /** Everything untouchable below `top` is still below `left`. */
  ghost predicate Spares(policy: Policy, top: Node, left: Node) {
    top.Dir? ==> left.Dir? && forall node :: Holds(top.entries, node) && Untouchable(policy, top.device, node) ==>
      Holds(left.entries, node)
  }

  /** What the recursive deletion leaves of a tree. */
  function Left(policy: Policy, top: Node): Node
    requires top.Dir?
  {
    top.(entries := Clear(policy, top.device, top.entries, 0, 0).left)
  }

  lemma ClearSpares(policy: Policy, top: Node)
    requires top.Dir?
    ensures Spares(policy, top, Left(policy, top))
  {
    forall node | Holds(top.entries, node) && Untouchable(policy, top.device, node)
      ensures Holds(Clear(policy, top.device, top.entries, 0, 0).left, node)
    {
      UntouchableStays(policy, top.device, top.entries, 0, 0, node);
    }
  }

  /**
    `do_remove_home`: succeeds exactly when the whole home can go, removes exactly the named home and
    reports its node count; otherwise only the inside of that home may have shrunk.
  */
  method RemoveHome(homes: seq<Node>, name: Name, processes: nat) returns (after: seq<Node>, outcome: Outcome)
    ensures outcome.Absent? <==> processes == 0 && name !in Names(homes)
    ensures outcome.Gone? <==> processes == 0 && name in Names(homes) && TreeGoes(HOME_POLICY, Stat(homes, name))
    ensures outcome.Gone? ==> after == Remove(homes, name) && outcome.removed == NodeSize(Stat(homes, name))
    ensures !outcome.Gone? ==>
              after == homes
              || (name in Names(homes) && Stat(homes, name).Dir?
                  && after == Updated(homes, name, Left(HOME_POLICY, Stat(homes, name)))
                  && Spares(HOME_POLICY, Stat(homes, name), Left(HOME_POLICY, Stat(homes, name))))
    ensures outcome == Failed(Running) <==> processes > 0
    ensures outcome == Failed(NotDirectory) <==>
            processes == 0 && name in Names(homes) && Stat(homes, name).Leaf? && !Stat(homes, name).mounted
    ensures outcome.Failed? && processes == 0 && Stat(homes, name).Dir? && !Stat(homes, name).mounted ==>
              var r := Clear(HOME_POLICY, Stat(homes, name).device, Stat(homes, name).entries, 0, 0);
              Explains(HOME_POLICY, Stat(homes, name).device, r.left, 0, r.removed, outcome.why)
    ensures processes == 0 && name in Names(homes) && Stat(homes, name).mounted ==> outcome == Failed(MountFound)
    ensures Under(after) == Under(homes)
  {
    after := homes;
    if processes > 0 {
      return after, Failed(Running);
    }
    if name !in Names(homes) {
      return after, Absent;
    }
    var top := Stat(homes, name);
    if top.mounted {
      return after, Failed(MountFound);
    }
    if top.Leaf? {
      return after, Failed(NotDirectory);
    }
    var r := Walk(HOME_POLICY, top.device, top.entries);
    ClearSucceeds(HOME_POLICY, top.device, top.entries, 0, 0);
    ClearRemovesAll(HOME_POLICY, top.device, top.entries, 0, 0);
    RefusingSparesMounts(HOME_POLICY, top.device, top.entries, 0, 0);
    FailureIsExplained(HOME_POLICY, top.device, top.entries, 0, 0);
    UnderChanged(homes, name, top.(entries := r.left));
    if r.failure.Some? {
      ClearSpares(HOME_POLICY, top);
      return Updated(homes, name, top.(entries := r.left)), Failed(r.failure.value);
    }
    return Remove(homes, name), Gone(r.removed + 1);
  }

  /** `remove_tree`: no bounds, and a mount of the same device is noticed only when its name will not go. */
  method RemoveTree(parent: seq<Node>, name: Name) returns (after: seq<Node>, failure: Option<Failure>)
    ensures name !in Names(parent) ==> after == parent && failure == None
    ensures name in Names(parent) ==>
              && (failure == None <==> TreeGoes(TREE_POLICY, Stat(parent, name)))
              && (failure == None ==> after == Remove(parent, name))
              && (failure != None ==>
                    after == parent
                    || (&& Stat(parent, name).Dir?
                        && after == Updated(parent, name, Left(TREE_POLICY, Stat(parent, name)))
                        && Spares(TREE_POLICY, Stat(parent, name), Left(TREE_POLICY, Stat(parent, name)))))
              && (Under(after) < Under(parent) <==> TreeCrosses(Stat(parent, name)))
  {
    after, failure := parent, None;
    if name in Names(parent) {
      var top := Stat(parent, name);
      if top.Leaf? {
        return after, Some(NotDirectory);
      }
      var r := Walk(TREE_POLICY, top.device, top.entries);
      ClearSucceeds(TREE_POLICY, top.device, top.entries, 0, 0);
      ClearRemovesAll(TREE_POLICY, top.device, top.entries, 0, 0);
      ClearSpares(TREE_POLICY, top);
      TreeCrossedIff(top);
      UnderChanged(parent, name, top.(entries := r.left));
      if r.failure.Some? {
        return Updated(parent, name, top.(entries := r.left)), r.failure;
      }
      if top.mounted {
        return Updated(parent, name, top.(entries := [])), Some(Busy);
      }
      after := Remove(parent, name);
    }
  }

  /** With no bounds a tree goes exactly when every node in it is on its device and nothing is mounted. */
  lemma {:induction false} RemovableMeans(device: int, entries: seq<Node>, depth: nat)
    ensures Removable(TREE_POLICY, device, entries, depth)
            <==> forall node :: Holds(entries, node) ==> node.device == device && !node.mounted
    decreases entries
  {
    if entries != [] {
      var rest, last := entries[..|entries| - 1], entries[|entries| - 1];
      RemovableMeans(device, rest, depth);
      assert Holds(entries, last);
      assert forall node :: Holds(rest, node) ==> Holds(entries, node);
      if last.Dir? {
        RemovableMeans(device, last.entries, depth + 1);
        assert forall node :: Holds(last.entries, node) ==> Holds(entries, node);
      }
    }
  }

  /**
    `remove_tree` says no mount is crossed. A mount of the same device is: its files go before the
    failure. `do_remove_home` leaves them.
  */
  lemma BindMountIsEmptied(name: Name, file: Name, device: int)
    ensures var mount := Dir(name, device, true, [Leaf(file, device, false)]);
            && Clear(TREE_POLICY, device, [mount], 0, 0) == Result([mount.(entries := [])], 1, Some(Busy))
            && Clear(HOME_POLICY, device, [mount], 0, 0) == Result([mount], 0, Some(MountFound))
  {
    var inside := [Leaf(file, device, false)];
    var mount := Dir(name, device, true, inside);
    assert inside[..0] == [] && [mount][..0] == [];
    assert Clear(TREE_POLICY, device, inside, 1, 0) == Clear(TREE_POLICY, device, [], 1, 1);
    assert [] + [mount.(entries := [])] == [mount.(entries := [])];
  }

  // ---- homes beyond the size limit ----

  /** How far the count at the last size check can lag behind: by the directories around the last name. */
  lemma {:induction false} LastCountLags(device: int, entries: seq<Node>, depth: nat, removed: nat)
    requires Removable(HOME_POLICY, device, entries, depth) && entries != [] && depth <= MAX_DEPTH
    ensures LastCount(entries, removed) + (MAX_DEPTH - depth) >= removed + Size(entries)
    decreases entries
  {
    var rest, last := entries[..|entries| - 1], entries[|entries| - 1];
    if rest != [] {
      LastCountLags(device, rest, depth, removed + NodeSize(last));
    } else if last.Dir? && last.entries != [] {
      LastCountLags(device, last.entries, depth + 1, removed);
    }
  }

  /** A home that goes has at most as many nodes beyond the limit as it may be deep, and itself. */
  lemma GoingHomeIsBounded(top: Node)
    requires TreeGoes(HOME_POLICY, top)
    ensures NodeSize(top) <= 250_129
  {
    if top.entries != [] {
      LastCountLags(top.device, top.entries, 0, 0);
    }
  }

  function Leaves(device: int, n: nat): seq<Node> {
    if n == 0 then [] else Leaves(device, n - 1) + [Leaf(n, device, false)]
  }

  lemma {:induction false} LeavesGo(policy: Policy, device: int, n: nat, depth: nat, removed: nat)
    ensures Removable(policy, device, Leaves(device, n), depth) && Size(Leaves(device, n)) == n
    ensures LastCount(Leaves(device, n), removed) == removed + n
  {
    if n > 0 {
      var all := Leaves(device, n);
      assert all[..|all| - 1] == Leaves(device, n - 1);
      LeavesGo(policy, device, n - 1, depth, removed + 1);
    }
  }

  /** `k` directories, each the only entry of the one around it, around the given entries. */
  function Nest(device: int, k: nat, inside: seq<Node>): seq<Node> {
    if k == 0 then inside else [Dir(0, device, false, Nest(device, k - 1, inside))]
  }

  lemma {:induction false} NestGoes(device: int, k: nat, inside: seq<Node>, depth: nat)
    requires inside != [] && depth + k <= MAX_DEPTH && Removable(HOME_POLICY, device, inside, depth + k)
    ensures Removable(HOME_POLICY, device, Nest(device, k, inside), depth)
    ensures Size(Nest(device, k, inside)) == k + Size(inside)
    ensures LastCount(Nest(device, k, inside), 0) == LastCount(inside, 0) && Nest(device, k, inside) != []
  {
    if k > 0 {
      NestGoes(device, k - 1, inside, depth + 1);
      OneDirectory(Dir(0, device, false, Nest(device, k - 1, inside)), depth);
    }
  }

  /** A directory with one directory and nothing else. */
  lemma OneDirectory(inside: Node, depth: nat)
    requires inside.Dir? && !inside.mounted && depth + 1 <= MAX_DEPTH
    requires Removable(HOME_POLICY, inside.device, inside.entries, depth + 1)
    ensures Removable(HOME_POLICY, inside.device, [inside], depth) && Size([inside]) == 1 + Size(inside.entries)
    ensures LastCount([inside], 0) == LastCount(inside.entries, 0)
  {
    assert [inside][..0] == [];
    assert Removable(HOME_POLICY, inside.device, [inside][..0], depth) && Size([inside][..0]) == 0;
  }

  /** The bound is attained: a chain as deep as allowed, with as many files at its end as the limit. */
  lemma LargestHomeGoes(device: int, n: nat, k: nat) returns (top: Node)
    requires n == MAX_ENTRIES && k == MAX_DEPTH
    ensures TreeGoes(HOME_POLICY, top) && NodeSize(top) == 250_129
  {
    LeavesGo(HOME_POLICY, device, n, k, 0);
    NestGoes(device, k, Leaves(device, n), 0);
    top := Dir(0, device, false, Nest(device, k, Leaves(device, n)));
  }
}
