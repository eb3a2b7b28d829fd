/**
  The access change of an attached agent (`access`, `rewrite_attachment`, `apply_view` and
  `stop_agent`, dashboard/provisioner/attached-agent.py): the registry grant, the contract text, the
  unit files and the mounted view are changed one after another, any step may fail, and a failed
  change is rolled back. Every step asks the world how it goes.
*/
module AccessChange {
  type Text = int
  type Path = int

  /**
    How a step goes. `Late`: it took effect and then failed (a rename whose directory sync fails); for
    `stop_agent`: the stop command failed unnoticed, and no process was seen. `Stays`: processes
    remain; for any other step, like `Fails`.
  */
  datatype Luck = Works | Fails | Late | Stays

  /** How the k-th step goes, and what the view looks like after it if it restarts the workspace unit. */
  datatype World = World(luck: nat -> Luck, views: nat -> bool)

  datatype Unit = Unit(path: Path, text: Text)

  /** What belongs to one grant: the units are rendered from it, always for the same paths. */
  datatype Plan = Plan(workspace: bool, contract: Text, units: seq<Unit>)

  /** What is found before the agent is stopped, when the workspace is to be granted. */
  datatype Preflight = Plain | NotPlain | Unreadable

  datatype Receipt = Refused | Ready(view: bool) | Restored(view: bool) | AgentDidNotStop | RestoreFailed | NoReceipt

  /** A restart of the workspace unit, and whether the agent was running or could be started by a chat then. */
  datatype Change = Change(forward: bool, exposed: bool)

  datatype Stopped = Yes | No | Raised

  // ---- unit files ----

  function Written(files: map<Path, Text>, units: seq<Unit>): map<Path, Text> {
    if units == [] then files
    else
      var last := units[|units| - 1];
      Written(files, units[..|units| - 1])[last.path := last.text]
  }

  predicate Installed(files: map<Path, Text>, units: seq<Unit>) {
    forall i :: 0 <= i < |units| ==> units[i].path in files && files[units[i].path] == units[i].text
  }

  predicate Distinct(units: seq<Unit>) {
    forall i, j :: 0 <= i < j < |units| ==> units[i].path != units[j].path
  }

  predicate SamePaths(units: seq<Unit>, others: seq<Unit>) {
    |units| == |others| && forall i :: 0 <= i < |units| ==> units[i].path == others[i].path
  }

  predicate Names(units: seq<Unit>, path: Path) {
    exists i :: 0 <= i < |units| && units[i].path == path
  }

  /** Writing installs every unit and touches no other file. */
  lemma {:induction false} WrittenInstalls(files: map<Path, Text>, units: seq<Unit>)
    requires Distinct(units)
    ensures Installed(Written(files, units), units)
    ensures forall path :: !Names(units, path) ==>
              (path in Written(files, units) <==> path in files)
              && (path in files ==> Written(files, units)[path] == files[path])
  {
    if units != [] {
      var front, last := units[..|units| - 1], units[|units| - 1];
      WrittenInstalls(files, front);
      assert forall path :: Names(front, path) ==> Names(units, path);
      assert Names(units, last.path);
    }
  }

  lemma InstalledWhole(files: map<Path, Text>, units: seq<Unit>)
    requires Distinct(units)
    ensures units[..|units|] == units && Installed(Written(files, units), units)
  {
    WrittenInstalls(files, units);
  }

  /** Whatever part of the new units was written, writing the previous ones puts the files back exactly. */
  lemma RewriteRestores(files: map<Path, Text>, units: seq<Unit>, others: seq<Unit>, k: nat)
    requires Distinct(units) && SamePaths(units, others) && k <= |others|
    ensures Installed(files, units) ==> Written(Written(files, others[..k]), units) == files
  {
    if !Installed(files, units) {
      return;
    }
    var part := Written(files, others[..k]);
    assert Distinct(others[..k]);
    WrittenInstalls(files, others[..k]);
    WrittenInstalls(part, units);
    forall path
      ensures path in Written(part, units) <==> path in files
      ensures path in files ==> Written(part, units)[path] == files[path]
    {
      if Names(units, path) {
        var i :| 0 <= i < |units| && units[i].path == path;
      } else {
        assert forall i :: 0 <= i < k ==> others[i].path == units[i].path;
      }
    }
  }

  // ---- steps ----

  predicate AllWork(w: World, from: nat, to: nat) {
    forall i :: from <= i < to ==> w.luck(i) == Works
  }

  /** From step `from`, a rewrite, a view change and a socket start all go well, and the view is as granted. */
  predicate Smooth(w: World, from: nat, plan: Plan) {
    AllWork(w, from, from + |plan.units| + 7) && w.views(from + |plan.units| + 4) == plan.workspace
  }

  /** The change begins: nothing speaks against it, and the agent is taken to be stopped. */
  predicate Begins(w: World, start: nat, plan: Plan, preflight: Preflight) {
    (plan.workspace ==> preflight == Plain) && (w.luck(start) == Works || w.luck(start) == Late)
  }

  /** The change itself goes well: stop, install, the chat comes up, and the observation for the receipt is made. */
  predicate Succeeds(w: World, from: nat, plan: Plan) {
    && (w.luck(from) == Works || w.luck(from) == Late)
    && Smooth(w, from + 1, plan)
    && AllWork(w, from + |plan.units| + 8, from + |plan.units| + 10)
  }

  /** The rollback that begins at step `from` goes well; that processes remain is not noticed. */
  predicate RollsBack(w: World, from: nat, plan: Plan) {
    w.luck(from) != Fails && Smooth(w, from + 1, plan) && w.luck(from + |plan.units| + 8) == Works
  }

  /** The first of some steps that does not work. */
  predicate StumblesAt(w: World, from: nat, steps: nat, at: nat) {
    from <= at < from + steps && AllWork(w, from, at) && w.luck(at) != Works
  }

  /** The step at which a change that begins at `from` breaks: one that does not work, or a view unlike the grant. */
  predicate BreaksAt(w: World, from: nat, plan: Plan, at: nat) {
    var n := |plan.units|;
    var differs := w.views(from + n + 4) != plan.workspace;
    && from <= at < from + n + 9 && AllWork(w, from, at)
    && (w.luck(at) != Works || (at == from + n + 5 && differs))
    && (at > from + n + 5 ==> !differs)
  }

  /** A change breaks at one step only. */
  lemma BreaksOnce(w: World, from: nat, plan: Plan, at: nat, other: nat)
    requires BreaksAt(w, from, plan, at) && BreaksAt(w, from, plan, other)
    ensures at == other
  {
  }

  /** A change that began at `from` and has come to step `clock` has opened the chat socket. */
  predicate Opens(w: World, from: nat, plan: Plan, clock: nat) {
    var socket := from + |plan.units| + 6;
    clock > socket && (w.luck(socket) == Works || w.luck(socket) == Late)
  }

  /** The chat socket listens when the rollback begins. */
  predicate ListensAt(w: World, start: nat, plan: Plan, undo: nat, listening: bool) {
    (w.luck(start) == Late && listening) || Opens(w, start + 1, plan, undo)
  }

  /**
    Whether the agent may be up while its view changes: forward, if the stop command failed unnoticed
    under a listening socket; back, if so or if processes remained.
  */
  predicate Exposes(w: World, start: nat, plan: Plan, undo: nat, listening: bool, c: Change) {
    c.exposed <==>
      if c.forward then w.luck(start) == Late && listening
      else Unstopped(w.luck(undo), ListensAt(w, start, plan, undo, listening))
  }

  /** Every view change made on the way is exposed exactly as it must be. */
  predicate AllExposed(w: World, start: nat, plan: Plan, undo: nat, listening: bool, was: seq<Change>,
                       now: seq<Change>) {
    was <= now && forall i :: |was| <= i < |now| ==> Exposes(w, start, plan, undo, listening, now[i])
  }

  /** The receipt of a rollback that begins at step `undo`. */
  function RollbackReceipt(w: World, undo: nat, previous: Plan): Receipt {
    if w.luck(undo) == Fails then NoReceipt
    else if !Smooth(w, undo + 1, previous) then RestoreFailed
    else if w.luck(undo + |previous.units| + 8) != Works then NoReceipt
    else Restored(previous.workspace)
  }

  /** The receipt of an access change that begins at step `start` and, if it breaks, is rolled back from step `undo`. */
  function ReceiptOf(w: World, start: nat, undo: nat, plan: Plan, previous: Plan, preflight: Preflight): Receipt {
    if plan.workspace && preflight == Unreadable then NoReceipt
    else if plan.workspace && preflight == NotPlain then Refused
    else if w.luck(start) == Stays then AgentDidNotStop
    else if w.luck(start) == Fails then NoReceipt
    else if Succeeds(w, start, plan) then Ready(plan.workspace)
    else RollbackReceipt(w, undo, previous)
  }

  /** When each receipt is given. */
  lemma ReceiptsExactly(w: World, start: nat, undo: nat, plan: Plan, previous: Plan, preflight: Preflight)
    ensures var receipt := ReceiptOf(w, start, undo, plan, previous, preflight);
            var broken := Begins(w, start, plan, preflight) && !Succeeds(w, start, plan);
            var plain := plan.workspace ==> preflight == Plain;
            && (receipt.Ready? <==> plain && Succeeds(w, start, plan))
            && (receipt.Restored? <==> broken && RollsBack(w, undo, previous))
            && (receipt.Refused? <==> plan.workspace && preflight == NotPlain)
            && (receipt.AgentDidNotStop? <==> plain && w.luck(start) == Stays)
            && (receipt.RestoreFailed? <==> broken && w.luck(undo) != Fails && !Smooth(w, undo + 1, previous))
  {
  }

  /** Whether the agent may be up after `stop_agent`. */
  predicate Unstopped(luck: Luck, listening: bool) {
    luck == Stays || (luck == Late && listening)
  }

  class Attachment {
    const w: World
    var clock: nat
    var grant: bool
    var contract: Text
    var files: map<Path, Text>
    var loaded: map<Path, Text>
    var mounted: bool
    var listening: bool
    var running: bool
    var changes: seq<Change>

    /** Registry, contract, unit files, loaded units and view all belong to the plan. */
    predicate Matches(plan: Plan)
      reads this
    {
      && grant == plan.workspace && contract == plan.contract && mounted == plan.workspace
      && Installed(files, plan.units) && loaded == files
    }

    constructor (w: World, plan: Plan, files: map<Path, Text>)
      requires Distinct(plan.units)
      ensures Matches(plan) && this.files == Written(files, plan.units)
      ensures this.w == w && clock == 0 && listening && running && changes == []
    {
      WrittenInstalls(files, plan.units);
      this.w, clock, grant, contract := w, 0, plan.workspace, plan.contract;
      this.files, loaded := Written(files, plan.units), Written(files, plan.units);
      mounted, listening, running, changes := plan.workspace, true, true, [];
    }

    method Next() returns (luck: Luck)
      modifies this`clock
      ensures luck == w.luck(old(clock)) && clock == old(clock) + 1
    {
      luck := w.luck(clock);
      clock := clock + 1;
    }

    /** The units one by one; a failed one may or may not be in place. */
    method WriteUnits(units: seq<Unit>) returns (ok: bool, ghost k: nat)
      modifies this`clock, this`files
      ensures old(clock) <= clock && k <= |units| && files == Written(old(files), units[..k])
      ensures ok <==> AllWork(w, old(clock), old(clock) + |units|)
      ensures ok ==> k == |units| && clock == old(clock) + |units|
      ensures !ok ==> clock > 0 && StumblesAt(w, old(clock), |units|, clock - 1)
    {
      k := 0;
      for i := 0 to |units|
        invariant k == i && clock == old(clock) + i && files == Written(old(files), units[..i])
        invariant AllWork(w, old(clock), clock)
      {
        var luck := Next();
        assert units[..i + 1][..i] == units[..i];
        if luck == Works || luck == Late {
          files := files[units[i].path := units[i].text];
          k := i + 1;
        }
        if luck != Works {
          return false, k;
        }
      }
      ok := true;
    }

    /** `rewrite_attachment`: registry, contract, units, reload, in that order. */
    method Rewrite(plan: Plan) returns (ok: bool, ghost k: nat)
      modifies this`clock, this`grant, this`contract, this`files, this`loaded
      ensures old(clock) <= clock && k <= |plan.units| && files == Written(old(files), plan.units[..k])
      ensures k > 0 ==> grant == plan.workspace && contract == plan.contract
      ensures ok <==> AllWork(w, old(clock), old(clock) + |plan.units| + 4)
      ensures !ok ==> clock > 0 && StumblesAt(w, old(clock), |plan.units| + 4, clock - 1)
      ensures ok ==> k == |plan.units| && clock == old(clock) + k + 4 && loaded == files
                     && grant == plan.workspace && contract == plan.contract
    {
      ok, k := false, 0;
      ghost var start := clock;
      var read := Next();
      if read != Works {
        return;
      }
      var registry := Next();
      if registry == Works || registry == Late {
        grant := plan.workspace;
      }
      if registry != Works {
        return;
      }
      var text := Next();
      if text == Works || text == Late {
        contract := plan.contract;
      }
      if text != Works {
        return;
      }
      ok, k := WriteUnits(plan.units);
      if !ok {
        return;
      }
      var reload := Next();
      if reload == Works || reload == Late {
        loaded := files;
      }
      ok := reload == Works;
    }

    /** `apply_view`: restart the workspace unit, then compare what is mounted with the grant. */
    method ApplyView(workspace: bool, forward: bool) returns (ok: bool)
      modifies this`clock, this`mounted, this`changes
      ensures old(clock) <= clock
      ensures ok <==> AllWork(w, old(clock), old(clock) + 2) && w.views(old(clock)) == workspace
      ensures ok ==> mounted == workspace && clock == old(clock) + 2
      ensures !ok ==> clock > 0
                      && (StumblesAt(w, old(clock), 2, clock - 1)
                          || (&& AllWork(w, old(clock), clock) && clock == old(clock) + 2
                              && w.views(old(clock)) != workspace))
      ensures changes == old(changes) + [Change(forward, listening || running)]
    {
      changes := changes + [Change(forward, listening || running)];
      mounted := w.views(clock);
      var restart := Next();
      if restart != Works {
        return false;
      }
      var seen := Next();
      ok := seen == Works && mounted == workspace;
    }

    /** `stop_agent`: stops the socket and the agent, and looks only at the agent's processes. */
    method Stop() returns (r: Stopped)
      modifies this`clock, this`listening, this`running
      ensures clock == old(clock) + 1
      ensures r == match w.luck(old(clock)) { case Works => Yes case Late => Yes case Stays => No case Fails => Raised }
      ensures r == Yes ==> !running && (listening <==> w.luck(old(clock)) == Late && old(listening))
      ensures r == No ==> running
    {
      var luck := Next();
      match luck
      case Works => listening, running, r := false, false, Yes;
      case Late => running, r := false, Yes;
      case Stays => listening, running, r := false, true, No;
      case Fails => r := Raised;
    }

    /** Starting the socket: from then on a chat may start the agent. */
    method StartSocket() returns (ok: bool)
      modifies this`clock, this`listening, this`running
      ensures clock == old(clock) + 1 && (ok <==> w.luck(old(clock)) == Works)
      ensures listening <==> old(listening) || w.luck(old(clock)) == Works || w.luck(old(clock)) == Late
    {
      var luck := Next();
      if luck == Works || luck == Late {
        listening, running := true, true;
      }
      ok := luck == Works;
    }

    /** Rewrite, apply, start: the body shared by the change and by its rollback. */
    method Install(plan: Plan, forward: bool) returns (ok: bool, ghost k: nat)
      modifies this`clock, this`grant, this`contract, this`files, this`loaded, this`mounted, this`changes,
        this`listening, this`running
      ensures old(clock) <= clock && k <= |plan.units| && files == Written(old(files), plan.units[..k])
      ensures ok <==> Smooth(w, old(clock), plan)
      ensures !ok ==> clock > 0 && clock <= old(clock) + |plan.units| + 7 && BreaksAt(w, old(clock), plan, clock - 1)
      ensures listening <==> old(listening) || Opens(w, old(clock), plan, clock)
      ensures ok ==> k == |plan.units| && clock == old(clock) + k + 7 && listening && loaded == files
                     && grant == plan.workspace && contract == plan.contract && mounted == plan.workspace
      ensures changes == old(changes) || changes == old(changes) + [Change(forward, old(listening) || old(running))]
      ensures ok ==> changes == old(changes) + [Change(forward, old(listening) || old(running))]
    {
      ghost var start, n := clock, |plan.units|;
      ok, k := Rewrite(plan);
      if ok {
        ok := ApplyView(plan.workspace, forward);
        if ok {
          ok := StartSocket();
        }
      }
    }

    /**
      `access`. Ready, restored and refused mean what they say for every way the steps can go, and
      `ReceiptOf` says which receipt is given. The view changes under an agent that may be up exactly
      as `Exposes` says.
    */
    method Access(plan: Plan, previous: Plan, preflight: Preflight) returns (receipt: Receipt, ghost undo: nat)
      requires Distinct(plan.units) && Distinct(previous.units) && SamePaths(previous.units, plan.units)
      modifies this
      ensures receipt == ReceiptOf(w, old(clock), undo, plan, previous, preflight)
      ensures Begins(w, old(clock), plan, preflight) && !Succeeds(w, old(clock), plan) ==>
                undo > 0 && BreaksAt(w, old(clock) + 1, plan, undo - 1)
      ensures receipt.Ready? ==> Matches(plan) && listening
      ensures receipt.Ready? ==>
                changes == old(changes) + [Change(true, w.luck(old(clock)) == Late && old(listening))]
      ensures receipt.Restored? ==> Matches(previous) && listening
      ensures receipt.Restored? ==> |changes| > |old(changes)| && !changes[|changes| - 1].forward
      ensures receipt.Restored? && Installed(old(files), previous.units) ==> files == old(files)
      ensures receipt.Refused? ==> unchanged(this)
      ensures receipt.AgentDidNotStop? ==> unchanged(`grant, `contract, `files, `loaded, `mounted, `changes)
      ensures AllExposed(w, old(clock), plan, undo, old(listening), old(changes), changes)
    {
      undo := clock;
      if plan.workspace && preflight == Unreadable {
        return NoReceipt, undo;
      }
      if plan.workspace && preflight == NotPlain {
        return Refused, undo;
      }
      var stopped := Stop();
      if stopped != Yes {
        return (if stopped == No then AgentDidNotStop else NoReceipt), undo;
      }
      receipt, undo := ChangeGrant(plan, previous, old(clock), old(listening));
    }

    /** The change and, if it breaks, its rollback, once the agent is taken to be stopped by step `start`. */
    method ChangeGrant(plan: Plan, previous: Plan, ghost start: nat, ghost was: bool)
      returns (receipt: Receipt, ghost undo: nat)
      requires Distinct(plan.units) && Distinct(previous.units) && SamePaths(previous.units, plan.units)
      requires clock == start + 1 && !running && (w.luck(start) == Works || w.luck(start) == Late)
      requires listening <==> w.luck(start) == Late && was
      modifies this
      ensures receipt == if Succeeds(w, start, plan) then Ready(plan.workspace) else RollbackReceipt(w, undo, previous)
      ensures !Succeeds(w, start, plan) ==> undo > 0 && BreaksAt(w, start + 1, plan, undo - 1)
      ensures receipt.Ready? ==> Matches(plan) && listening
      ensures receipt.Ready? ==> changes == old(changes) + [Change(true, w.luck(start) == Late && was)]
      ensures receipt.Restored? ==> Matches(previous) && listening
      ensures receipt.Restored? ==> |changes| > |old(changes)| && !changes[|changes| - 1].forward
      ensures receipt.Restored? && Installed(old(files), previous.units) ==> files == old(files)
      ensures AllExposed(w, start, plan, undo, was, old(changes), changes)
    {
      undo := clock;
      var ok; ghost var k;
      ok, k := Forward(plan);
      if ok {
        return Ready(mounted), undo;
      }
      receipt, undo := Rollback(plan, previous, old(files), k);
    }

    /** Install the new plan, wait for the chat, and observe it. */
    method Forward(plan: Plan) returns (ok: bool, ghost k: nat)
      requires Distinct(plan.units)
      modifies this
      ensures k <= |plan.units| && files == Written(old(files), plan.units[..k])
      ensures ok <==> Smooth(w, old(clock), plan) && AllWork(w, old(clock) + |plan.units| + 7,
                                                             old(clock) + |plan.units| + 9)
      ensures ok ==> Matches(plan) && listening
      ensures !ok ==> clock > 0 && BreaksAt(w, old(clock), plan, clock - 1)
      ensures listening <==> old(listening) || Opens(w, old(clock), plan, clock)
      ensures changes == old(changes) || changes == old(changes) + [Change(true, old(listening) || old(running))]
      ensures ok ==> changes == old(changes) + [Change(true, old(listening) || old(running))]
    {
      ok, k := Install(plan, true);
      if ok {
        InstalledWhole(old(files), plan.units);
        var up := Next();
        if up != Works {
          return false, k;
        }
        var seen := Next();
        ok := seen == Works;
      }
    }

    /** What `access` does once the change has failed with `k` of its units written over `original`. */
    method Rollback(plan: Plan, previous: Plan, ghost original: map<Path, Text>, ghost k: nat)
      returns (receipt: Receipt, ghost undo: nat)
      requires Distinct(previous.units) && SamePaths(previous.units, plan.units)
      requires k <= |plan.units| && files == Written(original, plan.units[..k])
      modifies this
      ensures undo == old(clock)
      ensures receipt == RollbackReceipt(w, undo, previous)
      ensures receipt.Restored? ==> Matches(previous) && listening
      ensures receipt.Restored? && Installed(original, previous.units) ==> files == original
      ensures changes == old(changes)
              || changes == old(changes) + [Change(false, Unstopped(w.luck(undo), old(listening)))]
      ensures receipt.Restored? ==> changes == old(changes) + [Change(false, Unstopped(w.luck(undo), old(listening)))]
    {
      undo := clock;
      var stopped := Stop();
      if stopped == Raised {
        return NoReceipt, undo;
      }
      ghost var part := files;
      var ok; ghost var n;
      ok, n := Install(previous, false);
      if !ok {
        return RestoreFailed, undo;
      }
      InstalledWhole(part, previous.units);
      RewriteRestores(original, previous.units, plan.units, k);
      var seen := Next();
      receipt := if seen == Works then Restored(mounted) else NoReceipt;
    }
  }

  /**
    The stop command fails unnoticed while the chat socket listens and everything else works: the
    change is told ready, and the view changed while a chat could start the agent.
  */
  method ChangesUnderOpenSocket(plan: Plan, previous: Plan, files: map<Path, Text>)
    returns (a: Attachment, receipt: Receipt)
    requires Distinct(plan.units) && Distinct(previous.units) && SamePaths(previous.units, plan.units)
    ensures receipt == Ready(plan.workspace) && a.Matches(plan) && a.changes == [Change(true, true)]
  {
    var w := World(k => if k == 0 then Late else Works, _ => plan.workspace);
    a := new Attachment(w, previous, files);
    ghost var undo;
    receipt, undo := a.Access(plan, previous, Plain);
  }

  /**
    The chat does not come up, and processes remain after the rollback's stop, whose answer is not
    looked at: the change is told restored, and the view changed back under a running agent.
  */
  method RollsBackUnderAgent(plan: Plan, previous: Plan, files: map<Path, Text>)
    returns (a: Attachment, receipt: Receipt)
    requires Distinct(plan.units) && Distinct(previous.units) && SamePaths(previous.units, plan.units)
    ensures receipt == Restored(previous.workspace) && a.Matches(previous)
    ensures |a.changes| > 0 && a.changes[|a.changes| - 1] == Change(false, true)
  {
    var chat := |plan.units| + 8;
    var w := World(k => if k == chat then Fails else if k == chat + 1 then Stays else Works,
                   k => if k < chat then plan.workspace else previous.workspace);
    a := new Attachment(w, previous, files);
    ghost var undo;
    receipt, undo := a.Access(plan, previous, Plain);
    assert BreaksAt(w, 1, plan, chat);
    BreaksOnce(w, 1, plan, undo - 1, chat);
  }
}
