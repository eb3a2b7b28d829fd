/**
  The staging fence: `run` of dashboard/provisioner/run-attached-codex-stage.py, its read-only
  observer `observe_staged` (run-attached-codex-bundle.py) and `clear_staging_journal`
  (attached-agent.py). One journal file and one advisory lock. The stager process inherits the
  lock of the run that spawned it, so the lock is free only when both are gone.
*/
module StagingFence {
  import opened Common

  type Id = int

  datatype Identity = Identity(installation: Id, operation: Id, dispatch: Id)
  datatype Receipt = Receipt(installation: Id, operation: Id, uid: int, gid: int)
  datatype Phase = Started | Staged(receipt: Receipt)
  datatype Record = Record(identity: Identity, boot: nat, phase: Phase)

  /** `checked_receipt` */
  predicate ReceiptFits(receipt: Receipt, identity: Identity) {
    && receipt.installation == identity.installation && receipt.operation == identity.operation
    && 0 < receipt.uid < 4294967295 && 0 < receipt.gid < 4294967295
  }

  datatype RunnerPc =
    | CheckJournal | PublishStarted | Spawn | Wait | PublishStaged(receipt: Receipt) | Return(record: Record) | Gone
  datatype Stager = NoStager | Alive | Exited(output: Option<Receipt>)

  /** Who holds the exclusive lock: a run (or the stager it left behind), or a clearing. */
  datatype Holder =
    | Free
    | Session(identity: Identity, boot: nat, runner: RunnerPc, stager: Stager)
    | Clearing(installation: Id)

  /** An observer holds the lock shared while it reads. */
  datatype Observer = Observer(identity: Identity, boot: nat)

  datatype Answer = InProgress | StagingAbsent | StagingFailed | Unresolved | Recovered(record: Record)

  /**
    History, by the generation of the journal: each clearing begins a new one. A reply is what a run
    returned to the identity and boot it was asked for.
  */
  datatype Told = Told(generation: nat, observer: Observer, answer: Answer)
  datatype Publication = Publication(generation: nat, record: Record)
  datatype Reply = Reply(asked: Identity, boot: nat, receipt: Publication)

  datatype State = State(
    journal: Option<Record>, boot: nat, holder: Holder, observers: seq<Observer>,
    generation: nat, spawns: seq<nat>, staged: seq<Publication>, told: seq<Told>, returned: seq<Reply>)

  const INIT := State(None, 0, Free, [], 0, [], [], [], [])

  datatype Action =
    | BeginRun(identity: Identity, expectedBoot: nat)
    | RunnerStep
    | RunnerDies
    | StagerExits(output: Option<Receipt>)
    | BeginObserve(observer: Observer)
    | ObserverReads
    | ObserverDies
    | BeginClear(installation: Id)
    | ClearStep
    | ClearDies
    | Reboot

  /** The run ends: the lock stays with a stager that is still alive. */
  function Leave(holder: Holder): Holder
    requires holder.Session?
  {
    if holder.stager == Alive then holder.(runner := Gone) else Free
  }

  /** The run ends and returns the record it was asked for. */
  function Answered(s: State, record: Record): State
    requires s.holder.Session?
  {
    s.(holder := Leave(s.holder),
       returned := s.returned + [Reply(s.holder.identity, s.holder.boot, Publication(s.generation, record))])
  }

  function RunnerMove(s: State): State
    requires s.holder.Session?
  {
    var identity, boot := s.holder.identity, s.holder.boot;
    match s.holder.runner
    case CheckJournal =>
      if s.journal == None then s.(holder := s.holder.(runner := PublishStarted))
      else
        var previous := s.journal.value;
        if && previous.identity == identity && previous.boot == boot
           && previous.phase.Staged? && ReceiptFits(previous.phase.receipt, identity)
        then Answered(s, previous)
        else s.(holder := Leave(s.holder))
    case PublishStarted =>
      s.(journal := Some(Record(identity, boot, Started)), holder := s.holder.(runner := Spawn))
    case Spawn =>
      s.(holder := s.holder.(runner := Wait, stager := Alive), spawns := s.spawns + [s.generation])
    case Wait =>
      if !s.holder.stager.Exited? then s
      else if s.holder.stager.output.Some? && ReceiptFits(s.holder.stager.output.value, identity)
      then s.(holder := s.holder.(runner := PublishStaged(s.holder.stager.output.value)))
      else s.(holder := Leave(s.holder))
    case PublishStaged(receipt) =>
      var record := Record(identity, boot, Staged(receipt));
      s.(journal := Some(record), holder := s.holder.(runner := Return(record)),
         staged := s.staged + [Publication(s.generation, record)])
    case Return(record) => Answered(s, record)
    case Gone => s
  }

  /** `observe_staged` once it holds the lock. */
  function Judge(journal: Option<Record>, o: Observer): Answer {
    if journal == None then StagingAbsent
    else
      var record := journal.value;
      if record.identity != o.identity || record.boot != o.boot then Unresolved
      else if record.phase == Started then StagingFailed
      else if ReceiptFits(record.phase.receipt, o.identity) then Recovered(record)
      else Unresolved
  }

  function Apply(s: State, a: Action): State {
    match a
    case BeginRun(identity, expectedBoot) =>
      if s.holder == Free && s.observers == [] && s.boot == expectedBoot
      then s.(holder := Session(identity, expectedBoot, CheckJournal, NoStager)) else s
    case RunnerStep => if s.holder.Session? then RunnerMove(s) else s
    case RunnerDies => if s.holder.Session? then s.(holder := Leave(s.holder)) else s
    case StagerExits(output) =>
      if s.holder.Session? && s.holder.stager == Alive then
        s.(holder := if s.holder.runner == Gone then Free else s.holder.(stager := Exited(output)))
      else s
    case BeginObserve(observer) =>
      if s.holder == Free then s.(observers := s.observers + [observer])
      else s.(told := s.told + [Told(s.generation, observer, InProgress)])
    case ObserverReads =>
      if s.observers == [] then s
      else
        s.(observers := s.observers[1..],
           told := s.told + [Told(s.generation, s.observers[0], Judge(s.journal, s.observers[0]))])
    case ObserverDies => if s.observers == [] then s else s.(observers := s.observers[1..])
    case BeginClear(installation) =>
      if s.holder == Free && s.observers == [] then s.(holder := Clearing(installation)) else s
    case ClearStep =>
      if !s.holder.Clearing? then s
      else if s.journal.Some? && s.journal.value.identity.installation == s.holder.installation
      then s.(journal := None, generation := s.generation + 1, holder := Free)
      else s.(holder := Free)
    case ClearDies => if s.holder.Clearing? then s.(holder := Free) else s
    case Reboot => s.(boot := s.boot + 1, holder := Free, observers := [])
  }

  function Run(s: State, actions: seq<Action>): State
    decreases |actions|
  {
    if actions == [] then s else Run(Apply(s, actions[0]), actions[1..])
  }

  predicate StagerAlive(s: State) {
    s.holder.Session? && s.holder.stager == Alive
  }

  /** The lock holder and the journal agree on how far the run has come. */
  predicate SessionInvariant(s: State) {
    && (s.observers != [] ==> s.holder == Free)
    && (s.holder.Session? ==>
          var Session(identity, boot, runner, stager) := s.holder;
          && boot == s.boot
          && (runner == CheckJournal || runner == PublishStarted || runner == Spawn ==> stager == NoStager)
          && (runner == PublishStarted ==> s.journal == None)
          && (runner == Spawn || (stager != NoStager && !runner.Return?) ==>
                s.journal == Some(Record(identity, boot, Started)))
          && (runner.Return? ==>
                && stager.Exited? && s.journal == Some(runner.record) && runner.record.phase.Staged?
                && runner.record.identity == identity && runner.record.boot == boot)
          && (runner == Spawn ==> s.generation !in s.spawns)
          && (runner == Wait ==> stager != NoStager)
          && (runner.PublishStaged? ==> stager == Exited(Some(runner.receipt)) && ReceiptFits(runner.receipt, identity))
          && (runner == Gone ==> stager == Alive))
  }

  ghost predicate SpawnInvariant(s: State) {
    && (forall g :: g in s.spawns ==> g <= s.generation)
    && (s.journal == None ==> s.generation !in s.spawns)
    && (forall i, j :: 0 <= i < j < |s.spawns| ==> s.spawns[i] != s.spawns[j])
  }

  /** A generation whose run ended without a receipt: its journal says started and nobody is at work on it. */
  predicate Dead(s: State) {
    && s.journal.Some? && s.journal.value.phase == Started
    && (s.holder.Session? ==> s.holder.runner == CheckJournal)
  }

  /** What was ever staged: one receipt for each journal, which the present journal still holds. */
  ghost predicate StagedInvariant(s: State) {
    && (forall r :: r in s.staged ==>
          && r.generation <= s.generation && r.record.phase.Staged?
          && ReceiptFits(r.record.phase.receipt, r.record.identity)
          && (r.generation == s.generation ==> s.journal == Some(r.record)))
    && (s.journal.Some? && s.journal.value.phase.Staged? ==> Publication(s.generation, s.journal.value) in s.staged)
    && (forall q, r :: q in s.staged && r in s.staged && q.generation == r.generation ==> q == r)
  }

  /** Only what was staged is returned or told, and nothing is staged once staging_failed was told. */
  ghost predicate HistoryInvariant(s: State) {
    && StagedInvariant(s)
    && (forall r :: r in s.returned ==>
          r.receipt in s.staged && r.receipt.record.identity == r.asked && r.receipt.record.boot == r.boot)
    && (forall t :: t in s.told ==>
          && t.generation <= s.generation
          && (t.generation == s.generation && t.answer == StagingFailed ==>
                Dead(s) && s.journal.value.identity == t.observer.identity)
          && (t.answer.Recovered? ==>
                && Publication(t.generation, t.answer.record) in s.staged
                && t.answer.record.identity == t.observer.identity && t.answer.record.boot == t.observer.boot))
    && (forall t, r :: t in s.told && t.answer == StagingFailed && r in s.staged ==> t.generation != r.generation)
  }

  ghost predicate Invariant(s: State) {
    SessionInvariant(s) && SpawnInvariant(s) && HistoryInvariant(s)
  }

  lemma StepKeepsSession(s: State, a: Action)
    requires Invariant(s)
    ensures SessionInvariant(Apply(s, a))
  {
  }

  lemma StepKeepsSpawns(s: State, a: Action)
    requires Invariant(s)
    ensures SpawnInvariant(Apply(s, a))
  {
  }

  lemma StepKeepsHistory(s: State, a: Action)
    requires Invariant(s)
    ensures HistoryInvariant(Apply(s, a))
  {
    match a {
      case RunnerStep =>
        if s.holder.Session? {
          RunnerKeepsHistory(s);
        }
      case ObserverReads => ObserverKeepsHistory(s);
      case ClearStep => ClearKeepsHistory(s);
      case _ => OthersKeepHistory(s, a);
    }
  }

  lemma RunnerKeepsHistory(s: State)
    requires Invariant(s) && s.holder.Session?
    ensures HistoryInvariant(RunnerMove(s))
  {
    match s.holder.runner {
      case CheckJournal =>
      case PublishStaged(_) =>
      case _ =>
    }
  }

  /** An answer is given under the shared lock, so nobody is at work when it says failed. */
  lemma ObserverKeepsHistory(s: State)
    requires Invariant(s)
    ensures HistoryInvariant(Apply(s, ObserverReads))
  {
  }

  lemma ClearKeepsHistory(s: State)
    requires Invariant(s)
    ensures HistoryInvariant(Apply(s, ClearStep))
  {
  }

  lemma OthersKeepHistory(s: State, a: Action)
    requires Invariant(s) && !a.RunnerStep? && !a.ObserverReads? && !a.ClearStep?
    ensures HistoryInvariant(Apply(s, a))
  {
  }

  lemma StepKeeps(s: State, a: Action)
    requires Invariant(s)
    ensures Invariant(Apply(s, a))
  {
    StepKeepsSession(s, a);
    StepKeepsSpawns(s, a);
    StepKeepsHistory(s, a);
  }

  lemma ToldStays(s: State, a: Action, t: Told)
    requires t in s.told
    ensures t in Apply(s, a).told
  {
  }

  lemma {:induction false} RunKeeps(s: State, actions: seq<Action>)
    requires Invariant(s)
    ensures Invariant(Run(s, actions))
    decreases |actions|
  {
    if actions != [] {
      StepKeeps(s, actions[0]);
      RunKeeps(Apply(s, actions[0]), actions[1..]);
    }
  }

  lemma {:induction false} RunRemembers(s: State, actions: seq<Action>, t: Told)
    requires t in s.told
    ensures t in Run(s, actions).told
    decreases |actions|
  {
    if actions != [] {
      ToldStays(s, actions[0], t);
      RunRemembers(Apply(s, actions[0]), actions[1..], t);
    }
  }

  /** Until its journal is cleared the stager is spawned at most once. */
  lemma SpawnedOncePerJournal(actions: seq<Action>, i: nat, j: nat)
    requires i < j < |Run(INIT, actions).spawns|
    ensures Run(INIT, actions).spawns[i] != Run(INIT, actions).spawns[j]
  {
    RunKeeps(INIT, actions);
  }

  /**
    staging_failed is sound and final: as long as that journal is not cleared no stager is alive and
    the journal stays as it was, and no run under it ever returns a receipt.
  */
  lemma FailedIsFinal(before: seq<Action>, after: seq<Action>, t: Told)
    requires t in Run(INIT, before).told && t.answer == StagingFailed
    ensures var u := Run(Run(INIT, before), after);
            && (u.generation == t.generation ==>
                  && !StagerAlive(u)
                  && u.journal.Some? && u.journal.value.identity == t.observer.identity
                     && u.journal.value.phase == Started)
            && (forall r :: Given(u, r) ==> r.receipt.generation != t.generation)
  {
    var s := Run(INIT, before);
    RunKeeps(INIT, before);
    RunKeeps(s, after);
    RunRemembers(s, after, t);
  }

  /** The receipts given out, returned by a run or told by an observer, with the identity and boot that asked. */
  ghost predicate Given(s: State, r: Reply) {
    || r in s.returned
    || exists t ::
         t in s.told && t == Told(r.receipt.generation, Observer(r.asked, r.boot), Recovered(r.receipt.record))
  }

  /**
    All receipts told or returned under one journal are one and the same, and whoever is given it
    asked in the boot and for the identity it was staged for; so two who are given one agree on both.
  */
  lemma OneReceiptPerJournal(actions: seq<Action>, q: Reply, r: Reply)
    requires Given(Run(INIT, actions), q) && Given(Run(INIT, actions), r)
    ensures q.receipt.record.identity == q.asked && q.receipt.record.boot == q.boot
    ensures q.receipt.record.phase.Staged? && ReceiptFits(q.receipt.record.phase.receipt, q.asked)
    ensures q.receipt.generation == r.receipt.generation ==> q == r
  {
    RunKeeps(INIT, actions);
    assert q.receipt in Run(INIT, actions).staged && r.receipt in Run(INIT, actions).staged;
  }

  lemma {:induction false} RunSnoc(s: State, actions: seq<Action>, a: Action)
    ensures Run(s, actions + [a]) == Apply(Run(s, actions), a)
    decreases |actions|
  {
    if actions == [] {
      assert Run(s, [a]) == Run(Apply(s, a), [a][1..]);
    } else {
      assert (actions + [a])[1..] == actions[1..] + [a];
      RunSnoc(Apply(s, actions[0]), actions[1..], a);
    }
  }

  lemma LastStep(actions: seq<Action>)
    requires actions != []
    ensures var n := |actions| - 1; Run(INIT, actions) == Apply(Run(INIT, actions[..n]), actions[n])
  {
    var n := |actions| - 1;
    assert actions == actions[..n] + [actions[n]];
    RunSnoc(INIT, actions[..n], actions[n]);
  }

  /** The answer says how the journal stands for this observer in `s`. */
  ghost predicate Tells(s: State, a: Action, o: Observer, answer: Answer) {
    && (answer == InProgress <==> s.holder != Free && a == BeginObserve(o))
    && (answer != InProgress ==>
          && a == ObserverReads && s.observers != [] && o == s.observers[0] && s.holder == Free
          && (answer == StagingAbsent <==> s.journal == None)
          && (answer == StagingFailed <==> s.journal == Some(Record(o.identity, o.boot, Started)))
          && (answer.Recovered? <==>
                && s.journal.Some? && s.journal.value.phase.Staged?
                && s.journal.value.identity == o.identity && s.journal.value.boot == o.boot)
          && (answer.Recovered? ==> s.journal == Some(answer.record)))
  }

  lemma StepTells(s: State, a: Action)
    requires Invariant(s)
    ensures var more := Apply(s, a).told;
            more == s.told || exists t: Told :: more == s.told + [t] && t.generation == s.generation
                                                && Tells(s, a, t.observer, t.answer)
  {
    if a.BeginObserve? && s.holder != Free {
      var t := Told(s.generation, a.observer, InProgress);
      assert Apply(s, a).told == s.told + [t] && Tells(s, a, t.observer, t.answer);
    } else if a.ObserverReads? && s.observers != [] {
      var t := Told(s.generation, s.observers[0], Judge(s.journal, s.observers[0]));
      assert Apply(s, a).told == s.told + [t];
      assert Tells(s, a, t.observer, t.answer);
    }
  }

  /**
    Every answer ever told was true of the journal at the step that told it: absent exactly when there
    was none, failed exactly when it was this identity's in this boot and only started, a receipt
    exactly when it was this identity's in this boot and staged; in progress exactly when the lock was held.
  */
  lemma {:induction false} ToldAsItStood(actions: seq<Action>, i: nat) returns (k: nat)
    requires i < |Run(INIT, actions).told|
    ensures k < |actions|
    ensures var s, t := Run(INIT, actions[..k]), Run(INIT, actions).told[i];
            |s.told| == i && t.generation == s.generation && Tells(s, actions[k], t.observer, t.answer)
    decreases |actions|
  {
    var n := |actions| - 1;
    if n < 0 {
      assert false;
    } else {
      var s := Run(INIT, actions[..n]);
      LastStep(actions);
      RunKeeps(INIT, actions[..n]);
      StepTells(s, actions[n]);
      if i < |s.told| {
        k := ToldAsItStood(actions[..n], i);
        assert actions[..n][..k] == actions[..k];
      } else {
        k := n;
      }
    }
  }

  /** The k-th step is the exit of a living stager of the given journal, with that output. */
  predicate ExitsAt(actions: seq<Action>, k: nat, generation: nat, output: Option<Receipt>) {
    && k < |actions| && actions[k] == StagerExits(output)
    && var s := Run(INIT, actions[..k]); StagerAlive(s) && s.generation == generation
  }

  lemma {:induction false} ExitHappened(actions: seq<Action>) returns (k: nat)
    requires var s := Run(INIT, actions); s.holder.Session? && s.holder.stager.Exited?
    ensures var s := Run(INIT, actions); ExitsAt(actions, k, s.generation, s.holder.stager.output)
    decreases |actions|
  {
    var n := |actions| - 1;
    if n < 0 {
      assert false;
    } else {
      LastStep(actions);
      var s := Run(INIT, actions[..n]);
      if s.holder.Session? && s.holder.stager.Exited? {
        k := ExitHappened(actions[..n]);
        assert actions[..n][..k] == actions[..k];
      } else {
        k := n;
      }
    }
  }

  lemma StagesExit(s: State, a: Action, r: Publication)
    requires Invariant(s) && r in Apply(s, a).staged && r !in s.staged
    ensures r.record.phase.Staged? && r.generation == s.generation
    ensures s.holder.Session? && s.holder.stager == Exited(Some(r.record.phase.receipt))
  {
  }

  /** Every receipt ever staged is the output of a stager that lived under its journal. */
  lemma {:induction false} ReceiptIsTheStagers(actions: seq<Action>, r: Publication) returns (k: nat)
    requires r in Run(INIT, actions).staged
    ensures r.record.phase.Staged? && ExitsAt(actions, k, r.generation, Some(r.record.phase.receipt))
    decreases |actions|
  {
    var n := |actions| - 1;
    if n < 0 {
      assert false;
    } else {
      var s := Run(INIT, actions[..n]);
      if r in s.staged {
        k := ReceiptIsTheStagers(actions[..n], r);
      } else {
        assert Invariant(s) by {
          RunKeeps(INIT, actions[..n]);
        }
        assert r in Apply(s, actions[n]).staged by {
          LastStep(actions);
        }
        StagesExit(s, actions[n], r);
        k := ExitHappened(actions[..n]);
      }
      assert actions[..n][..k] == actions[..k];
    }
  }

  /**
    What a run does with the journal it finds: it goes on to stage exactly when there is none, it
    returns a receipt exactly when one is staged for its own identity in its own boot, and otherwise
    it leaves everything as it is, and no stager is spawned.
  */
  lemma RunChecksItsOwn(actions: seq<Action>)
    requires var s := Run(INIT, actions); s.holder.Session? && s.holder.runner == CheckJournal
    ensures var s := Run(INIT, actions); var t := Apply(s, RunnerStep);
            && (t.holder == s.holder.(runner := PublishStarted) <==> s.journal == None)
            && (s.journal.Some? ==> t == s.(holder := Free, returned := t.returned))
            && (t.returned != s.returned <==>
                  && s.journal.Some? && s.journal.value.phase.Staged?
                  && s.journal.value.identity == s.holder.identity && s.journal.value.boot == s.holder.boot)
            && (t.returned != s.returned ==>
                  t.returned == s.returned + [Reply(s.holder.identity, s.holder.boot,
                                                    Publication(s.generation, s.journal.value))])
  {
    RunKeeps(INIT, actions);
  }

  /** Only a clearing that names the journal's installation removes it, and only while no stager is alive. */
  lemma ClearsOnlyItsOwn(actions: seq<Action>, a: Action)
    requires Run(INIT, actions).journal.Some? && Apply(Run(INIT, actions), a).journal == None
    ensures var s := Run(INIT, actions);
            && a == ClearStep && s.holder == Clearing(s.journal.value.identity.installation)
            && !StagerAlive(s) && s.observers == []
  {
    RunKeeps(INIT, actions);
  }

  // ---- the stager's own time, and runs that nothing disturbs ----

  /** Nothing but answers "in progress" has come about between two moments. */
  ghost predicate OnlyInProgress(s: State, t: State) {
    && t == s.(holder := t.holder, told := t.told) && s.told <= t.told
    && forall k :: |s.told| <= k < |t.told| ==> t.told[k].answer == InProgress
  }

  lemma StagerStep(s: State, a: Action)
    requires Invariant(s) && StagerAlive(s) && !a.StagerExits? && !a.Reboot?
    ensures StagerAlive(Apply(s, a)) && OnlyInProgress(s, Apply(s, a))
  {
  }

  lemma {:induction false} StagerSteps(s: State, actions: seq<Action>)
    requires Invariant(s) && StagerAlive(s)
    requires forall i :: 0 <= i < |actions| ==> !actions[i].StagerExits? && !actions[i].Reboot?
    ensures StagerAlive(Run(s, actions)) && OnlyInProgress(s, Run(s, actions))
    decreases |actions|
  {
    if actions != [] {
      StagerStep(s, actions[0]);
      StepKeeps(s, actions[0]);
      StagerSteps(Apply(s, actions[0]), actions[1..]);
    }
  }

  /**
    The stager outlives its run: until it exits, whoever else dies, no run, clearing or observer gets
    the lock. The journal stays, nothing is spawned, staged or returned, and observers are told "in progress".
  */
  lemma StagerHoldsLock(before: seq<Action>, after: seq<Action>)
    requires StagerAlive(Run(INIT, before))
    requires forall i :: 0 <= i < |after| ==> !after[i].StagerExits? && !after[i].Reboot?
    ensures var s, t := Run(INIT, before), Run(Run(INIT, before), after); StagerAlive(t) && OnlyInProgress(s, t)
  {
    RunKeeps(INIT, before);
    StagerSteps(Run(INIT, before), after);
  }

  lemma RunMore(s: State, actions: seq<Action>, a: Action, t: State)
    requires Apply(Run(s, actions), a) == t
    ensures Run(s, actions + [a]) == t
  {
    RunSnoc(s, actions, a);
  }

  /** A run that finds no journal up to the exit of its stager. */
  lemma RunsUntilExit(s: State, identity: Identity) returns (steps: seq<Action>)
    requires s.holder == Free && s.observers == [] && s.journal == None
    ensures Run(s, steps) == s.(journal := Some(Record(identity, s.boot, Started)),
                                holder := Session(identity, s.boot, Wait, Alive), spawns := s.spawns + [s.generation])
  {
    var started := s.(journal := Some(Record(identity, s.boot, Started)));
    assert Run(s, []) == s;
    RunMore(s, [], BeginRun(identity, s.boot), s.(holder := Session(identity, s.boot, CheckJournal, NoStager)));
    steps := [] + [BeginRun(identity, s.boot)];
    RunMore(s, steps, RunnerStep, s.(holder := Session(identity, s.boot, PublishStarted, NoStager)));
    steps := steps + [RunnerStep];
    RunMore(s, steps, RunnerStep, started.(holder := Session(identity, s.boot, Spawn, NoStager)));
    steps := steps + [RunnerStep];
    RunMore(s, steps, RunnerStep, started.(holder := Session(identity, s.boot, Wait, Alive),
                                           spawns := s.spawns + [s.generation]));
    steps := steps + [RunnerStep];
  }

  /** Undisturbed, a run that finds no journal stages and returns the fitting receipt its stager puts out. */
  lemma RunStages(s: State, identity: Identity, receipt: Receipt) returns (steps: seq<Action>)
    requires s.holder == Free && s.observers == [] && s.journal == None && ReceiptFits(receipt, identity)
    ensures var record := Record(identity, s.boot, Staged(receipt));
            Run(s, steps) == s.(journal := Some(record), spawns := s.spawns + [s.generation],
                                staged := s.staged + [Publication(s.generation, record)],
                                returned := s.returned + [Reply(identity, s.boot, Publication(s.generation, record))])
  {
    var record := Record(identity, s.boot, Staged(receipt));
    steps := RunsUntilExit(s, identity);
    var waiting := Run(s, steps);
    var exited := Session(identity, s.boot, Wait, Exited(Some(receipt)));
    var staged := waiting.(journal := Some(record), staged := s.staged + [Publication(s.generation, record)]);
    RunMore(s, steps, StagerExits(Some(receipt)), waiting.(holder := exited));
    steps := steps + [StagerExits(Some(receipt))];
    RunMore(s, steps, RunnerStep, waiting.(holder := exited.(runner := PublishStaged(receipt))));
    steps := steps + [RunnerStep];
    RunMore(s, steps, RunnerStep, staged.(holder := exited.(runner := Return(record))));
    steps := steps + [RunnerStep];
    RunMore(s, steps, RunnerStep,
            staged.(holder := Free,
                    returned := s.returned + [Reply(identity, s.boot, Publication(s.generation, record))]));
    steps := steps + [RunnerStep];
  }

  /** Undisturbed, a clearing removes the journal exactly when it names its installation. */
  lemma ClearingRemoves(s: State, installation: Id)
    requires s.holder == Free && s.observers == []
    ensures var t := Run(s, [BeginClear(installation), ClearStep]);
            if s.journal.Some? && s.journal.value.identity.installation == installation
            then t == s.(journal := None, generation := s.generation + 1) else t == s
  {
    assert Run(s, []) == s;
    RunMore(s, [], BeginClear(installation), s.(holder := Clearing(installation)));
    assert [] + [BeginClear(installation)] + [ClearStep] == [BeginClear(installation), ClearStep];
    RunSnoc(s, [] + [BeginClear(installation)], ClearStep);
  }
}
