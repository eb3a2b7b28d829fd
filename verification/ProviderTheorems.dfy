/** What holds of every run of the provider install worker, from an empty journal on. */
module ProviderTheorems {
  import opened Common
  import opened ProviderWorker
  import opened ProviderSafety

  predicate InstallerAlive(s: State) {
    s.children > 0 || (s.worker.Worker? && (s.worker.pc == Installing || s.worker.pc.PublishResult?))
  }

  lemma {:induction false} RunKeeps(s: State, actions: seq<Action>)
    requires Invariant(s)
    ensures Keeps(s, Run(s, actions))
    decreases |actions|
  {
    if actions != [] {
      var t := Apply(s, actions[0]);
      StepKeeps(s, actions[0]);
      RunKeeps(t, actions[1..]);
      ExtendsTransitive(s.journal, t.journal, Run(s, actions).journal);
    } else {
      assert Extends(s.journal, s.journal);
    }
  }

  lemma ExtendsTransitive(j: Journal, k: Journal, l: Journal)
    requires Extends(j, k) && Extends(k, l)
    ensures Extends(j, l)
  {
    forall boot | boot in j.proofs ensures boot in l.proofs && l.proofs[boot] == j.proofs[boot] {
      assert boot in k.proofs;
    }
  }

  /** Every reachable state, crash states included. */
  lemma ReachableInvariant(actions: seq<Action>)
    ensures Invariant(Run(INIT, actions))
  {
    RunKeeps(INIT, actions);
  }

  /**
    Soundness and stability of "stopped": once any observation has answered stopped=True, no
    installer process is alive, and in every continuation none is and none begins.
  */
  lemma StoppedIsFinal(before: seq<Action>, after: seq<Action>, v: Verdict)
    requires v in Run(INIT, before).verdicts && v.report.Ended?
    ensures var s := Run(INIT, before); var t := Run(s, after);
            !InstallerAlive(s) && !InstallerAlive(t) && t.begun == s.begun
  {
    var s := Run(INIT, before);
    ReachableInvariant(before);
    RunKeeps(s, after);
    assert VerdictTrue(s.journal, QuietState(s), v);
  }

  /**
    The unit is issued at most once and the installer begins at most once, in the boot of the
    dispatch and after a freshness check less than 20 s from its clock; the journal fills in order.
  */
  lemma OnceOnly(actions: seq<Action>)
    ensures var s := Run(INIT, actions); var j := s.journal;
            && s.issued <= 1 && |s.begun| <= 1
            && (forall b :: b in s.begun ==>
                  && j.dispatch.Some? && b.dispatched == j.dispatch.value.clock
                  && b.at.boot == b.checked.boot == b.dispatched.boot
                  && 0 <= b.checked.ms - b.dispatched.ms < FRESH_MS && b.checked.ms <= b.at.ms)
            && (s.begun != [] ==> j.started.Some?)
            && (j.result.Some? ==> j.started.Some? && s.begun != [])
            && (j.started.Some? ==> j.dispatch.Some?)
            && (j.dispatch.Some? ==>
                  && j.identity == Some(j.dispatch.value.identity) && j.manifest.Some? && j.launchDigest.Some?
                  && (j.identity.value.version != Legacy ==> j.closure && j.controller))
            && (s.issued > 0 ==> j.dispatch.Some?)
  {
    ReachableInvariant(actions);
  }

  /**
    No published marker is ever replaced or removed, over any run, crash or reboot. The launch file is
    never replaced either: it goes only after the start or under a cancel, and then for good.
  */
  lemma MarkersAreWriteOnce(before: seq<Action>, after: seq<Action>)
    ensures Extends(Run(INIT, before).journal, Run(Run(INIT, before), after).journal)
  {
    ReachableInvariant(before);
    RunKeeps(Run(INIT, before), after);
  }

  /**
    For versions 2 and 3 every stopped observation of a run tells one and the same outcome. It is
    "succeeded" exactly when exit code 0 was recorded and "failed" when another was, in the state then
    and in every later one; "cancelled" is told only with a cancel and no result, then and ever after.
  */
  lemma OneOutcome(before: seq<Action>, after: seq<Action>, v: Verdict, w: Verdict)
    requires v in Run(INIT, before).verdicts && v.report.Ended? && v.identity.version != Legacy
    requires w in Run(Run(INIT, before), after).verdicts && w.report.Ended?
    ensures v == w
    ensures forall j :: j in {Run(INIT, before).journal, Run(Run(INIT, before), after).journal} ==>
              && (v.report.outcome == Succeeded <==> j.result.Some? && j.result.value.exitCode == 0)
              && (j.result.Some? && j.result.value.exitCode != 0 ==> v.report.outcome == Failed)
              && (v.report.outcome == Cancelled ==> j.cancel.Some? && j.result == None)
  {
    var s := Run(INIT, before);
    var t := Run(s, after);
    ReachableInvariant(before);
    RunKeeps(s, after);
    assert VerdictTrue(s.journal, QuietState(s), v) && VerdictTrue(t.journal, QuietState(t), w);
  }

  /**
    A not_started proof is final: no later state has a dispatch, a start or desktop ownership, so no
    observation of any recorded proof is ever rejected as inconsistent.
  */
  lemma NotStartedIsFinal(before: seq<Action>, after: seq<Action>, boot: nat)
    requires boot in Run(INIT, before).journal.proofs && Run(INIT, before).journal.proofs[boot].state == NotStarted
    ensures var j := Run(Run(INIT, before), after).journal;
            && j.dispatch == None && j.started == None && !j.preparationIntent && !j.ownership
            && (forall b :: b in j.proofs ==> j.identity.Some? && ProofConsistent(j, j.proofs[b], j.identity.value))
  {
    var s := Run(INIT, before);
    var j := Run(s, after).journal;
    ReachableInvariant(before);
    RunKeeps(s, after);
    assert boot in j.proofs && j.proofs[boot].state == NotStarted;
  }

  /** In every reachable state every recorded proof passes the check of the observation functions. */
  lemma ProofsAreConsistent(actions: seq<Action>, boot: nat)
    requires boot in Run(INIT, actions).journal.proofs
    ensures var j := Run(INIT, actions).journal;
            j.identity.Some? && ProofConsistent(j, j.proofs[boot], j.identity.value)
  {
    ReachableInvariant(actions);
  }

  /** Cancelled with no installer begun and no worker between its final cancel check and the start. */
  predicate CancelledInTime(s: State) {
    s.journal.cancel.Some? && s.begun == [] && !(s.worker.Worker? && s.worker.pc == Begin)
  }

  lemma CancelledInTimeStep(s: State, a: Action)
    requires Invariant(s) && CancelledInTime(s)
    ensures CancelledInTime(Apply(s, a))
  {
    StepKeeps(s, a);
    if a.ControlStep? && s.ctl.Ctl? {
      ControlMoveAllowed(s, a.first, a.second);
    }
  }

  lemma {:induction false} CancelledInTimeStays(s: State, actions: seq<Action>)
    requires Invariant(s) && CancelledInTime(s)
    ensures CancelledInTime(Run(s, actions))
    decreases |actions|
  {
    if actions != [] {
      StepKeeps(s, actions[0]);
      CancelledInTimeStep(s, actions[0]);
      CancelledInTimeStays(Apply(s, actions[0]), actions[1..]);
    }
  }

  /** A cancel recorded before the worker's final check means the installer never begins. */
  lemma CancelPreventsInstaller(before: seq<Action>, after: seq<Action>)
    requires CancelledInTime(Run(INIT, before))
    ensures Run(Run(INIT, before), after).begun == []
  {
    ReachableInvariant(before);
    CancelledInTimeStays(Run(INIT, before), after);
  }

  // ---- how late the installer begins ----

  /** The time that passes in a run. */
  function Ticks(actions: seq<Action>): nat {
    if actions == [] then 0 else (if actions[0].Tick? then actions[0].ms else 0) + Ticks(actions[1..])
  }

  /** One and the same worker process holds run.lock all along. */
  predicate WorkerLives(s: State, actions: seq<Action>)
    decreases |actions|
  {
    s.worker.Worker? && (actions == [] || WorkerLives(Apply(s, actions[0]), actions[1..]))
  }

  /** The worker stands behind its last freshness check. */
  predicate Checked(s: State) {
    s.worker.Worker? && WorkerStage(s.worker.pc) >= 6
  }

  lemma LiveStep(s: State, a: Action)
    requires Invariant(s) && Checked(s) && Apply(s, a).worker.Worker?
    ensures var t := Apply(s, a);
            && Checked(t) && t.journal.dispatch == s.journal.dispatch
            && t.now == s.now.(ms := s.now.ms + Ticks([a]))
  {
    StepKeeps(s, a);
    assert Ticks([a][1..]) == 0;
  }

  /** While the checked worker lives, time passes by the ticks alone. */
  lemma {:induction false} TimePasses(s: State, actions: seq<Action>)
    requires Invariant(s) && Checked(s) && WorkerLives(s, actions)
    ensures var t := Run(s, actions);
            && Invariant(t) && Checked(t) && t.journal.dispatch == s.journal.dispatch
            && t.now.ms == s.now.ms + Ticks(actions)
    decreases |actions|
  {
    if actions != [] {
      var t := Apply(s, actions[0]);
      StepKeeps(s, actions[0]);
      assert t.worker.Worker?;
      LiveStep(s, actions[0]);
      assert Ticks([actions[0]][1..]) == 0;
      TimePasses(t, actions[1..]);
    }
  }

  /** A worker passes its last freshness check after `before`, and lives through `between` to its start. */
  predicate PassesAndBegins(before: seq<Action>, code: int, between: seq<Action>) {
    var s := Run(INIT, before);
    var t := Apply(s, WorkerStep(code));
    && s.worker.Worker? && s.worker.pc == LastFresh && WorkerLives(t, between)
    && Run(t, between).worker.Worker? && Run(t, between).worker.pc == Begin
  }

  /**
    Time may pass between the last freshness check and the start. However control, queue and guest
    interleave with it, the start is within 20 s of the dispatch clock exactly when less time passes
    in between than the clock had left at the check.
  */
  lemma BeginsInTime(before: seq<Action>, code: int, between: seq<Action>, exitCode: int)
    requires PassesAndBegins(before, code, between)
    ensures var s := Run(INIT, before);
            var t := Apply(Run(Apply(s, WorkerStep(code)), between), WorkerStep(exitCode));
            && s.journal.dispatch.Some? && |t.begun| == 1
            && var clock := s.journal.dispatch.value.clock;
               && 0 <= s.now.ms - clock.ms < FRESH_MS && t.begun[0].dispatched == clock
               && (t.begun[0].at.ms - clock.ms < FRESH_MS <==> Ticks(between) < FRESH_MS - (s.now.ms - clock.ms))
  {
    var s := Run(INIT, before);
    var t := Apply(s, WorkerStep(code));
    ReachableInvariant(before);
    StepKeeps(s, WorkerStep(code));
    assert t.worker.Worker?;
    TimePasses(t, between);
  }

  lemma {:induction false} WorkerLivesSnoc(s: State, actions: seq<Action>, a: Action)
    requires WorkerLives(s, actions) && Apply(Run(s, actions), a).worker.Worker?
    ensures WorkerLives(s, actions + [a])
    decreases |actions|
  {
    if actions == [] {
      assert [a][1..] == [];
    } else {
      assert (actions + [a])[1..] == actions[1..] + [a];
      WorkerLivesSnoc(Apply(s, actions[0]), actions[1..], a);
    }
  }

  /** Where a worker's last freshness check lies in a run, and what followed. */
  datatype Split = Split(before: seq<Action>, code: int, between: seq<Action>)

  predicate SplitsAtCheck(actions: seq<Action>, at: Split) {
    var s := Run(INIT, at.before);
    && actions == at.before + [WorkerStep(at.code)] + at.between
    && s.worker.Worker? && s.worker.pc == LastFresh
    && WorkerLives(Apply(s, WorkerStep(at.code)), at.between)
  }

  lemma {:induction false} RunConcat(s: State, first: seq<Action>, second: seq<Action>)
    ensures Run(s, first + second) == Run(Run(s, first), second)
    decreases |first|
  {
    if first == [] {
      assert first + second == second;
    } else {
      assert (first + second)[1..] == first[1..] + second;
      RunConcat(Apply(s, first[0]), first[1..], second);
    }
  }

  lemma RunsOnFrom(at: Split)
    ensures var s := Run(INIT, at.before);
            Run(INIT, at.before + [WorkerStep(at.code)] + at.between) == Run(Apply(s, WorkerStep(at.code)), at.between)
  {
    RunConcat(INIT, at.before + [WorkerStep(at.code)], at.between);
    RunSnoc(INIT, at.before, WorkerStep(at.code));
  }

  /** Every checked worker came by a passing check and has lived since: no start escapes `BeginsInTime`. */
  lemma {:induction false} CheckedSince(actions: seq<Action>) returns (at: Split)
    requires Checked(Run(INIT, actions))
    ensures SplitsAtCheck(actions, at)
    decreases |actions|
  {
    if actions == [] {
      assert false;
    } else {
      var earlier, a := actions[..|actions| - 1], actions[|actions| - 1];
      assert actions == earlier + [a];
      RunSnoc(INIT, earlier, a);
      var s := Run(INIT, earlier);
      if Checked(s) {
        at := CheckedSince(earlier);
        RunsOnFrom(at);
        WorkerLivesSnoc(Apply(Run(INIT, at.before), WorkerStep(at.code)), at.between, a);
        at := at.(between := at.between + [a]);
        assert actions == at.before + [WorkerStep(at.code)] + at.between;
      } else {
        CheckStep(s, a);
        at := Split(earlier, a.exitCode, []);
        assert actions == at.before + [WorkerStep(at.code)] + [];
      }
    }
  }

  /** Only the passing check itself brings a worker behind its last freshness check. */
  lemma CheckStep(s: State, a: Action)
    requires !Checked(s) && Checked(Apply(s, a))
    ensures a.WorkerStep? && s.worker.Worker? && s.worker.pc == LastFresh
  {
  }

  /** Every run that stands at the start of the installer is one that `BeginsInTime` speaks of. */
  lemma EveryStartWasChecked(actions: seq<Action>) returns (at: Split)
    requires Run(INIT, actions).worker.Worker? && Run(INIT, actions).worker.pc == Begin
    ensures actions == at.before + [WorkerStep(at.code)] + at.between
    ensures PassesAndBegins(at.before, at.code, at.between)
  {
    at := CheckedSince(actions);
    RunsOnFrom(at);
  }

  lemma {:induction false} RunSnoc(s: State, actions: seq<Action>, a: Action)
    ensures Run(s, actions + [a]) == Apply(Run(s, actions), a)
    decreases |actions|
  {
    if actions == [] {
      assert Run(s, [a]) == Run(Apply(s, a), [a][1..]);
    } else {
      assert (actions + [a])[1..] == actions[1..] + [a];
      RunSnoc(Apply(s, actions[0]), actions[1..], a);
    }
  }

  // A run in which the guest sleeps between the last freshness check and the start.

  const LATE_REQUEST := Start(Identity(Legacy, 0), Clock(0, 0), 0, 0)
  const LATE_STEP := ControlStep(true, true)

  function LateJournal(published: nat): Journal {
    EMPTY_JOURNAL.(identity := Some(LATE_REQUEST.identity),
                  manifest := if published > 0 then Some(0) else None,
                  launch := if published > 1 then Some(0) else None,
                  launchDigest := if published > 2 then Some(0) else None,
                  dispatch := if published > 3 then Some(Dispatch(LATE_REQUEST.identity, LATE_REQUEST.clock)) else None)
  }

  lemma LateIdentity() returns (actions: seq<Action>)
    ensures Run(INIT, actions) == INIT.(journal := LateJournal(0), ctl := Ctl(LATE_REQUEST, Starting(ReadMarker)))
  {
    actions := [EnterControl(LATE_REQUEST)];
    RunSnoc(INIT, [], EnterControl(LATE_REQUEST));
    var pcs := [Identifying(Entered), Identifying(Identify), Identifying(NewIdentity), Starting(ReadCancel),
                Starting(CheckDigest), Starting(ReadMarker)];
    for k := 0 to 5
      invariant Run(INIT, actions) == INIT.(journal := if k < 3 then EMPTY_JOURNAL else LateJournal(0),
                                            ctl := Ctl(LATE_REQUEST, pcs[k]))
    {
      RunSnoc(INIT, actions, LATE_STEP);
      actions := actions + [LATE_STEP];
    }
  }

  function LateStart(k: nat): State
    requires k < 6
  {
    var pcs := [Starting(ReadMarker), Starting(PublishManifest), Starting(PublishLaunch), Starting(PublishDigest),
                Starting(PublishDispatch), Starting(IssueUnit)];
    INIT.(journal := LateJournal(if k == 0 then 0 else k - 1), ctl := Ctl(LATE_REQUEST, pcs[k]))
  }

  lemma LatePublish(k: nat)
    requires k < 5
    ensures Apply(LateStart(k), LATE_STEP) == LateStart(k + 1)
  {
  }

  lemma LateDispatch() returns (actions: seq<Action>)
    ensures Run(INIT, actions) == LateStart(5)
  {
    actions := LateIdentity();
    for k := 0 to 5
      invariant Run(INIT, actions) == LateStart(k)
    {
      RunSnoc(INIT, actions, LATE_STEP);
      LatePublish(k);
      actions := actions + [LATE_STEP];
    }
  }

  function LateState(k: nat): State
    requires k < 10
  {
    var pcs := [ReadDispatch, FirstFresh, FenceCancel, FenceStarted, Verify, LastFresh, PublishStarted, RemoveLaunch,
                FinalCancel, Begin];
    INIT.(journal := LateJournal(4).(started := if k > 6 then Some(LATE_REQUEST.identity) else None,
                                     launch := if k > 7 then None else Some(0)),
          ctl := Ctl(LATE_REQUEST, Sampling(SampleUnit)), issued := 1,
          worker := Worker(pcs[k], Clock(0, 0)))
  }

  lemma LateWork(k: nat)
    requires k < 9
    ensures Apply(LateState(k), WorkerStep(0)) == LateState(k + 1)
  {
  }

  function LateIssued(waiting: nat): State {
    LateStart(5).(ctl := Ctl(LATE_REQUEST, Sampling(SampleUnit)), issued := 1, waiting := waiting)
  }

  lemma LateIssue()
    ensures Apply(LateStart(5), LATE_STEP) == LateIssued(0)
  {
  }

  lemma LateSpawn()
    ensures Apply(LateIssued(0), SpawnWorker) == LateIssued(1) && Apply(LateIssued(1), WorkerLocks) == LateState(0)
  {
  }

  lemma RunTo(actions: seq<Action>, s: State, a: Action, t: State)
    requires Run(INIT, actions) == s && Apply(s, a) == t
    ensures Run(INIT, actions + [a]) == t
  {
    RunSnoc(INIT, actions, a);
  }

  /** The unit is issued, its worker appears and takes run.lock. */
  lemma LateLock() returns (actions: seq<Action>)
    ensures Run(INIT, actions) == LateState(0)
  {
    actions := LateDispatch();
    LateIssue();
    LateSpawn();
    RunTo(actions, LateStart(5), LATE_STEP, LateIssued(0));
    RunTo(actions + [LATE_STEP], LateIssued(0), SpawnWorker, LateIssued(1));
    RunTo(actions + [LATE_STEP] + [SpawnWorker], LateIssued(1), WorkerLocks, LateState(0));
    actions := actions + [LATE_STEP] + [SpawnWorker] + [WorkerLocks];
  }

  /** The one issued unit's installer may begin any time after the dispatch clock, 20 s and more. */
  lemma InstallerMayBeginLate(late: nat) returns (actions: seq<Action>)
    ensures var s := Run(INIT, actions);
            s.issued == 1 && |s.begun| == 1 && s.begun[0].at.ms - s.begun[0].dispatched.ms == late
  {
    actions := LateLock();
    for k := 0 to 9
      invariant Run(INIT, actions) == LateState(k)
    {
      RunSnoc(INIT, actions, WorkerStep(0));
      LateWork(k);
      actions := actions + [WorkerStep(0)];
    }
    RunSnoc(INIT, actions, Tick(late));
    RunSnoc(INIT, actions + [Tick(late)], WorkerStep(0));
    actions := actions + [Tick(late)] + [WorkerStep(0)];
  }
}
