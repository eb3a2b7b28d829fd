/** Which outcome an observation of the provider worker tells, over whole runs. */
module ProviderOutcomes {
  import opened Common
  import opened ProviderWorker
  import opened ProviderSafety
  import opened ProviderTheorems

  lemma WorkerRecordsNone(j: Journal, now: Clock, worker: Worker, exitCode: int)
    requires worker.Worker?
    ensures var e := Work(j, now, worker, exitCode).effect; !e.WriteOutcome? && !e.Tell?
  {
  }

  lemma EffectRecords(s: State, e: Effect)
    ensures Perform(s, e).verdicts == s.verdicts + if e.Tell? then [e.verdict] else []
    ensures Perform(s, e).journal.outcome == if e.WriteOutcome? then Some(e.record) else s.journal.outcome
  {
  }

  /** Outcomes and answers come from the process that holds manager.lock. */
  lemma OthersRecordNone(s: State, a: Action)
    requires !a.ControlStep?
    ensures Apply(s, a).journal.outcome == s.journal.outcome && Apply(s, a).verdicts == s.verdicts
  {
    if a.WorkerStep? && s.worker.Worker? {
      WorkerRecordsNone(s.journal, s.now, s.worker, a.exitCode);
    }
  }

  /** Between two moments at most one verdict is told, true of the journal before, and at most the outcome recorded. */
  ghost predicate Records(s: State, t: State) {
    && (t.verdicts == s.verdicts || exists v :: t.verdicts == s.verdicts + [v] && Tells(s.journal, v))
    && (s.journal.outcome == None && t.journal.outcome.Some? ==>
          Concludes(s.journal, t.journal.outcome.value.outcome))
  }

  lemma MoveRecords(s: State, move: Move)
    requires ControlAllows(s.journal, QuietState(s), s.issued, move)
    ensures Records(s, Perform(s, move.effect).(ctl := move.ctl))
  {
    EffectRecords(s, move.effect);
    if move.effect.Tell? {
      assert Tells(s.journal, move.effect.verdict);
    }
  }

  /** A verdict is true of the journal when it is told, and an outcome when it is recorded. */
  lemma StepRecords(s: State, a: Action)
    requires Invariant(s)
    ensures Records(s, Apply(s, a))
  {
    if a.ControlStep? {
      if s.ctl.Ctl? {
        ControlMoveAllowed(s, a.first, a.second);
        MoveRecords(s, ControlMove(s, a.first, a.second));
      }
    } else {
      OthersRecordNone(s, a);
    }
  }

  lemma LastRecords(actions: seq<Action>)
    requires actions != []
    ensures var s, t := Run(INIT, actions[..|actions| - 1]), Run(INIT, actions);
            Records(s, t) && Kept(s.journal.outcome, t.journal.outcome)
  {
    var earlier, a := actions[..|actions| - 1], actions[|actions| - 1];
    assert actions == earlier + [a];
    RunSnoc(INIT, earlier, a);
    ReachableInvariant(earlier);
    StepKeeps(Run(INIT, earlier), a);
    StepRecords(Run(INIT, earlier), a);
  }

  /**
    Every verdict of a run was true at the step that told it: for legacy workers "cancelled" exactly
    when there was a cancel, and otherwise "succeeded" exactly when exit code 0 was recorded; for the
    others the recorded outcome. "stopping" was told with a cancel, "running" and "unknown" without.
  */
  lemma {:induction false} VerdictTold(actions: seq<Action>, i: nat) returns (k: nat)
    requires i < |Run(INIT, actions).verdicts|
    ensures k < |actions|
    ensures var s, v := Run(INIT, actions[..k]), Run(INIT, actions).verdicts[i];
            |s.verdicts| == i && Run(INIT, actions[..k + 1]).verdicts == s.verdicts + [v] && Tells(s.journal, v)
    decreases |actions|
  {
    var n := |actions| - 1;
    if n < 0 {
      assert false;
    } else {
      var s := Run(INIT, actions[..n]);
      LastRecords(actions);
      if i < |s.verdicts| {
        k := VerdictTold(actions[..n], i);
        assert actions[..n][..k] == actions[..k] && actions[..n][..k + 1] == actions[..k + 1];
      } else {
        k := n;
        assert actions[..k + 1] == actions;
      }
    }
  }

  /**
    A recorded outcome was concluded at one step of the run, from the journal as it was then: failed or
    succeeded as the installer's exit code says, and without one cancelled exactly when a cancel was there.
  */
  lemma {:induction false} OutcomeConcluded(actions: seq<Action>) returns (k: nat)
    requires Run(INIT, actions).journal.outcome.Some?
    ensures k < |actions|
    ensures var s, t := Run(INIT, actions[..k]), Run(INIT, actions[..k + 1]);
            && s.journal.outcome == None && t.journal.outcome == Run(INIT, actions).journal.outcome
            && Concludes(s.journal, t.journal.outcome.value.outcome)
    decreases |actions|
  {
    var n := |actions| - 1;
    if n < 0 {
      assert false;
    } else {
      var s := Run(INIT, actions[..n]);
      LastRecords(actions);
      if s.journal.outcome.Some? {
        k := OutcomeConcluded(actions[..n]);
        assert actions[..n][..k] == actions[..k] && actions[..n][..k + 1] == actions[..k + 1];
      } else {
        k := n;
        assert actions[..k + 1] == actions;
      }
    }
  }

  lemma {:induction false} VerdictsGrow(s: State, actions: seq<Action>)
    ensures |s.verdicts| <= |Run(s, actions).verdicts|
    decreases |actions|
  {
    if actions != [] {
      VerdictsGrow(Apply(s, actions[0]), actions[1..]);
    }
  }

  /** What is there after the first k steps is there later: answers, and a recorded outcome. */
  lemma Later(actions: seq<Action>, k: nat)
    requires k <= |actions|
    ensures var s, t := Run(INIT, actions[..k]), Run(INIT, actions);
            |s.verdicts| <= |t.verdicts| && Kept(s.journal.outcome, t.journal.outcome)
  {
    assert actions == actions[..k] + actions[k..];
    RunConcat(INIT, actions[..k], actions[k..]);
    VerdictsGrow(Run(INIT, actions[..k]), actions[k..]);
    ReachableInvariant(actions[..k]);
    RunKeeps(Run(INIT, actions[..k]), actions[k..]);
  }

  /** A cancel found neither result nor recorded outcome when the worker was already quiet. */
  predicate CancelledUnrecorded(s: State) {
    QuietState(s) && s.journal.cancel.Some? && s.journal.result == None && s.journal.outcome == None
  }

  /** In every continuation there still is the cancel, and still no result. */
  lemma StillCancelled(before: seq<Action>, after: seq<Action>, k: nat)
    requires CancelledUnrecorded(Run(INIT, before)) && |before| <= k <= |before + after|
    ensures var s := Run(INIT, (before + after)[..k]); s.journal.cancel.Some? && s.journal.result == None
  {
    var more := after[..k - |before|];
    assert (before + after)[..k] == before + more;
    RunConcat(INIT, before, more);
    ReachableInvariant(before);
    RunKeeps(Run(INIT, before), more);
  }

  /** Once it does, every outcome recorded and every outcome told from then on is "cancelled". */
  lemma CancelledFromThenOn(before: seq<Action>, after: seq<Action>)
    requires CancelledUnrecorded(Run(INIT, before))
    ensures var t := Run(Run(INIT, before), after);
            t.journal.outcome.Some? ==> t.journal.outcome.value.outcome == Cancelled
    ensures var s := Run(INIT, before);
            var t := Run(s, after);
            forall i :: |s.verdicts| <= i < |t.verdicts| && t.verdicts[i].report.Ended? ==>
              t.verdicts[i].report.outcome == Cancelled
  {
    var actions, s := before + after, Run(INIT, before);
    var t := Run(s, after);
    RunConcat(INIT, before, after);
    if t.journal.outcome.Some? {
      var k := OutcomeConcluded(actions);
      if k < |before| {
        assert before[..k + 1] == actions[..k + 1];
        Later(before, k + 1);
      }
      StillCancelled(before, after, k);
    }
    ReachableInvariant(actions);
    forall i | |s.verdicts| <= i < |t.verdicts| && t.verdicts[i].report.Ended?
      ensures t.verdicts[i].report.outcome == Cancelled
    {
      assert VerdictTrue(t.journal, QuietState(t), t.verdicts[i]);
      var k := VerdictTold(actions, i);
      if k < |before| {
        assert before[..k + 1] == actions[..k + 1];
        Later(before, k + 1);
      }
      StillCancelled(before, after, k);
    }
  }

  /** An outcome recorded with neither cancel nor result is "failed", whatever comes later. */
  lemma FailedFromThenOn(before: seq<Action>, after: seq<Action>)
    requires var j := Run(INIT, before).journal; j.outcome.Some? && j.cancel == None && j.result == None
    ensures var j := Run(Run(INIT, before), after).journal; j.outcome.Some? && j.outcome.value.outcome == Failed
  {
    ReachableInvariant(before);
    RunKeeps(Run(INIT, before), after);
  }

  // ---- an observation that nothing disturbs ----

  function Rank(pc: ConcludePc): nat {
    match pc
    case ReadRecorded(_) => 5
    case ReadResult(_) => 4
    case PublishOutcome(_, _) => 3
    case LegacyResult => 3
    case UnlinkLaunch(_, _) => 2
    case Answer(_) => 1
  }

  /** One step of the end of `observe`: it tells its answer, or goes on to one that says "stopped". */
  lemma ConcludingStep(s: State, at: ConcludePc)
    requires Invariant(s) && s.ctl.Ctl? && s.ctl.pc == Concluding(at)
    ensures var t := Apply(s, ControlStep(true, true));
            if at.Answer? then t.verdicts == s.verdicts + [Verdict(s.ctl.request.identity, at.report)]
            else
              && t.verdicts == s.verdicts && t.ctl.Ctl? && t.ctl.request == s.ctl.request && t.ctl.pc.Concluding?
              && Rank(t.ctl.pc.conclude) < Rank(at) && (t.ctl.pc.conclude.Answer? ==> t.ctl.pc.conclude.report.Ended?)
  {
  }

  lemma {:induction false} ConcludesAlone(s: State, at: ConcludePc) returns (v: Verdict, steps: seq<Action>)
    requires Invariant(s) && s.ctl.Ctl? && s.ctl.pc == Concluding(at)
    ensures (forall i :: 0 <= i < |steps| ==> steps[i] == ControlStep(true, true))
    ensures Run(s, steps).verdicts == s.verdicts + [v] && v.identity == s.ctl.request.identity
    ensures if at.Answer? then v.report == at.report else v.report.Ended?
    decreases Rank(at)
  {
    var t := Apply(s, ControlStep(true, true));
    ConcludingStep(s, at);
    if at.Answer? {
      v, steps := Verdict(s.ctl.request.identity, at.report), [ControlStep(true, true)];
      assert Run(t, []) == t;
    } else {
      StepKeeps(s, ControlStep(true, true));
      var rest;
      v, rest := ConcludesAlone(t, t.ctl.pc.conclude);
      steps := [ControlStep(true, true)] + rest;
      assert steps[1..] == rest;
    }
  }

  /** What `observe` finds when the unit says so and nothing else moves. */
  datatype Found = Found(loaded: bool, cancelled: bool, started: bool, stopped: bool)

  function AsFound(s: State, quiet: bool, loaded: bool): Found {
    Found(loaded, s.journal.cancel.Some?, s.journal.started.Some?, quiet && CgroupEmpty(s))
  }

  /** The samples of an undisturbed observation, in order. */
  function SampleAt(s: State, quiet: bool, loaded: bool, k: nat): SamplePc {
    var f := AsFound(s, quiet, loaded);
    match k
    case 0 => SampleUnit
    case 1 => ObserveCancel(quiet, loaded)
    case 2 => ObserveStarted(quiet, loaded, f.cancelled)
    case 3 => SampleCgroup(quiet, loaded, f.cancelled, f.started)
    case _ =>
      if f.stopped && k == 4 then ProbeRunLock(loaded, f.cancelled, f.started)
      else Judge(loaded, f.cancelled, f.started, f.stopped)
  }

  lemma SamplingStep(s: State, quiet: bool, loaded: bool, k: nat)
    requires Invariant(s) && s.ctl.Ctl? && s.ctl.pc == Sampling(SampleAt(s, quiet, loaded, k))
    requires !SampleAt(s, quiet, loaded, k).Judge?
    ensures Apply(s, ControlStep(quiet, loaded)) == s.(ctl := s.ctl.(pc := Sampling(SampleAt(s, quiet, loaded, k + 1))))
  {
  }

  lemma {:induction false} SamplesAlone(s: State, quiet: bool, loaded: bool, k: nat) returns (steps: seq<Action>)
    requires Invariant(s) && s.ctl.Ctl? && s.ctl.pc == Sampling(SampleAt(s, quiet, loaded, k)) && k <= 5
    ensures forall i :: 0 <= i < |steps| ==> steps[i] == ControlStep(quiet, loaded)
    ensures var f := AsFound(s, quiet, loaded);
            Run(s, steps) == s.(ctl := s.ctl.(pc := Sampling(Judge(f.loaded, f.cancelled, f.started, f.stopped))))
    decreases 6 - k
  {
    if SampleAt(s, quiet, loaded, k).Judge? {
      steps := [];
    } else {
      SamplingStep(s, quiet, loaded, k);
      StepKeeps(s, ControlStep(quiet, loaded));
      var rest := SamplesAlone(Apply(s, ControlStep(quiet, loaded)), quiet, loaded, k + 1);
      steps := [ControlStep(quiet, loaded)] + rest;
      assert steps[1..] == rest;
    }
  }

  /** The judgement: "unknown", "running", "stopping", or that the worker has stopped. */
  lemma JudgeStep(s: State, f: Found)
    requires Invariant(s) && s.ctl.Ctl? && s.ctl.pc == Sampling(Judge(f.loaded, f.cancelled, f.started, f.stopped))
    ensures var t := Apply(s, ControlStep(true, true));
            && t.verdicts == s.verdicts && t.ctl.Ctl? && t.ctl.request == s.ctl.request && t.ctl.pc.Concluding?
            && var at := t.ctl.pc.conclude;
               && (!at.Answer? <==> f.stopped && (f.cancelled || f.started))
               && (at == Answer(Stopping) <==> !f.stopped && f.cancelled)
               && (at == Answer(Running) <==> !f.stopped && !f.cancelled && (f.started || f.loaded))
               && (at == Answer(Unknown) <==> !f.cancelled && !f.started && (f.stopped || !f.loaded))
  {
  }

  /**
    From any reachable state an observation that nothing disturbs ends with an answer. It is "stopped"
    exactly when a cancel or a start was recorded and unit, cgroup and run lock are quiet; else
    "stopping" exactly under a cancel, "running" exactly when the worker started or its unit is loaded,
    and "unknown" exactly when neither cancel nor start says that no worker can still come.
  */
  lemma ObservedAlone(actions: seq<Action>, quiet: bool, loaded: bool) returns (steps: seq<Action>, v: Verdict)
    requires var s := Run(INIT, actions); s.ctl.Ctl? && s.ctl.pc == Sampling(SampleUnit)
    ensures forall i :: 0 <= i < |steps| ==> steps[i].ControlStep?
    ensures var s := Run(INIT, actions);
            var cancelled, started := s.journal.cancel.Some?, s.journal.started.Some?;
            var stopped := quiet && CgroupEmpty(s);
            && Run(s, steps).verdicts == s.verdicts + [v] && v.identity == s.ctl.request.identity
            && (v.report.Ended? <==> stopped && (cancelled || started))
            && (v.report == Stopping <==> !stopped && cancelled)
            && (v.report == Running <==> !stopped && !cancelled && (started || loaded))
            && (v.report == Unknown <==> !cancelled && !started && (stopped || !loaded))
  {
    var s := Run(INIT, actions);
    ReachableInvariant(actions);
    var first := SamplesAlone(s, quiet, loaded, 0);
    var t := Run(s, first);
    RunKeeps(s, first);
    JudgeStep(t, AsFound(s, quiet, loaded));
    StepKeeps(t, ControlStep(true, true));
    var u, last := Apply(t, ControlStep(true, true)), [];
    v, last := ConcludesAlone(u, u.ctl.pc.conclude);
    steps := first + ([ControlStep(true, true)] + last);
    RunConcat(s, first, [ControlStep(true, true)] + last);
    assert ([ControlStep(true, true)] + last)[1..] == last;
  }

  // ---- cleanup proofs ----

  lemma SamplingWritesNoProof(s: State, first: bool, second: bool)
    requires s.ctl.Ctl? && (s.ctl.pc.Sampling? || s.ctl.pc.Concluding?)
    ensures !ControlMove(s, first, second).effect.WriteProof?
  {
  }

  lemma StartingWritesNoProof(s: State, first: bool, second: bool)
    requires s.ctl.Ctl? && (s.ctl.pc.Identifying? || s.ctl.pc.Starting?)
    ensures !ControlMove(s, first, second).effect.WriteProof?
  {
  }

  lemma ProofsWritten(j: Journal, e: Effect)
    ensures Written(j, e).proofs == if e.WriteProof? then j.proofs[e.boot := e.proof] else j.proofs
  {
  }

  lemma OthersWriteNoProof(s: State, a: Action)
    requires !a.ControlStep? && !a.WorkerStep?
    ensures Apply(s, a).journal.proofs == s.journal.proofs
  {
  }

  lemma WorkerWritesNoProof(j: Journal, now: Clock, worker: Worker, exitCode: int)
    requires worker.Worker?
    ensures !Work(j, now, worker, exitCode).effect.WriteProof?
  {
  }

  /**
    The proof is published for this boot, under this identity's cancel, with the worker quiet: "not
    started" with no dispatch, and "stopped" by the very step in which stopping the dispatched
    worker's own services succeeded, for the desktop only with its ownership recorded.
  */
  ghost predicate ProvesAt(s: State, a: Action, boot: nat, proof: Proof) {
    && a.ControlStep? && s.ctl.Ctl? && s.ctl.pc.Cleaning? && s.now.boot == boot && QuietState(s)
    && s.journal.cancel == Some(proof.identity) && proof.identity == s.ctl.request.identity
    && match proof.state
       case NotStarted => s.ctl.pc.clean == PublishNotStarted && s.journal.dispatch == None
       case VerifiedStopped =>
         && s.ctl.pc.clean == StopOwned && a.first && s.journal.dispatch.Some?
         && (proof.identity.version == Desktop ==> s.journal.ownership)
  }

  lemma CleaningStep(s: State, first: bool, second: bool, boot: nat)
    requires Invariant(s) && s.ctl.Ctl? && s.ctl.pc.Cleaning? && boot !in s.journal.proofs
    ensures var e := ControlMove(s, first, second).effect;
            e.WriteProof? && e.boot == boot ==> ProvesAt(s, ControlStep(first, second), boot, e.proof)
  {
  }

  lemma MoveProves(s: State, first: bool, second: bool, boot: nat)
    requires Invariant(s) && s.ctl.Ctl? && boot !in s.journal.proofs
    ensures var e := ControlMove(s, first, second).effect;
            e.WriteProof? && e.boot == boot ==> ProvesAt(s, ControlStep(first, second), boot, e.proof)
  {
    match s.ctl.pc {
      case Cleaning(_) => CleaningStep(s, first, second, boot);
      case Sampling(_) | Concluding(_) => SamplingWritesNoProof(s, first, second);
      case _ => StartingWritesNoProof(s, first, second);
    }
  }

  lemma ProofStep(s: State, a: Action, boot: nat)
    requires Invariant(s) && boot !in s.journal.proofs && boot in Apply(s, a).journal.proofs
    ensures ProvesAt(s, a, boot, Apply(s, a).journal.proofs[boot])
  {
    match a {
      case ControlStep(first, second) =>
        if s.ctl.Ctl? {
          MoveProves(s, first, second, boot);
          ProofsWritten(s.journal, ControlMove(s, first, second).effect);
        }
      case WorkerStep(exitCode) =>
        if s.worker.Worker? {
          WorkerWritesNoProof(s.journal, s.now, s.worker, exitCode);
          ProofsWritten(s.journal, Work(s.journal, s.now, s.worker, exitCode).effect);
        }
      case _ => OthersWriteNoProof(s, a);
    }
  }

  lemma LastProof(actions: seq<Action>, boot: nat)
    requires actions != [] && boot in Run(INIT, actions).journal.proofs
    ensures var s, proof := Run(INIT, actions[..|actions| - 1]), Run(INIT, actions).journal.proofs[boot];
            if boot in s.journal.proofs then s.journal.proofs[boot] == proof
            else ProvesAt(s, actions[|actions| - 1], boot, proof)
  {
    var earlier, a := actions[..|actions| - 1], actions[|actions| - 1];
    assert actions == earlier + [a];
    RunSnoc(INIT, earlier, a);
    ReachableInvariant(earlier);
    StepKeeps(Run(INIT, earlier), a);
    if boot !in Run(INIT, earlier).journal.proofs {
      ProofStep(Run(INIT, earlier), a, boot);
    }
  }

  /** Every recorded cleanup proof was published by a step at which it was true. */
  lemma {:induction false} ProofHappened(actions: seq<Action>, boot: nat) returns (k: nat)
    requires boot in Run(INIT, actions).journal.proofs
    ensures k < |actions|
    ensures ProvesAt(Run(INIT, actions[..k]), actions[k], boot, Run(INIT, actions).journal.proofs[boot])
    decreases |actions|
  {
    var n := |actions| - 1;
    if n < 0 {
      assert false;
    } else {
      LastProof(actions, boot);
      if boot in Run(INIT, actions[..n]).journal.proofs {
        k := ProofHappened(actions[..n], boot);
        assert actions[..n][..k] == actions[..k];
      } else {
        k := n;
      }
    }
  }
}
