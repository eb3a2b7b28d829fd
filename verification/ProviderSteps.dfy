/** Which steps of a run publish a marker, issue the unit or begin the installer. */
module ProviderSteps {
  import opened Common
  import opened ProviderWorker
  import opened ProviderSafety
  import opened ProviderTheorems

  /** The process that holds manager.lock serves `request`, and its clock is still fresh. */
  predicate Serves(s: State, a: Action, request: Request) {
    && a.ControlStep? && s.ctl.Ctl? && s.ctl.request == request
    && s.now.boot == request.clock.boot && 0 <= s.now.ms - request.clock.ms < 20000
  }

  /** Something that is not so of the initial state, and is once it came about. */
  datatype Mark = Cancelled | Dispatched | Issued | Recorded | Identified | Prepared

  predicate Has(s: State, m: Mark) {
    match m
    case Cancelled => s.journal.cancel.Some?
    case Dispatched => s.journal.dispatch.Some?
    case Issued => s.issued > 0
    case Recorded => s.journal.result.Some?
    case Identified => s.journal.identity.Some?
    case Prepared => s.journal.preparationIntent || s.journal.ownership
  }

  /**
    What the step that made it says of everything new in a journal or history. A cancel is published
    and the unit issued only for a request of that kind whose clock is fresh then; the unit only for
    the request dispatched, with no cancel; a result only with the exit code its installer ended with;
    desktop evidence only by the installing desktop worker, and never once a cancel stands.
  */
  ghost predicate MadeAt(s: State, a: Action, t: State, m: Mark) {
    match m
    case Cancelled =>
      && s.ctl.Ctl? && s.ctl.request.Cancel? && Serves(s, a, s.ctl.request)
      && t.journal.cancel == Some(s.ctl.request.identity)
    case Dispatched =>
      a.ControlStep? && s.ctl.Ctl? && s.journal.cancel == None && DispatchedFor(t.journal, s.ctl.request)
    case Issued =>
      && t.issued == s.issued + 1 && s.ctl.Ctl? && Serves(s, a, s.ctl.request)
      && s.journal.cancel == None && DispatchedFor(s.journal, s.ctl.request)
    case Recorded =>
      && t.journal.result.Some?
      && a.WorkerStep? && s.worker.Worker? && s.worker.pc == PublishResult(t.journal.result.value.exitCode)
    case Identified =>
      && a.ControlStep? && s.ctl.Ctl? && !s.ctl.request.Status?
      && t.journal.identity == Some(s.ctl.request.identity)
    case Prepared =>
      && s.worker.Worker? && s.worker.pc == Installing && s.ctl == NoCtl && s.journal.cancel == None
      && s.journal.identity.Some? && s.journal.identity.value.version == Desktop
  }

  /** Made by this step, if it is so only after it. */
  ghost predicate Makes(s: State, a: Action, t: State, m: Mark) {
    !Has(s, m) && Has(t, m) ==> MadeAt(s, a, t, m)
  }

  /** An effect of the process that holds manager.lock is one its request asked for. */
  predicate Asked(s: State, e: Effect)
    requires s.ctl.Ctl?
  {
    var request := s.ctl.request;
    match e
    case WriteIdentity(identity) => !request.Status? && identity == request.identity
    case WriteCancel(identity) => request.Cancel? && identity == request.identity && Fresh(s.now, request.clock)
    case WriteDispatch(dispatch) => s.journal.cancel == None && DispatchedFor(Written(s.journal, e), request)
    case Issue => Fresh(s.now, request.clock) && s.journal.cancel == None && DispatchedFor(s.journal, request)
    case WriteResult(_) | WriteIntent | WriteOwnership => false
    case _ => true
  }

  lemma IdentityAsked(s: State, first: bool, second: bool)
    requires Invariant(s) && s.ctl.Ctl? && s.ctl.pc.Identifying?
    ensures Asked(s, ControlMove(s, first, second).effect)
  {
  }

  lemma StartAsked(s: State, first: bool, second: bool)
    requires Invariant(s) && s.ctl.Ctl? && s.ctl.pc.Starting?
    ensures Asked(s, ControlMove(s, first, second).effect)
  {
  }

  lemma ObservationAsked(s: State, first: bool, second: bool)
    requires Invariant(s) && s.ctl.Ctl? && (s.ctl.pc.Sampling? || s.ctl.pc.Concluding? || s.ctl.pc.Cleaning?)
    ensures Asked(s, ControlMove(s, first, second).effect)
  {
  }

  lemma AskedIsMade(s: State, a: Action, move: Move, m: Mark)
    requires a.ControlStep? && s.ctl.Ctl? && Asked(s, move.effect)
    ensures Makes(s, a, Perform(s, move.effect).(ctl := move.ctl), m)
  {
  }

  lemma ControlMade(s: State, first: bool, second: bool, m: Mark)
    requires Invariant(s)
    ensures Makes(s, ControlStep(first, second), Apply(s, ControlStep(first, second)), m)
  {
    if s.ctl.Ctl? {
      match s.ctl.pc {
        case Identifying(_) => IdentityAsked(s, first, second);
        case Starting(_) => StartAsked(s, first, second);
        case _ => ObservationAsked(s, first, second);
      }
      AskedIsMade(s, ControlStep(first, second), ControlMove(s, first, second), m);
    }
  }

  lemma WorkerWrites(j: Journal, now: Clock, worker: Worker, exitCode: int)
    requires worker.Worker?
    ensures match Work(j, now, worker, exitCode).effect
            case Nothing | WriteStarted(_) | BeginInstaller(_) | DropLaunch => true
            case WriteResult(result) => worker.pc == PublishResult(result.exitCode)
            case _ => false
  {
  }

  lemma WorkerMade(s: State, a: Action, m: Mark)
    requires a.WorkerStep?
    ensures Makes(s, a, Apply(s, a), m)
  {
    if s.worker.Worker? {
      WorkerWrites(s.journal, s.now, s.worker, a.exitCode);
    }
  }

  lemma DesktopMade(s: State, owned: bool, m: Mark)
    ensures Makes(s, DesktopPublishes(owned), Apply(s, DesktopPublishes(owned)), m)
  {
  }

  lemma OthersMade(s: State, a: Action, m: Mark)
    requires !a.ControlStep? && !a.WorkerStep? && !a.DesktopPublishes?
    ensures Makes(s, a, Apply(s, a), m)
  {
  }

  lemma StepMade(s: State, a: Action, m: Mark)
    requires Invariant(s)
    ensures Makes(s, a, Apply(s, a), m)
  {
    if a.ControlStep? {
      ControlMade(s, a.first, a.second, m);
    } else if a.WorkerStep? {
      WorkerMade(s, a, m);
    } else if a.DesktopPublishes? {
      DesktopMade(s, a.owned, m);
    } else {
      OthersMade(s, a, m);
    }
  }

  /** Step k of a run, from which on it is so. */
  ghost predicate MadeBy(actions: seq<Action>, k: nat, m: Mark)
    requires k < |actions|
  {
    var s, t := Run(INIT, actions[..k]), Run(INIT, actions[..k + 1]);
    !Has(s, m) && Has(t, m) && MadeAt(s, actions[k], t, m) && Extends(t.journal, Run(INIT, actions).journal)
  }

  /** `RunSnoc` for a run that is not empty. */
  lemma RunLast(s: State, actions: seq<Action>)
    requires actions != []
    ensures Run(s, actions) == Apply(Run(s, actions[..|actions| - 1]), actions[|actions| - 1])
  {
    assert actions == actions[..|actions| - 1] + [actions[|actions| - 1]];
    RunSnoc(s, actions[..|actions| - 1], actions[|actions| - 1]);
  }

  lemma LastMade(actions: seq<Action>, m: Mark)
    requires actions != []
    ensures Makes(Run(INIT, actions[..|actions| - 1]), actions[|actions| - 1], Run(INIT, actions), m)
  {
    var s, a, t := Run(INIT, actions[..|actions| - 1]), actions[|actions| - 1], Run(INIT, actions);
    assert Invariant(s) by {
      ReachableInvariant(actions[..|actions| - 1]);
    }
    StepMade(s, a, m);
    assert t == Apply(s, a) by {
      RunLast(INIT, actions);
    }
  }

  lemma SinceThen(actions: seq<Action>, k: nat)
    requires k <= |actions|
    ensures Extends(Run(INIT, actions[..k]).journal, Run(INIT, actions).journal)
  {
    assert actions == actions[..k] + actions[k..];
    RunConcat(INIT, actions[..k], actions[k..]);
    MarkersAreWriteOnce(actions[..k], actions[k..]);
  }

  /** Whatever is there was made by a step of the run, as `MadeAt` says of it. */
  lemma {:induction false} Made(actions: seq<Action>, m: Mark) returns (k: nat)
    requires Has(Run(INIT, actions), m)
    ensures k < |actions| && MadeBy(actions, k, m)
    decreases |actions|
  {
    var n := |actions| - 1;
    if n < 0 {
      assert false;
    } else {
      LastMade(actions, m);
      if Has(Run(INIT, actions[..n]), m) {
        k := Made(actions[..n], m);
        assert actions[..n][..k] == actions[..k] && actions[..n][..k + 1] == actions[..k + 1];
      } else {
        k := n;
        assert actions[..k + 1] == actions;
      }
      SinceThen(actions, k + 1);
    }
  }

  /**
    A recorded cancel was asked for by a cancel request for the journal's own identity, whose clock was
    less than 20 s old when it was published.
  */
  lemma CancelWasAsked(actions: seq<Action>) returns (k: nat)
    requires Run(INIT, actions).journal.cancel.Some?
    ensures k < |actions|
    ensures var s := Run(INIT, actions[..k]);
            && s.ctl.Ctl? && s.ctl.request.Cancel? && Serves(s, actions[k], s.ctl.request)
            && Run(INIT, actions).journal.cancel == Some(s.ctl.request.identity)
  {
    k := Made(actions, Mark.Cancelled);
  }

  /**
    An issued unit was issued for the start request whose identity, clock, manifest and launch are the
    journal's, while that clock was less than 20 s old and no cancel stood; the journal says so ever after.
  */
  lemma UnitWasAsked(actions: seq<Action>) returns (k: nat)
    requires Run(INIT, actions).issued > 0
    ensures k < |actions|
    ensures var s, t := Run(INIT, actions[..k]), Run(INIT, actions);
            && s.issued == 0 && t.issued == 1 && s.ctl.Ctl? && s.ctl.request.Start?
            && Serves(s, actions[k], s.ctl.request) && s.journal.cancel == None
            && t.journal.dispatch == Some(Dispatch(s.ctl.request.identity, s.ctl.request.clock))
            && t.journal.manifest == Some(s.ctl.request.manifest)
            && t.journal.launchDigest == Some(s.ctl.request.launch)
  {
    k := Made(actions, Issued);
    ReachableInvariant(actions[..k]);
    ReachableInvariant(actions);
    assert actions[..k + 1] == actions[..k] + [actions[k]];
    RunSnoc(INIT, actions[..k], actions[k]);
    StepKeeps(Run(INIT, actions[..k]), actions[k]);
  }

  /** Step k is the one with which the installer ended, and its exit code is what the step says. */
  ghost predicate ExitedAt(actions: seq<Action>, k: nat, exitCode: int)
    requires k < |actions|
  {
    var s := Run(INIT, actions[..k]);
    s.worker.Worker? && s.worker.pc == Installing && s.begun != [] && actions[k] == WorkerStep(exitCode)
  }

  lemma ExitStep(s: State, a: Action, code: int)
    requires Invariant(s)
    requires var t := Apply(s, a); t.worker.Worker? && t.worker.pc == PublishResult(code)
    ensures (s.worker.Worker? && s.worker.pc == PublishResult(code))
            || (s.worker.Worker? && s.worker.pc == Installing && s.begun != [] && a == WorkerStep(code))
  {
  }

  lemma LastExit(actions: seq<Action>, code: int)
    requires actions != [] && var t := Run(INIT, actions); t.worker.Worker? && t.worker.pc == PublishResult(code)
    ensures var s := Run(INIT, actions[..|actions| - 1]);
            s.worker.Worker? && (s.worker.pc == PublishResult(code) || ExitedAt(actions, |actions| - 1, code))
  {
    var earlier, a := actions[..|actions| - 1], actions[|actions| - 1];
    ReachableInvariant(earlier);
    assert actions == earlier + [a];
    RunSnoc(INIT, earlier, a);
    ExitStep(Run(INIT, earlier), a, code);
  }

  lemma {:induction false} ExitHappened(actions: seq<Action>, code: int) returns (k: nat)
    requires var s := Run(INIT, actions); s.worker.Worker? && s.worker.pc == PublishResult(code)
    ensures k < |actions| && ExitedAt(actions, k, code)
    decreases |actions|
  {
    var n := |actions| - 1;
    if n < 0 {
      assert false;
    } else {
      var s := Run(INIT, actions[..n]);
      LastExit(actions, code);
      if s.worker.Worker? && s.worker.pc == PublishResult(code) {
        k := ExitHappened(actions[..n], code);
        assert actions[..n][..k] == actions[..k];
      } else {
        k := n;
      }
    }
  }

  /** A recorded result holds the exit code with which the one installer begun had ended. */
  lemma ResultHappened(actions: seq<Action>) returns (k: nat)
    requires Run(INIT, actions).journal.result.Some?
    ensures k < |actions| && ExitedAt(actions, k, Run(INIT, actions).journal.result.value.exitCode)
  {
    var at := Made(actions, Mark.Recorded);
    k := ExitHappened(actions[..at], Run(INIT, actions).journal.result.value.exitCode);
    assert actions[..at][..k] == actions[..k];
  }

  /** Desktop preparation and ownership were published by an installing desktop worker before any cancel. */
  lemma PreparedBeforeCancel(actions: seq<Action>) returns (k: nat)
    requires var j := Run(INIT, actions).journal; j.preparationIntent || j.ownership
    ensures k < |actions|
    ensures var s := Run(INIT, actions[..k]);
            && s.worker.Worker? && s.worker.pc == Installing && s.ctl == NoCtl && s.journal.cancel == None
            && s.journal.identity.Some? && s.journal.identity.value.version == Desktop
  {
    k := Made(actions, Prepared);
  }

  // ---- what each answered request has done ----

  lemma ControlTells(s: State, first: bool, second: bool)
    requires Invariant(s) && s.ctl.Ctl?
    ensures var e := ControlMove(s, first, second).effect;
            e.Tell? ==> Served(s.journal, s.ctl.request) && s.journal.identity == Some(s.ctl.request.identity)
                        && e.verdict.identity == s.ctl.request.identity
  {
  }

  lemma OthersTellNothing(s: State, a: Action)
    requires !a.ControlStep?
    ensures Apply(s, a).verdicts == s.verdicts
  {
  }

  /** The one who answered between two moments, if anything was told. */
  ghost predicate ServedBetween(s: State, t: State) {
    t.verdicts == s.verdicts || (
      && s.ctl.Ctl? && Served(s.journal, s.ctl.request) && s.journal.identity == Some(s.ctl.request.identity)
      && exists v :: t.verdicts == s.verdicts + [v] && v.identity == s.ctl.request.identity)
  }

  lemma ServedStep(s: State, a: Action)
    requires Invariant(s)
    ensures ServedBetween(s, Apply(s, a))
  {
    if a.ControlStep? {
      if s.ctl.Ctl? {
        ControlTells(s, a.first, a.second);
        var e := ControlMove(s, a.first, a.second).effect;
        assert e.Tell? ==> Apply(s, a).verdicts == s.verdicts + [e.verdict];
      }
    } else {
      OthersTellNothing(s, a);
    }
  }

  lemma LastServed(actions: seq<Action>)
    requires actions != []
    ensures ServedBetween(Run(INIT, actions[..|actions| - 1]), Run(INIT, actions))
  {
    var earlier, a := actions[..|actions| - 1], actions[|actions| - 1];
    assert actions == earlier + [a];
    RunSnoc(INIT, earlier, a);
    ReachableInvariant(earlier);
    ServedStep(Run(INIT, earlier), a);
  }

  /**
    Every answer was given to a request for the journal's own identity: to a cancel request with the
    cancel recorded, to a start request with the cancel recorded or its own launch dispatched.
  */
  lemma {:induction false} AnswerWasServed(actions: seq<Action>, i: nat) returns (k: nat)
    requires i < |Run(INIT, actions).verdicts|
    ensures k < |actions|
    ensures var s, v := Run(INIT, actions[..k]), Run(INIT, actions).verdicts[i];
            && |s.verdicts| == i && Run(INIT, actions[..k + 1]).verdicts == s.verdicts + [v]
            && s.ctl.Ctl? && s.ctl.request.identity == v.identity && s.journal.identity == Some(v.identity)
            && (s.ctl.request.Cancel? ==> s.journal.cancel.Some?)
            && (s.ctl.request.Start? ==>
                  || s.journal.cancel.Some?
                  || (s.journal.dispatch.Some? && s.journal.launchDigest == Some(s.ctl.request.launch)))
    decreases |actions|
  {
    var n := |actions| - 1;
    if n < 0 {
      assert false;
    } else {
      var s, t := Run(INIT, actions[..n]), Run(INIT, actions);
      LastServed(actions);
      if i < |s.verdicts| {
        k := AnswerWasServed(actions[..n], i);
        assert actions[..n][..k] == actions[..k] && actions[..n][..k + 1] == actions[..k + 1];
      } else {
        k := n;
        assert actions[..k + 1] == actions;
      }
    }
  }

  // ---- a start, and a worker, that nothing disturbs ----

  /** A start request whose clock is fresh, for a journal that holds nothing else and no cancel or dispatch. */
  predicate MayDispatch(j: Journal, now: Clock, request: Request, pc: CtlPc) {
    && request.Start? && (Unidentified(pc) || pc.Starting?)
    && now.boot == request.clock.boot && 0 <= request.clock.ms <= MAX_CLOCK_MS && 0 <= now.ms - request.clock.ms < 20000
    && j.cancel == None && (j.dispatch == None || pc == Starting(IssueUnit))
    && Publishable(j.identity, request.identity) && Publishable(j.manifest, request.manifest)
    && Publishable(j.launch, request.launch) && Publishable(j.launchDigest, request.launch)
  }

  /** The steps still to come before the unit is issued, at most. */
  function StepsLeft(pc: CtlPc): nat {
    match pc
    case Identifying(Entered) => 14
    case Identifying(Identify) => 13
    case Identifying(NewIdentity) => 12
    case Starting(IssueUnit) => 0
    case Starting(at) => 11 - StartStage(at)
    case _ => 0
  }

  /** A move after which the request may still dispatch, one step nearer to issuing its unit. */
  predicate GoesOn(j: Journal, now: Clock, request: Request, pc: CtlPc, move: Move) {
    && move.ctl.Ctl? && move.ctl.request == request && StepsLeft(move.ctl.pc) < StepsLeft(pc)
    && MayDispatch(Written(j, move.effect), now, request, move.ctl.pc)
  }

  lemma IdentifyingGoesOn(j: Journal, now: Clock, request: Request, pc: IdentityPc)
    requires MayDispatch(j, now, request, Identifying(pc))
    ensures GoesOn(j, now, request, Identifying(pc), IdentityMove(j, now, request, pc, true))
  {
  }

  lemma ReadingGoesOn(j: Journal, now: Clock, request: Request, pc: StartPc)
    requires MayDispatch(j, now, request, Starting(pc)) && pc != IssueUnit && StartStage(pc) <= 4
    ensures GoesOn(j, now, request, Starting(pc), StartMove(j, now, request, pc))
  {
  }

  lemma PublishingGoesOn(j: Journal, now: Clock, request: Request, pc: StartPc)
    requires MayDispatch(j, now, request, Starting(pc)) && StartStage(pc) > 4
    ensures GoesOn(j, now, request, Starting(pc), StartMove(j, now, request, pc))
  {
  }

  lemma ControlGoesOn(s: State)
    requires s.ctl.Ctl? && MayDispatch(s.journal, s.now, s.ctl.request, s.ctl.pc) && s.ctl.pc != Starting(IssueUnit)
    ensures GoesOn(s.journal, s.now, s.ctl.request, s.ctl.pc, ControlMove(s, true, true))
  {
    match s.ctl.pc {
      case Identifying(at) => IdentifyingGoesOn(s.journal, s.now, s.ctl.request, at);
      case Starting(at) =>
        if StartStage(at) <= 4 {
          ReadingGoesOn(s.journal, s.now, s.ctl.request, at);
        } else {
          PublishingGoesOn(s.journal, s.now, s.ctl.request, at);
        }
    }
  }

  lemma {:induction false} DispatchesAlone(s: State) returns (steps: seq<Action>)
    requires Invariant(s) && s.ctl.Ctl? && MayDispatch(s.journal, s.now, s.ctl.request, s.ctl.pc)
    ensures forall i :: 0 <= i < |steps| ==> steps[i] == ControlStep(true, true)
    ensures var t := Run(s, steps); t.issued == 1 && DispatchedFor(t.journal, s.ctl.request)
    decreases StepsLeft(s.ctl.pc)
  {
    var t := Apply(s, ControlStep(true, true));
    if s.ctl.pc == Starting(IssueUnit) {
      steps := [ControlStep(true, true)];
      assert Run(t, []) == t;
    } else {
      ControlGoesOn(s);
      StepKeeps(s, ControlStep(true, true));
      var rest := DispatchesAlone(t);
      steps := [ControlStep(true, true)] + rest;
      assert steps[1..] == rest;
    }
  }

  /** From every reachable state a fresh start request that nothing disturbs or contradicts issues its unit. */
  lemma StartIsIssued(actions: seq<Action>, request: Request) returns (steps: seq<Action>)
    requires var s := Run(INIT, actions); s.ctl == NoCtl && MayDispatch(s.journal, s.now, request, Identifying(Entered))
    ensures forall i :: 0 <= i < |steps| ==> steps[i].EnterControl? || steps[i].ControlStep?
    ensures var t := Run(Run(INIT, actions), steps); t.issued == 1 && DispatchedFor(t.journal, request)
  {
    var s := Run(INIT, actions);
    ReachableInvariant(actions);
    StepKeeps(s, EnterControl(request));
    var rest := DispatchesAlone(Apply(s, EnterControl(request)));
    steps := [EnterControl(request)] + rest;
    assert steps[1..] == rest;
  }

  /** A worker that holds run.lock, whose unit was dispatched less than 20 s ago, with nothing in its way. */
  predicate MayStart(s: State) {
    && s.worker.Worker? && WorkerStage(s.worker.pc) <= 9 && s.journal.cancel == None && s.journal.dispatch.Some?
    && s.now.boot == s.journal.dispatch.value.clock.boot && 0 <= s.journal.dispatch.value.clock.ms <= MAX_CLOCK_MS
    && 0 <= s.now.ms - s.journal.dispatch.value.clock.ms < 20000
    && (WorkerStage(s.worker.pc) <= 6 ==> s.journal.started == None)
    && (WorkerStage(s.worker.pc) == 7 ==> s.journal.launch.Some?)
  }

  lemma BeginningStep(s: State)
    requires Invariant(s) && MayStart(s)
    ensures var t := Apply(s, WorkerStep(0));
            if s.worker.pc == Begin then t.begun == [Beginning(s.journal.dispatch.value.clock, s.worker.checked, s.now)]
            else
              && MayStart(t) && t.journal.dispatch == s.journal.dispatch && t.now == s.now
              && WorkerStage(t.worker.pc) == WorkerStage(s.worker.pc) + 1
  {
  }

  lemma {:induction false} BeginsAlone(s: State) returns (steps: seq<Action>)
    requires Invariant(s) && MayStart(s)
    ensures forall i :: 0 <= i < |steps| ==> steps[i] == WorkerStep(0)
    ensures var t := Run(s, steps);
            |t.begun| == 1 && t.begun[0].dispatched == s.journal.dispatch.value.clock && t.begun[0].at == s.now
    decreases 10 - WorkerStage(s.worker.pc)
  {
    var t := Apply(s, WorkerStep(0));
    BeginningStep(s);
    if s.worker.pc == Begin {
      steps := [WorkerStep(0)];
      assert Run(t, []) == t;
    } else {
      StepKeeps(s, WorkerStep(0));
      var rest := BeginsAlone(t);
      steps := [WorkerStep(0)] + rest;
      assert steps[1..] == rest;
    }
  }

  /** In every reachable state such a worker begins the installer if nothing disturbs it. */
  lemma WorkerBegins(actions: seq<Action>) returns (steps: seq<Action>)
    requires MayStart(Run(INIT, actions))
    ensures forall i :: 0 <= i < |steps| ==> steps[i].WorkerStep?
    ensures var s := Run(INIT, actions);
            var t := Run(s, steps);
            |t.begun| == 1 && t.begun[0].dispatched == s.journal.dispatch.value.clock && t.begun[0].at == s.now
  {
    ReachableInvariant(actions);
    steps := BeginsAlone(Run(INIT, actions));
  }

  /** A cancel request whose worker has stopped, on its way to this boot's cleanup proof with nothing in its way. */
  predicate MayProve(s: State) {
    && s.ctl.Ctl? && s.ctl.request.Cancel? && s.ctl.request.identity.version != Legacy && CgroupEmpty(s)
    && (s.ctl.request.identity.version == Desktop && s.journal.dispatch.Some? ==> s.journal.ownership)
    && match s.ctl.pc
       case Concluding(Answer(report)) => report.Ended?
       case Cleaning(at) =>
         && (at == ObserveProof ==> s.now.boot in s.journal.proofs)
         && (at == CleanupDispatch || at == PublishNotStarted || at == StopOwned ==> s.now.boot !in s.journal.proofs)
       case _ => false
  }

  function ProofStepsLeft(pc: CtlPc): nat {
    match pc
    case Cleaning(Cleanup) => 4
    case Cleaning(CleanupProof) => 3
    case Cleaning(CleanupDispatch) => 2
    case Cleaning(ObserveProof) => 0
    case Cleaning(_) => 1
    case _ => 5
  }

  lemma ProvingStep(s: State)
    requires Invariant(s) && MayProve(s) && s.ctl.pc != Cleaning(ObserveProof)
    ensures var t := Apply(s, ControlStep(true, true));
            MayProve(t) && t.now == s.now && ProofStepsLeft(t.ctl.pc) < ProofStepsLeft(s.ctl.pc)
  {
  }

  lemma {:induction false} ProvesAlone(s: State) returns (steps: seq<Action>)
    requires Invariant(s) && MayProve(s)
    ensures forall i :: 0 <= i < |steps| ==> steps[i] == ControlStep(true, true)
    ensures s.now.boot in Run(s, steps).journal.proofs
    decreases ProofStepsLeft(s.ctl.pc)
  {
    steps := [];
    if s.ctl.pc != Cleaning(ObserveProof) {
      ProvingStep(s);
      StepKeeps(s, ControlStep(true, true));
      var rest := ProvesAlone(Apply(s, ControlStep(true, true)));
      steps := [ControlStep(true, true)] + rest;
      assert steps[1..] == rest;
    }
  }

  /** In every reachable state such a request publishes the proof if its stop succeeds and nothing disturbs it. */
  lemma CleanupIsProved(actions: seq<Action>) returns (steps: seq<Action>)
    requires MayProve(Run(INIT, actions))
    ensures forall i :: 0 <= i < |steps| ==> steps[i].ControlStep?
    ensures var s := Run(INIT, actions); s.now.boot in Run(s, steps).journal.proofs
  {
    ReachableInvariant(actions);
    steps := ProvesAlone(Run(INIT, actions));
  }
}
