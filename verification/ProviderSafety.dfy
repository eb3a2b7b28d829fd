/**
  What every run of the provider install worker keeps. `Invariant` holds in every reachable state
  (crash states included); the theorems at the end are its consequences over whole runs.
*/
module ProviderSafety {
  import opened Common
  import opened ProviderWorker

  /** The order in which the journal fills, and whose journal it is. */
  ghost predicate JournalOrdered(j: Journal) {
    && (j.result.Some? ==> j.started.Some? && Some(j.result.value.identity) == j.identity)
    && (j.started.Some? ==> j.dispatch.Some? && j.started == j.identity)
    && (j.dispatch.Some? ==>
          && Some(j.dispatch.value.identity) == j.identity
          && j.manifest.Some? && j.launchDigest.Some?
          && (j.identity.value.version != Legacy ==> j.closure && j.controller))
    && (j.cancel.Some? ==> j.cancel == j.identity)
    && (j.outcome.Some? ==> Some(j.outcome.value.identity) == j.identity)
    && (j.preparationIntent || j.ownership ==> j.started.Some?)
    && (forall boot :: boot in j.proofs ==>
          && j.cancel == Some(j.proofs[boot].identity)
          && (j.proofs[boot].state == NotStarted ==> j.dispatch == None))
    && LaunchOrdered(j)
  }

  /** The launch file is what its digest was taken of, and waits for the dispatched worker until it starts. */
  predicate LaunchOrdered(j: Journal) {
    && (j.launch.Some? && j.launchDigest.Some? ==> j.launch == j.launchDigest)
    && (j.dispatch.Some? && j.started == None && j.cancel == None ==> j.launch.Some?)
  }

  predicate SucceededResult(j: Journal) {
    j.result.Some? && j.result.value.exitCode == 0
  }

  /**
    The outcome of a stopped worker of versions 2 and 3, as the journal says when it is concluded: what
    the installer recorded, and without a record whether there was a cancel.
  */
  predicate Concludes(j: Journal, outcome: Outcome) {
    && (outcome == Succeeded <==> SucceededResult(j))
    && (outcome == Cancelled <==> j.result == None && j.cancel.Some?)
    && (outcome == Failed <==>
                             (j.result.Some? && j.result.value.exitCode != 0) || (j.result == None && j.cancel == None))
  }

  /** The outcome of a stopped legacy worker: a cancel comes before everything else. */
  predicate ConcludesLegacy(j: Journal, outcome: Outcome) {
    && (outcome == Cancelled <==> j.cancel.Some?)
    && (outcome == Succeeded <==> j.cancel == None && SucceededResult(j))
    && (outcome == Failed <==> j.cancel == None && !SucceededResult(j))
  }

  /** What a recorded outcome says of any later journal: only a cancel may have come since. */
  predicate OutcomeStands(j: Journal, outcome: Outcome) {
    && (outcome == Succeeded <==> SucceededResult(j))
    && (outcome == Cancelled ==> j.result == None && j.cancel.Some?)
    && (j.result.Some? && j.result.value.exitCode != 0 ==> outcome == Failed)
  }

  /** The outcome told of a stopped worker; for versions 2 and 3 it is the recorded one. */
  predicate TellsEnd(j: Journal, identity: Identity, outcome: Outcome) {
    if identity.version == Legacy then ConcludesLegacy(j, outcome)
    else j.outcome == Some(Recorded(identity, outcome)) && OutcomeStands(j, outcome)
  }

  /** An answer says how the journal stands as it is given; a cancelled worker that has stopped left no launch. */
  predicate Tells(j: Journal, v: Verdict) {
    match v.report
    case Ended(outcome) => TellsEnd(j, v.identity, outcome) && (j.cancel.Some? ==> j.launch == None)
    case Stopping => j.cancel.Some?
    case Running => j.cancel == None
    case Unknown => j.cancel == None
  }

  /** How far a worker has come, in program order. */
  function WorkerStage(pc: WorkerPc): nat {
    match pc
    case ReadDispatch => 0
    case FirstFresh => 1
    case FenceCancel => 2
    case FenceStarted => 3
    case Verify => 4
    case LastFresh => 5
    case PublishStarted => 6
    case RemoveLaunch => 7
    case FinalCancel => 8
    case Begin => 9
    case Installing => 10
    case PublishResult(_) => 11
  }

  /** How far a start request has come between its cancel check and the dispatch; 0 elsewhere. */
  function StartStage(pc: StartPc): nat {
    match pc
    case CheckDigest => 1
    case ReadMarker => 2
    case NativeClosure => 3
    case NativeController => 4
    case PublishManifest => 5
    case DesktopClosure => 6
    case DesktopController => 7
    case PublishLaunch => 8
    case PublishDigest => 9
    case PublishDispatch => 10
    case _ => 0
  }

  /** A worker that has not passed the fences, or is about to be refused by one it has not read yet. */
  predicate BeforeFences(j: Journal, worker: Worker) {
    worker.Worker? ==> WorkerStage(worker.pc) <= 2 || (worker.pc == FenceStarted && j.started.Some?)
  }

  /** A one-way fence stands, no installer process lives, and no worker is past the fences. */
  predicate Quiet(j: Journal, worker: Worker, children: nat) {
    (j.cancel.Some? || j.started.Some?) && children == 0 && BeforeFences(j, worker)
  }

  predicate ValidBeginning(b: Beginning) {
    && b.checked.boot == b.dispatched.boot == b.at.boot
    && 0 <= b.checked.ms - b.dispatched.ms < FRESH_MS
    && b.checked.ms <= b.at.ms
  }

  predicate WorkerInvariant(j: Journal, worker: Worker, now: Clock, begun: seq<Beginning>) {
    worker.Worker? ==>
      var stage, checked := WorkerStage(worker.pc), worker.checked;
      && (stage >= 1 ==> j.dispatch.Some?)
      && (4 <= stage <= 6 ==> j.started == None)
      && (7 <= stage ==> j.started.Some? && j.result == None)
      && (7 <= stage <= 9 ==> begun == [])
      && (10 <= stage ==> begun != [])
      && (6 <= stage <= 9 ==>
            && Fresh(checked, j.dispatch.value.clock) && checked.boot == now.boot
            && checked.ms <= now.ms)
  }

  predicate Retained(j: Journal, version: Version) {
    version != Legacy ==> j.closure && j.controller
  }

  /** The journal holds what this request asked to start, under this request's clock. */
  predicate DispatchedFor(j: Journal, request: Request) {
    && request.Start? && j.dispatch == Some(Dispatch(request.identity, request.clock))
    && j.manifest == Some(request.manifest) && j.launchDigest == Some(request.launch)
  }

  predicate StartInvariant(j: Journal, issued: nat, request: Request, pc: StartPc)
    requires request.Start?
  {
    var version, stage := request.identity.version, StartStage(pc);
    && (stage >= 1 ==> j.cancel == None)
    && (stage >= 2 ==> j.launchDigest == None || j.launchDigest == Some(request.launch))
    && (stage >= 3 ==> j.dispatch == None)
    && (stage == 4 || stage == 7 ==> j.closure)
    && (stage >= 5 && version == Native ==> j.closure && j.controller)
    && (stage >= 6 ==> j.manifest == Some(request.manifest))
    && (stage >= 8 ==> Retained(j, version))
    && (stage >= 9 ==> j.launch == Some(request.launch))
    && (stage == 10 ==> j.launchDigest == Some(request.launch))
    && (pc == IssueUnit ==> DispatchedFor(j, request) && issued == 0 && j.cancel == None)
  }

  /** What is so once a request observes: a cancel is recorded, a start is dispatched unless cancelled. */
  predicate Served(j: Journal, request: Request) {
    match request
    case Start(_, _, _, launch) => j.cancel.Some? || (j.dispatch.Some? && j.launchDigest == Some(launch))
    case Cancel(_, _) => j.cancel.Some?
    case Status(_, _) => true
  }

  predicate IdentifyInvariant(j: Journal, request: Request, pc: IdentityPc) {
    match pc
    case Entered | Identify => true
    case NewIdentity => !request.Status?
    case PublishCancel => request.Cancel?
    case StopUnit => request.Cancel? && j.cancel.Some?
  }

  predicate SampleInvariant(j: Journal, quiet: bool, pc: SamplePc) {
    match pc
    case ObserveStarted(_, _, cancelled) => cancelled <==> j.cancel.Some?
    case SampleCgroup(_, _, cancelled, started) => (cancelled <==> j.cancel.Some?) && (started ==> j.started.Some?)
    case ProbeRunLock(_, cancelled, started) => (cancelled <==> j.cancel.Some?) && (cancelled || started ==> quiet)
    case Judge(_, cancelled, started, stopped) =>
      (cancelled <==> j.cancel.Some?) && (stopped && (cancelled || started) ==> quiet)
    case _ => true
  }

  predicate ConcludeInvariant(j: Journal, quiet: bool, request: Request, pc: ConcludePc) {
    var version := request.identity.version;
    match pc
    case ReadRecorded(cancelled) => quiet && version != Legacy && (cancelled <==> j.cancel.Some?)
    case ReadResult(cancelled) =>
      quiet && j.outcome == None && version != Legacy && (cancelled <==> j.cancel.Some?)
    case PublishOutcome(cancelled, outcome) =>
      quiet && j.outcome == None && version != Legacy && (cancelled <==> j.cancel.Some?) && Concludes(j, outcome)
    case LegacyResult => quiet && version == Legacy && j.cancel == None
    case UnlinkLaunch(cancelled, outcome) =>
      quiet && (cancelled <==> j.cancel.Some?) && TellsEnd(j, request.identity, outcome)
    case Answer(report) => (report.Ended? ==> quiet) && Tells(j, Verdict(request.identity, report))
  }

  predicate CleanupInvariant(j: Journal, quiet: bool, request: Request, pc: CleanupPc) {
    && (pc != ObserveProof ==> quiet && request.Cancel?)
    && (pc == CleanupProof || pc == CleanupDispatch || pc == PublishNotStarted || pc == StopOwned ==>
          j.cancel == Some(request.identity))
    && (pc == PublishNotStarted ==> j.dispatch == None)
    && (pc == StopOwned ==> j.dispatch.Some?)
  }

  predicate Unidentified(pc: CtlPc) {
    pc.Identifying? && (pc.identify.Entered? || pc.identify.Identify? || pc.identify.NewIdentity?)
  }

  predicate ControlInvariant(j: Journal, quiet: bool, issued: nat, ctl: Ctl) {
    ctl.Ctl? ==>
      var request := ctl.request;
      && (Unidentified(ctl.pc) || j.identity == Some(request.identity))
      && match ctl.pc
         case Identifying(at) => IdentifyInvariant(j, request, at)
         case Starting(at) => request.Start? && StartInvariant(j, issued, request, at)
         case Sampling(at) => Served(j, request) && SampleInvariant(j, quiet, at)
         case Concluding(at) => Served(j, request) && ConcludeInvariant(j, quiet, request, at)
         case Cleaning(at) => Served(j, request) && CleanupInvariant(j, quiet, request, at)
  }

  predicate IssueInvariant(j: Journal, issued: nat) {
    issued <= 1 && (j.dispatch == None ==> issued == 0)
  }

  ghost predicate BeginInvariant(j: Journal, begun: seq<Beginning>, children: nat) {
    && |begun| <= 1
    && (begun != [] ==>
          j.started.Some? && j.dispatch.Some? && ValidBeginning(begun[0])
            && begun[0].dispatched == j.dispatch.value.clock)
    && (j.result.Some? || children > 0 ==> begun != [])
  }

  predicate OutcomeInvariant(j: Journal, quiet: bool) {
    j.outcome.Some? ==> quiet && OutcomeStands(j, j.outcome.value.outcome)
  }

  predicate VerdictTrue(j: Journal, quiet: bool, v: Verdict) {
    && j.identity == Some(v.identity)
    && (v.report.Ended? ==>
          quiet && (v.identity.version != Legacy ==> j.outcome == Some(Recorded(v.identity, v.report.outcome))))
  }

  ghost predicate VerdictInvariant(j: Journal, quiet: bool, verdicts: seq<Verdict>) {
    forall v :: v in verdicts ==> VerdictTrue(j, quiet, v)
  }

  predicate QuietState(s: State) {
    Quiet(s.journal, s.worker, s.children)
  }

  ghost predicate Invariant(s: State) {
    && JournalOrdered(s.journal)
    && WorkerInvariant(s.journal, s.worker, s.now, s.begun)
    && ControlInvariant(s.journal, QuietState(s), s.issued, s.ctl)
    && IssueInvariant(s.journal, s.issued)
    && BeginInvariant(s.journal, s.begun, s.children)
    && OutcomeInvariant(s.journal, QuietState(s))
    && VerdictInvariant(s.journal, QuietState(s), s.verdicts)
  }

  /** The launch file is never replaced; only under a cancel or after the start is it gone, and then for good. */
  predicate LaunchKept(j: Journal, k: Journal) {
    && (j.launch.Some? ==> k.launch == j.launch || (k.launch == None && (k.cancel.Some? || k.started.Some?)))
    && (j.launch == None && (j.cancel.Some? || j.started.Some?) ==> k.launch == None)
  }

  /** No published marker is replaced or removed; only launch.json, which is not evidence, is unlinked. */
  predicate Kept<T(==)>(before: Option<T>, after: Option<T>) {
    before.Some? ==> after == before
  }

  ghost predicate Extends(j: Journal, k: Journal) {
    && Kept(j.identity, k.identity) && Kept(j.manifest, k.manifest) && Kept(j.launchDigest, k.launchDigest)
    && Kept(j.dispatch, k.dispatch) && Kept(j.started, k.started) && Kept(j.cancel, k.cancel)
    && Kept(j.result, k.result) && Kept(j.outcome, k.outcome)
    && (j.closure ==> k.closure) && (j.controller ==> k.controller)
    && (j.preparationIntent ==> k.preparationIntent) && (j.ownership ==> k.ownership)
    && (forall boot :: boot in j.proofs ==> boot in k.proofs && k.proofs[boot] == j.proofs[boot])
    && LaunchKept(j, k)
  }

  // ---- effects ----

  /** What the process holding manager.lock may do in a given journal. */
  predicate ControlMay(j: Journal, quiet: bool, issued: nat, e: Effect) {
    match e
    case WriteIdentity(identity) => Publishable(j.identity, identity)
    case WriteCancel(identity) => j.identity == Some(identity)
    case WriteManifest(manifest) => Publishable(j.manifest, manifest)
    case WriteLaunch(launch) =>
      && Publishable(j.launch, launch) && Publishable(j.launchDigest, launch) && j.cancel == None && j.dispatch == None
    case WriteDigest(launch) => Publishable(j.launchDigest, launch) && j.launch == Some(launch)
    case WriteDispatch(dispatch) =>
      && j.identity == Some(dispatch.identity) && j.dispatch == None && j.cancel == None
      && j.manifest.Some? && j.launchDigest.Some? && j.launch.Some? && Retained(j, dispatch.identity.version)
    case Issue => issued == 0 && j.dispatch.Some?
    case WriteOutcome(record) =>
      && j.identity == Some(record.identity) && j.outcome == None && quiet && Concludes(j, record.outcome)
    case WriteProof(boot, proof) =>
      && j.cancel == Some(proof.identity)
      && (boot in j.proofs ==> j.proofs[boot] == proof)
      && (proof.state == NotStarted ==> j.dispatch == None)
    case Tell(verdict) => VerdictTrue(j, quiet, verdict) && Tells(j, verdict)
    case DropLaunch => j.cancel.Some?
    case Nothing | WriteClosure | WriteController => true
    case _ => false
  }

  /** A move whose effect is allowed and after which the process again stands where it says it does. */
  predicate ControlAllows(j: Journal, quiet: bool, issued: nat, move: Move) {
    && ControlMay(j, quiet, issued, move.effect)
    && ControlInvariant(Written(j, move.effect), quiet, if move.effect.Issue? then issued + 1 else issued, move.ctl)
  }

  ghost predicate Rest(s: State) {
    && JournalOrdered(s.journal)
    && WorkerInvariant(s.journal, s.worker, s.now, s.begun)
    && IssueInvariant(s.journal, s.issued)
    && BeginInvariant(s.journal, s.begun, s.children)
    && OutcomeInvariant(s.journal, QuietState(s))
    && VerdictInvariant(s.journal, QuietState(s), s.verdicts)
  }

  /** What a control effect leaves of the journal: still in order, nothing replaced, the worker's part untouched. */
  ghost predicate ControlLeaves(j: Journal, k: Journal) {
    JournalOrdered(k) && Extends(j, k) && k.result == j.result && k.started == j.started
  }

  lemma IdentityWritten(j: Journal, identity: Identity)
    requires JournalOrdered(j) && Publishable(j.identity, identity)
    ensures ControlLeaves(j, j.(identity := Some(identity)))
  {
  }

  lemma CancelWritten(j: Journal, identity: Identity)
    requires JournalOrdered(j) && j.identity == Some(identity)
    ensures ControlLeaves(j, j.(cancel := Some(identity)))
  {
  }

  lemma ManifestWritten(j: Journal, manifest: int)
    requires JournalOrdered(j) && Publishable(j.manifest, manifest)
    ensures ControlLeaves(j, j.(manifest := Some(manifest)))
  {
  }

  lemma DigestWritten(j: Journal, launch: int)
    requires JournalOrdered(j) && Publishable(j.launchDigest, launch) && j.launch == Some(launch)
    ensures ControlLeaves(j, j.(launchDigest := Some(launch)))
  {
  }

  /** The dispatch marker comes after all it relies on, and never after a cancel. */
  lemma DispatchWritten(j: Journal, dispatch: Dispatch)
    requires JournalOrdered(j) && j.identity == Some(dispatch.identity) && j.dispatch == None && j.cancel == None
    requires j.manifest.Some? && j.launchDigest.Some? && j.launch.Some? && Retained(j, dispatch.identity.version)
    ensures ControlLeaves(j, j.(dispatch := Some(dispatch)))
  {
  }

  lemma OutcomeWritten(j: Journal, record: Recorded)
    requires JournalOrdered(j) && j.identity == Some(record.identity) && j.outcome == None
    ensures ControlLeaves(j, j.(outcome := Some(record)))
  {
  }

  lemma ProofWritten(j: Journal, boot: nat, proof: Proof)
    requires JournalOrdered(j) && j.cancel == Some(proof.identity) && (boot in j.proofs ==> j.proofs[boot] == proof)
    requires proof.state == NotStarted ==> j.dispatch == None
    ensures ControlLeaves(j, j.(proofs := j.proofs[boot := proof]))
  {
  }

  lemma LaunchWritten(j: Journal, launch: int)
    requires JournalOrdered(j) && Publishable(j.launch, launch) && Publishable(j.launchDigest, launch)
    requires j.cancel == None && j.dispatch == None
    ensures ControlLeaves(j, j.(launch := Some(launch)))
  {
  }

  lemma FilesWritten(j: Journal)
    requires JournalOrdered(j)
    ensures ControlLeaves(j, j) && (j.cancel.Some? ==> ControlLeaves(j, j.(launch := None)))
    ensures ControlLeaves(j, j.(closure := true)) && ControlLeaves(j, j.(controller := true))
  {
  }

  lemma ControlEffectLeaves(j: Journal, quiet: bool, issued: nat, e: Effect)
    requires JournalOrdered(j) && ControlMay(j, quiet, issued, e)
    ensures ControlLeaves(j, Written(j, e))
  {
    match e {
      case WriteIdentity(identity) => IdentityWritten(j, identity);
      case WriteCancel(identity) => CancelWritten(j, identity);
      case WriteManifest(manifest) => ManifestWritten(j, manifest);
      case WriteDigest(launch) => DigestWritten(j, launch);
      case WriteDispatch(dispatch) => DispatchWritten(j, dispatch);
      case WriteOutcome(record) => OutcomeWritten(j, record);
      case WriteProof(boot, proof) => ProofWritten(j, boot, proof);
      case WriteLaunch(launch) => LaunchWritten(j, launch);
      case _ => FilesWritten(j);
    }
  }

  lemma ControlEffectKeeps(s: State, e: Effect)
    requires Rest(s) && ControlMay(s.journal, QuietState(s), s.issued, e)
    ensures Rest(Perform(s, e)) && Extends(s.journal, Perform(s, e).journal)
    ensures QuietState(s) ==> QuietState(Perform(s, e))
  {
    var quiet, t := QuietState(s), Perform(s, e);
    ControlEffectLeaves(s.journal, quiet, s.issued, e);
    WorkerUntouched(s, t.journal);
    assert IssueInvariant(t.journal, t.issued);
    ControlEffectOutcome(s.journal, quiet, s.issued, e);
    VerdictsStay(s.journal, t.journal, quiet, QuietState(t), s.verdicts);
  }

  /** A control effect leaves the worker's part of the journal alone. */
  lemma WorkerUntouched(s: State, k: Journal)
    requires Rest(s) && ControlLeaves(s.journal, k)
    ensures WorkerInvariant(k, s.worker, s.now, s.begun) && BeginInvariant(k, s.begun, s.children)
    ensures QuietState(s) ==> Quiet(k, s.worker, s.children)
  {
  }

  lemma ControlEffectOutcome(j: Journal, quiet: bool, issued: nat, e: Effect)
    requires ControlMay(j, quiet, issued, e) && OutcomeInvariant(j, quiet)
    ensures OutcomeInvariant(Written(j, e), quiet)
  {
  }

  /** What was told stays true. */
  lemma VerdictsStay(j: Journal, k: Journal, quiet: bool, quiet': bool, verdicts: seq<Verdict>)
    requires VerdictInvariant(j, quiet, verdicts) && Extends(j, k) && (quiet ==> quiet')
    ensures VerdictInvariant(k, quiet', verdicts)
  {
  }

  lemma IdentityReadAllowed(j: Journal, quiet: bool, issued: nat, now: Clock, request: Request, pc: IdentityPc,
                            first: bool)
    requires pc == Entered || pc == Identify || pc == StopUnit
    requires JournalOrdered(j) && ControlInvariant(j, quiet, issued, Ctl(request, Identifying(pc)))
    ensures ControlAllows(j, quiet, issued, IdentityMove(j, now, request, pc, first))
  {
  }

  lemma IdentityWriteAllowed(j: Journal, quiet: bool, issued: nat, now: Clock, request: Request, pc: IdentityPc,
                             first: bool)
    requires pc == NewIdentity || pc == PublishCancel
    requires JournalOrdered(j) && ControlInvariant(j, quiet, issued, Ctl(request, Identifying(pc)))
    ensures ControlAllows(j, quiet, issued, IdentityMove(j, now, request, pc, first))
  {
  }

  lemma IdentityMoveAllowed(j: Journal, quiet: bool, issued: nat, now: Clock, request: Request, pc: IdentityPc,
                            first: bool)
    requires JournalOrdered(j) && ControlInvariant(j, quiet, issued, Ctl(request, Identifying(pc)))
    ensures ControlAllows(j, quiet, issued, IdentityMove(j, now, request, pc, first))
  {
    match pc {
      case Entered | Identify | StopUnit => IdentityReadAllowed(j, quiet, issued, now, request, pc, first);
      case NewIdentity | PublishCancel => IdentityWriteAllowed(j, quiet, issued, now, request, pc, first);
    }
  }

  lemma StartReadAllowed(j: Journal, quiet: bool, issued: nat, now: Clock, request: Request, pc: StartPc)
    requires request.Start? && (pc == ReadCancel || pc == CheckDigest || pc == ReadMarker)
    requires JournalOrdered(j) && ControlInvariant(j, quiet, issued, Ctl(request, Starting(pc)))
    ensures ControlAllows(j, quiet, issued, StartMove(j, now, request, pc))
  {
  }

  lemma StartRetainAllowed(j: Journal, quiet: bool, issued: nat, now: Clock, request: Request, pc: StartPc)
    requires request.Start?
    requires pc == NativeClosure || pc == NativeController || pc == DesktopClosure || pc == DesktopController
    requires JournalOrdered(j) && ControlInvariant(j, quiet, issued, Ctl(request, Starting(pc)))
    ensures ControlAllows(j, quiet, issued, StartMove(j, now, request, pc))
  {
  }

  lemma StartManifestAllowed(j: Journal, quiet: bool, issued: nat, now: Clock, request: Request)
    requires request.Start? && JournalOrdered(j)
    requires ControlInvariant(j, quiet, issued, Ctl(request, Starting(PublishManifest)))
    ensures ControlAllows(j, quiet, issued, StartMove(j, now, request, PublishManifest))
  {
  }

  lemma StartLaunchAllowed(j: Journal, quiet: bool, issued: nat, now: Clock, request: Request, pc: StartPc)
    requires request.Start? && (pc == PublishLaunch || pc == PublishDigest)
    requires JournalOrdered(j) && ControlInvariant(j, quiet, issued, Ctl(request, Starting(pc)))
    ensures ControlAllows(j, quiet, issued, StartMove(j, now, request, pc))
  {
  }

  lemma StartDispatchAllowed(j: Journal, quiet: bool, issued: nat, now: Clock, request: Request, pc: StartPc)
    requires request.Start? && (pc == PublishDispatch || pc == IssueUnit)
    requires JournalOrdered(j) && IssueInvariant(j, issued)
    requires ControlInvariant(j, quiet, issued, Ctl(request, Starting(pc)))
    ensures ControlAllows(j, quiet, issued, StartMove(j, now, request, pc))
  {
  }

  lemma StartMoveAllowed(j: Journal, quiet: bool, issued: nat, now: Clock, request: Request, pc: StartPc)
    requires request.Start? && JournalOrdered(j) && IssueInvariant(j, issued)
    requires ControlInvariant(j, quiet, issued, Ctl(request, Starting(pc)))
    ensures ControlAllows(j, quiet, issued, StartMove(j, now, request, pc))
  {
    match pc {
      case ReadCancel | CheckDigest | ReadMarker => StartReadAllowed(j, quiet, issued, now, request, pc);
      case PublishManifest => StartManifestAllowed(j, quiet, issued, now, request);
      case PublishLaunch | PublishDigest => StartLaunchAllowed(j, quiet, issued, now, request, pc);
      case PublishDispatch | IssueUnit => StartDispatchAllowed(j, quiet, issued, now, request, pc);
      case _ => StartRetainAllowed(j, quiet, issued, now, request, pc);
    }
  }

  lemma FenceReadAllowed(j: Journal, quiet: bool, issued: nat, request: Request, pc: SamplePc, first: bool,
                         second: bool)
    requires pc.SampleUnit? || pc.ObserveCancel? || pc.ObserveStarted?
    requires JournalOrdered(j) && ControlInvariant(j, quiet, issued, Ctl(request, Sampling(pc)))
    ensures forall cgroupEmpty, lockFree ::
              ControlAllows(j, quiet, issued, SampleMove(j, cgroupEmpty, lockFree, request, pc, first, second))
  {
  }

  /** A cgroup seen empty after a fence was read stays empty. */
  lemma AbsenceAllowed(j: Journal, quiet: bool, issued: nat, cgroupEmpty: bool, lockFree: bool, request: Request,
                       pc: SamplePc, first: bool, second: bool)
    requires pc.SampleCgroup? || pc.ProbeRunLock? || pc.Judge?
    requires JournalOrdered(j) && ControlInvariant(j, quiet, issued, Ctl(request, Sampling(pc)))
    requires cgroupEmpty && (j.cancel.Some? || j.started.Some?) ==> quiet
    ensures ControlAllows(j, quiet, issued, SampleMove(j, cgroupEmpty, lockFree, request, pc, first, second))
  {
  }

  lemma SampleMoveAllowed(j: Journal, quiet: bool, issued: nat, cgroupEmpty: bool, lockFree: bool, request: Request,
                          pc: SamplePc, first: bool, second: bool)
    requires JournalOrdered(j) && ControlInvariant(j, quiet, issued, Ctl(request, Sampling(pc)))
    requires cgroupEmpty && (j.cancel.Some? || j.started.Some?) ==> quiet
    ensures ControlAllows(j, quiet, issued, SampleMove(j, cgroupEmpty, lockFree, request, pc, first, second))
  {
    if pc.SampleUnit? || pc.ObserveCancel? || pc.ObserveStarted? {
      FenceReadAllowed(j, quiet, issued, request, pc, first, second);
    } else {
      AbsenceAllowed(j, quiet, issued, cgroupEmpty, lockFree, request, pc, first, second);
    }
  }

  lemma OutcomeReadAllowed(j: Journal, quiet: bool, issued: nat, request: Request, pc: ConcludePc)
    requires pc.ReadRecorded? || pc.ReadResult? || pc.LegacyResult?
    requires JournalOrdered(j) && OutcomeInvariant(j, quiet)
    requires ControlInvariant(j, quiet, issued, Ctl(request, Concluding(pc)))
    ensures ControlAllows(j, quiet, issued, ConcludeMove(j, request, pc))
  {
  }

  lemma OutcomeTellAllowed(j: Journal, quiet: bool, issued: nat, request: Request, pc: ConcludePc)
    requires pc.PublishOutcome? || pc.UnlinkLaunch? || pc.Answer?
    requires JournalOrdered(j) && OutcomeInvariant(j, quiet)
    requires ControlInvariant(j, quiet, issued, Ctl(request, Concluding(pc)))
    ensures ControlAllows(j, quiet, issued, ConcludeMove(j, request, pc))
  {
  }

  lemma ConcludeMoveAllowed(j: Journal, quiet: bool, issued: nat, request: Request, pc: ConcludePc)
    requires JournalOrdered(j) && OutcomeInvariant(j, quiet)
    requires ControlInvariant(j, quiet, issued, Ctl(request, Concluding(pc)))
    ensures ControlAllows(j, quiet, issued, ConcludeMove(j, request, pc))
  {
    if pc.ReadRecorded? || pc.ReadResult? || pc.LegacyResult? {
      OutcomeReadAllowed(j, quiet, issued, request, pc);
    } else {
      OutcomeTellAllowed(j, quiet, issued, request, pc);
    }
  }

  lemma CleanupReadAllowed(j: Journal, quiet: bool, issued: nat, boot: nat, cgroupEmpty: bool, request: Request,
                           pc: CleanupPc, first: bool)
    requires pc == Cleanup || pc == CleanupProof || pc == CleanupDispatch
    requires JournalOrdered(j) && ControlInvariant(j, quiet, issued, Ctl(request, Cleaning(pc)))
    ensures ControlAllows(j, quiet, issued, CleanupMove(j, boot, cgroupEmpty, request, pc, first))
  {
  }

  lemma CleanupProofAllowed(j: Journal, quiet: bool, issued: nat, boot: nat, cgroupEmpty: bool, request: Request,
                            pc: CleanupPc, first: bool)
    requires pc == PublishNotStarted || pc == StopOwned || pc == ObserveProof
    requires JournalOrdered(j) && ControlInvariant(j, quiet, issued, Ctl(request, Cleaning(pc)))
    ensures ControlAllows(j, quiet, issued, CleanupMove(j, boot, cgroupEmpty, request, pc, first))
  {
  }

  lemma CleanupMoveAllowed(j: Journal, quiet: bool, issued: nat, boot: nat, cgroupEmpty: bool, request: Request,
                           pc: CleanupPc, first: bool)
    requires JournalOrdered(j) && ControlInvariant(j, quiet, issued, Ctl(request, Cleaning(pc)))
    ensures ControlAllows(j, quiet, issued, CleanupMove(j, boot, cgroupEmpty, request, pc, first))
  {
    if pc == Cleanup || pc == CleanupProof || pc == CleanupDispatch {
      CleanupReadAllowed(j, quiet, issued, boot, cgroupEmpty, request, pc, first);
    } else {
      CleanupProofAllowed(j, quiet, issued, boot, cgroupEmpty, request, pc, first);
    }
  }

  lemma ControlMoveAllowed(s: State, first: bool, second: bool)
    requires s.ctl.Ctl? && JournalOrdered(s.journal) && IssueInvariant(s.journal, s.issued)
    requires OutcomeInvariant(s.journal, QuietState(s))
    requires ControlInvariant(s.journal, QuietState(s), s.issued, s.ctl)
    ensures ControlAllows(s.journal, QuietState(s), s.issued, ControlMove(s, first, second))
  {
    var j, quiet, request := s.journal, QuietState(s), s.ctl.request;
    match s.ctl.pc {
      case Identifying(at) => IdentityMoveAllowed(j, quiet, s.issued, s.now, request, at, first);
      case Starting(at) =>
        if request.Start? {
          StartMoveAllowed(j, quiet, s.issued, s.now, request, at);
        }
      case Sampling(at) =>
        SampleMoveAllowed(j, quiet, s.issued, CgroupEmpty(s), s.worker == NoWorker, request, at, first, second);
      case Concluding(at) => ConcludeMoveAllowed(j, quiet, s.issued, request, at);
      case Cleaning(at) => CleanupMoveAllowed(j, quiet, s.issued, s.now.boot, CgroupEmpty(s), request, at, first);
    }
  }

  lemma QuietOnlyHelps(j: Journal, quiet: bool, quiet': bool, issued: nat, ctl: Ctl)
    requires ControlInvariant(j, quiet, issued, ctl) && (quiet ==> quiet')
    ensures ControlInvariant(j, quiet', issued, ctl)
  {
  }

  /** A step that keeps the invariant, replaces no marker, and changes no quiet system. */
  ghost predicate Keeps(s: State, t: State) {
    && Invariant(t)
    && Extends(s.journal, t.journal)
    && (QuietState(s) ==> QuietState(t) && t.begun == s.begun && t.journal.result == s.journal.result)
  }

  lemma ControlPerforms(s: State, move: Move)
    requires Invariant(s) && ControlAllows(s.journal, QuietState(s), s.issued, move)
    ensures Keeps(s, Perform(s, move.effect).(ctl := move.ctl))
  {
    ControlEffectKeeps(s, move.effect);
    ControlEffectLeaves(s.journal, QuietState(s), s.issued, move.effect);
    var t := Perform(s, move.effect);
    QuietOnlyHelps(t.journal, QuietState(s), QuietState(t), t.issued, move.ctl);
  }

  /** What the worker may do: never in a quiet system, except remove its own launch file. */
  predicate WorkerMay(j: Journal, begun: seq<Beginning>, quiet: bool, e: Effect) {
    match e
    case WriteStarted(identity) => !quiet && j.identity == Some(identity) && j.started == None && j.dispatch.Some?
    case BeginInstaller(b) =>
      && !quiet && begun == [] && j.started.Some? && j.result == None && j.dispatch.Some?
      && ValidBeginning(b) && b.dispatched == j.dispatch.value.clock
    case WriteResult(result) =>
      !quiet && j.identity == Some(result.identity) && j.result == None && j.started.Some? && begun != []
    case WriteIntent | WriteOwnership => !quiet && j.started.Some?
    case DropLaunch => j.started.Some?
    case Nothing => true
    case _ => false
  }

  lemma WorkerMoveAllowed(j: Journal, now: Clock, worker: Worker, begun: seq<Beginning>, children: nat, exitCode: int)
    requires worker.Worker? && JournalOrdered(j) && WorkerInvariant(j, worker, now, begun)
             && BeginInvariant(j, begun, children)
    ensures var move, quiet := Work(j, now, worker, exitCode), Quiet(j, worker, children);
            && WorkerMay(j, begun, quiet, move.effect)
            && WorkerInvariant(Written(j, move.effect), move.worker, now,
                               if move.effect.BeginInstaller? then begun + [move.effect.beginning] else begun)
            && (quiet ==> move.effect == Nothing && Quiet(j, move.worker, children))
  {
  }

  lemma WorkerEffectKeepsControl(j: Journal, begun: seq<Beginning>, quiet: bool, issued: nat, ctl: Ctl, e: Effect)
    requires JournalOrdered(j) && WorkerMay(j, begun, quiet, e) && ControlInvariant(j, quiet, issued, ctl)
    ensures ControlInvariant(Written(j, e), quiet, issued, ctl)
  {
  }

  /** What a worker effect leaves: the journal in order, nothing replaced, at most one beginning. */
  ghost predicate WorkerLeaves(j: Journal, k: Journal, begun: seq<Beginning>, children: nat) {
    JournalOrdered(k) && Extends(j, k) && BeginInvariant(k, begun, children)
  }

  lemma StartedWritten(j: Journal, begun: seq<Beginning>, children: nat, identity: Identity)
    requires JournalOrdered(j) && BeginInvariant(j, begun, children)
    requires j.identity == Some(identity) && j.started == None && j.dispatch.Some?
    ensures WorkerLeaves(j, j.(started := Some(identity)), begun, children)
  {
  }

  lemma BeginningWritten(j: Journal, children: nat, b: Beginning)
    requires JournalOrdered(j) && j.started.Some? && j.dispatch.Some?
    requires ValidBeginning(b) && b.dispatched == j.dispatch.value.clock
    ensures WorkerLeaves(j, j, [] + [b], children + 1)
  {
  }

  lemma ResultWritten(j: Journal, begun: seq<Beginning>, children: nat, result: Result)
    requires JournalOrdered(j) && BeginInvariant(j, begun, children)
    requires j.identity == Some(result.identity) && j.result == None && j.started.Some? && begun != []
    ensures WorkerLeaves(j, j.(result := Some(result)), begun, children)
  {
  }

  lemma DesktopWritten(j: Journal, begun: seq<Beginning>, children: nat)
    requires JournalOrdered(j) && BeginInvariant(j, begun, children)
    ensures WorkerLeaves(j, j, begun, children)
    ensures j.started.Some? ==> WorkerLeaves(j, j.(launch := None), begun, children)
    ensures j.started.Some? ==> WorkerLeaves(j, j.(preparationIntent := true), begun, children)
    ensures j.started.Some? ==> WorkerLeaves(j, j.(ownership := true), begun, children)
  {
  }

  lemma WorkerEffectLeaves(j: Journal, begun: seq<Beginning>, quiet: bool, children: nat, e: Effect)
    requires WorkerMay(j, begun, quiet, e) && JournalOrdered(j) && BeginInvariant(j, begun, children)
    ensures WorkerLeaves(j, Written(j, e), if e.BeginInstaller? then begun + [e.beginning] else begun,
                         if e.BeginInstaller? then children + 1 else children)
  {
    match e {
      case WriteStarted(identity) => StartedWritten(j, begun, children, identity);
      case BeginInstaller(b) => BeginningWritten(j, children, b);
      case WriteResult(result) => ResultWritten(j, begun, children, result);
      case _ => DesktopWritten(j, begun, children);
    }
  }

  lemma WorkerPerforms(s: State, e: Effect, worker: Worker)
    requires Invariant(s) && WorkerMay(s.journal, s.begun, QuietState(s), e)
    requires WorkerInvariant(Written(s.journal, e), worker, s.now,
                             if e.BeginInstaller? then s.begun + [e.beginning] else s.begun)
    requires QuietState(s) ==> e == Nothing && Quiet(s.journal, worker, s.children)
    ensures Keeps(s, Perform(s, e).(worker := worker))
  {
    var quiet, t := QuietState(s), Perform(s, e).(worker := worker);
    WorkerEffectKeepsControl(s.journal, s.begun, quiet, s.issued, s.ctl, e);
    WorkerEffectLeaves(s.journal, s.begun, quiet, s.children, e);
    QuietOnlyHelps(t.journal, quiet, QuietState(t), t.issued, t.ctl);
    assert OutcomeInvariant(t.journal, QuietState(t));
    forall v | v in t.verdicts ensures VerdictTrue(t.journal, QuietState(t), v) {
    }
  }

  lemma ControlStepKeeps(s: State, first: bool, second: bool)
    requires Invariant(s)
    ensures Keeps(s, Apply(s, ControlStep(first, second)))
  {
    if s.ctl.Ctl? {
      ControlMoveAllowed(s, first, second);
      ControlPerforms(s, ControlMove(s, first, second));
    }
  }

  lemma WorkerStepKeeps(s: State, exitCode: int)
    requires Invariant(s)
    ensures Keeps(s, Apply(s, WorkerStep(exitCode)))
  {
    if s.worker.Worker? {
      var move := Work(s.journal, s.now, s.worker, exitCode);
      WorkerMoveAllowed(s.journal, s.now, s.worker, s.begun, s.children, exitCode);
      WorkerPerforms(s, move.effect, move.worker);
    }
  }

  lemma DesktopPublishKeeps(s: State, owned: bool)
    requires Invariant(s)
    ensures Keeps(s, Apply(s, DesktopPublishes(owned)))
  {
    if DesktopMayPublish(s) {
      var e := if owned then WriteOwnership else WriteIntent;
      WorkerPerforms(s, e, s.worker);
      assert Perform(s, e).(worker := s.worker) == Perform(s, e);
    }
  }

  lemma RequestStepKeeps(s: State, a: Action)
    requires Invariant(s) && (a.EnterControl? || a.ControlDies?)
    ensures Keeps(s, Apply(s, a))
  {
  }

  lemma QueueStepKeeps(s: State, a: Action)
    requires Invariant(s) && (a.SpawnWorker? || a.WaitingDies?)
    ensures Keeps(s, Apply(s, a))
  {
  }

  lemma WorkerLocksKeeps(s: State)
    requires Invariant(s)
    ensures Keeps(s, Apply(s, WorkerLocks))
  {
    if s.waiting > 0 && s.worker == NoWorker {
      WorkerPerforms(s, Nothing, Worker(ReadDispatch, s.now));
    }
  }

  lemma WorkerDiesKeeps(s: State)
    requires Invariant(s)
    ensures Keeps(s, Apply(s, WorkerDies))
  {
    WorkerPerforms(s, Nothing, NoWorker);
  }

  lemma GuestStepKeeps(s: State, a: Action)
    requires Invariant(s) && (a.Tick? || a.Reboot? || a.ChildForks? || a.ChildDies?)
    ensures Keeps(s, Apply(s, a))
  {
    var t := Apply(s, a);
    QuietOnlyHelps(t.journal, QuietState(s), QuietState(t), t.issued, t.ctl);
  }

  lemma StepKeeps(s: State, a: Action)
    requires Invariant(s)
    ensures Keeps(s, Apply(s, a))
  {
    match a {
      case ControlStep(first, second) => ControlStepKeeps(s, first, second);
      case WorkerStep(exitCode) => WorkerStepKeeps(s, exitCode);
      case DesktopPublishes(owned) => DesktopPublishKeeps(s, owned);
      case WorkerLocks => WorkerLocksKeeps(s);
      case WorkerDies => WorkerDiesKeeps(s);
      case EnterControl(_) | ControlDies => RequestStepKeeps(s, a);
      case Tick(_) | Reboot(_) | ChildForks | ChildDies => GuestStepKeeps(s, a);
      case _ => QueueStepKeeps(s, a);
    }
  }
}
