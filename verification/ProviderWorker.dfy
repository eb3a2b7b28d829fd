/**
  The provider install worker (dashboard/provisioner/hivra-provider-worker.py).

  One guest directory holds a write-once journal. `control` requests run under manager.lock, the
  installer worker under run.lock inside the cgroup of its systemd unit. Each lock has one slot here
  (ctl, worker), so a held lock is a filled slot. Every journal read, every publication, every
  process birth and death, the passing of time and every reboot is one action, and a run is any
  sequence of actions. A step of a process reads the journal, has at most one effect and moves on.
  A refusal (`reject()`, a failed read, an exception) ends the refusing process
  and releases its lock, exactly like a crash at the same point.
*/
module ProviderWorker {
  import opened Common

  const FRESH_MS := 20000
  const MAX_CLOCK_MS := 9007199254740991 - 480000

  /** Identity versions 1, 2 and 3: legacy agents, the native service, the desktop. */
  datatype Version = Legacy | Native | Desktop
  datatype Identity = Identity(version: Version, operation: int)
  datatype Clock = Clock(boot: nat, ms: int)

  datatype Outcome = Failed | Succeeded | Cancelled
  datatype Dispatch = Dispatch(identity: Identity, clock: Clock)
  datatype Result = Result(identity: Identity, exitCode: int)
  datatype Recorded = Recorded(identity: Identity, outcome: Outcome)
  datatype ProofState = NotStarted | VerifiedStopped
  datatype Proof = Proof(identity: Identity, state: ProofState)

  /** The files of the journal directory. `launchDigest` stands for the digest of the launch it holds. */
  datatype Journal = Journal(
    identity: Option<Identity>,
    manifest: Option<int>,
    closure: bool,
    controller: bool,
    launch: Option<int>,
    launchDigest: Option<int>,
    dispatch: Option<Dispatch>,
    started: Option<Identity>,
    cancel: Option<Identity>,
    result: Option<Result>,
    outcome: Option<Recorded>,
    preparationIntent: bool,
    ownership: bool,
    proofs: map<nat, Proof>)

  datatype Request =
    | Start(identity: Identity, clock: Clock, manifest: int, launch: int)
    | Status(identity: Identity, clock: Clock)
    | Cancel(identity: Identity, clock: Clock)

  /** Taking the lock, the identity of the journal, and the cancel branch. */
  datatype IdentityPc = Entered | Identify | NewIdentity | PublishCancel | StopUnit

  /** The start branch. */
  datatype StartPc =
    | ReadCancel | CheckDigest | ReadMarker
    | NativeClosure | NativeController | PublishManifest | DesktopClosure | DesktopController
    | PublishLaunch | PublishDigest | PublishDispatch | IssueUnit

  /** The samples of `observe`, with the values read so far. */
  datatype SamplePc =
    | SampleUnit
    | ObserveCancel(quiet: bool, loaded: bool)
    | ObserveStarted(quiet: bool, loaded: bool, cancelled: bool)
    | SampleCgroup(quiet: bool, loaded: bool, cancelled: bool, started: bool)
    | ProbeRunLock(loaded: bool, cancelled: bool, started: bool)
    | Judge(loaded: bool, cancelled: bool, started: bool, stopped: bool)

  /** The outcome of a stopped worker, and the answer. */
  datatype ConcludePc =
    | ReadRecorded(cancelled: bool)
    | ReadResult(cancelled: bool)
    | PublishOutcome(cancelled: bool, outcome: Outcome)
    | LegacyResult
    | UnlinkLaunch(cancelled: bool, outcome: Outcome)
    | Answer(report: Report)

  datatype CleanupPc = Cleanup | CleanupProof | CleanupDispatch | PublishNotStarted | StopOwned | ObserveProof

  /** Where the process holding manager.lock stands. */
  datatype CtlPc =
    | Identifying(identify: IdentityPc)
    | Starting(start: StartPc)
    | Sampling(sample: SamplePc)
    | Concluding(conclude: ConcludePc)
    | Cleaning(clean: CleanupPc)

  datatype Ctl = NoCtl | Ctl(request: Request, pc: CtlPc)

  /** Where the process holding run.lock stands; `checked` is the clock of its last freshness check. */
  datatype WorkerPc =
    | ReadDispatch | FirstFresh | FenceCancel | FenceStarted | Verify | LastFresh
    | PublishStarted | RemoveLaunch | FinalCancel | Begin | Installing | PublishResult(exitCode: int)

  datatype Worker = NoWorker | Worker(pc: WorkerPc, checked: Clock)

  /** What one observation answered; only `Ended` says stopped=True. */
  datatype Report = Unknown | Running | Stopping | Ended(outcome: Outcome)
  datatype Verdict = Verdict(identity: Identity, report: Report)

  /** One installer start: the dispatch clock, the last freshness check and the moment it began. */
  datatype Beginning = Beginning(dispatched: Clock, checked: Clock, at: Clock)

  /** What a single step does beyond moving its process on. */
  datatype Effect =
    | Nothing
    | WriteIdentity(identity: Identity)
    | WriteCancel(identity: Identity)
    | WriteClosure
    | WriteController
    | WriteManifest(manifest: int)
    | WriteLaunch(launch: int)
    | WriteDigest(launch: int)
    | WriteDispatch(dispatch: Dispatch)
    | Issue
    | WriteOutcome(record: Recorded)
    | DropLaunch
    | WriteProof(boot: nat, proof: Proof)
    | Tell(verdict: Verdict)
    | WriteStarted(identity: Identity)
    | BeginInstaller(beginning: Beginning)
    | WriteResult(result: Result)
    | WriteIntent
    | WriteOwnership

  datatype Move = Move(effect: Effect, ctl: Ctl)
  datatype WorkerMove = WorkerMove(effect: Effect, worker: Worker)

  /**
    `waiting` counts worker processes of the unit that have not asked for run.lock yet, `children`
    the installer's processes in the unit's cgroup. The last three fields are history.
  */
  datatype State = State(
    journal: Journal,
    now: Clock,
    ctl: Ctl,
    worker: Worker,
    waiting: nat,
    children: nat,
    issued: nat,
    begun: seq<Beginning>,
    verdicts: seq<Verdict>)

  datatype Action =
    | Tick(ms: nat)
    | Reboot(ms: nat)
    | EnterControl(request: Request)
    | ControlStep(first: bool, second: bool)
    | ControlDies
    | SpawnWorker
    | WorkerLocks
    | WaitingDies
    | WorkerStep(exitCode: int)
    | DesktopPublishes(owned: bool)
    | WorkerDies
    | ChildForks
    | ChildDies

  const EMPTY_JOURNAL := Journal(None, None, false, false, None, None, None, None, None, None, None, false, false,
                                 map[])
  const INIT := State(EMPTY_JOURNAL, Clock(0, 0), NoCtl, NoWorker, 0, 0, 0, [], [])

  /** `fresh`: the clock is well formed, of this boot, and less than 20 s old. */
  predicate Fresh(now: Clock, clock: Clock) {
    && 0 <= clock.ms <= MAX_CLOCK_MS
    && now.boot == clock.boot
    && 0 <= now.ms - clock.ms < FRESH_MS
  }

  predicate CgroupEmpty(s: State) {
    s.worker == NoWorker && s.waiting == 0 && s.children == 0
  }

  const REFUSE := Move(Nothing, NoCtl)

  /** `control` from taking the lock to the identity of the journal, and its cancel branch. */
  function IdentityMove(j: Journal, now: Clock, request: Request, pc: IdentityPc, unitAbsent: bool): Move {
    match pc
    case Entered =>
      if Fresh(now, request.clock) then Move(Nothing, Ctl(request, Identifying(Identify))) else REFUSE
    case Identify =>
      if j.identity.Some? then
        if j.identity.value != request.identity then REFUSE
        else
          Move(Nothing, Ctl(request, if request.Start? then Starting(ReadCancel)
                                     else if request.Cancel? then Identifying(PublishCancel)
                                     else Sampling(SampleUnit)))
      else if request.Status? || !unitAbsent then REFUSE
      else Move(Nothing, Ctl(request, Identifying(NewIdentity)))
    case NewIdentity =>
      if Publishable(j.identity, request.identity) then
        Move(WriteIdentity(request.identity),
             Ctl(request, if request.Cancel? then Identifying(PublishCancel) else Starting(ReadCancel)))
      else REFUSE
    case PublishCancel =>
      if Fresh(now, request.clock) && Publishable(j.cancel, request.identity)
      then Move(WriteCancel(request.identity), Ctl(request, Identifying(StopUnit))) else REFUSE
    case StopUnit =>
      Move(Nothing, Ctl(request, Sampling(SampleUnit)))
  }

  /** The start branch of `control`: retain, publish, journal the dispatch, then issue it. */
  function StartMove(j: Journal, now: Clock, request: Request, pc: StartPc): Move
    requires request.Start?
  {
    match pc
    case ReadCancel =>
      Move(Nothing, Ctl(request, if j.cancel.Some? then Sampling(SampleUnit) else Starting(CheckDigest)))
    case CheckDigest =>
      if j.launchDigest.Some? && j.launchDigest.value != request.launch then REFUSE
      else Move(Nothing, Ctl(request, Starting(ReadMarker)))
    case ReadMarker =>
      if j.dispatch.Some? then Move(Nothing, Ctl(request, Sampling(SampleUnit)))
      else if !Fresh(now, request.clock) then REFUSE
      else
        var native := request.identity.version == Native;
        Move(Nothing, Ctl(request, if native then Starting(NativeClosure) else Starting(PublishManifest)))
    case NativeClosure => Move(WriteClosure, Ctl(request, Starting(NativeController)))
    case NativeController => Move(WriteController, Ctl(request, Starting(PublishManifest)))
    case PublishManifest =>
      if Publishable(j.manifest, request.manifest) then
        var desktop := request.identity.version == Desktop;
        Move(WriteManifest(request.manifest),
             Ctl(request, if desktop then Starting(DesktopClosure) else Starting(PublishLaunch)))
      else REFUSE
    case DesktopClosure => Move(WriteClosure, Ctl(request, Starting(DesktopController)))
    case DesktopController => Move(WriteController, Ctl(request, Starting(PublishLaunch)))
    case PublishLaunch =>
      if Publishable(j.launch, request.launch)
      then Move(WriteLaunch(request.launch), Ctl(request, Starting(PublishDigest)))
      else REFUSE
    case PublishDigest =>
      if Publishable(j.launchDigest, request.launch)
      then Move(WriteDigest(request.launch), Ctl(request, Starting(PublishDispatch)))
      else REFUSE
    case PublishDispatch =>
      var marker := Dispatch(request.identity, request.clock);
      if Publishable(j.dispatch, marker) then Move(WriteDispatch(marker), Ctl(request, Starting(IssueUnit))) else REFUSE
    case IssueUnit =>
      if Fresh(now, request.clock) then Move(Issue, Ctl(request, Sampling(SampleUnit))) else REFUSE
  }

  /** The outcome a stopped observation derives when none is recorded yet. */
  function Derived(result: Option<Result>, cancelled: bool): Outcome {
    if result.Some? then if result.value.exitCode == 0 then Succeeded else Failed
    else if cancelled then Cancelled else Failed
  }

  /**
    `observe` and `empty_worker`: the unit is sampled first, then the one-way fences cancel and
    started, and only then the cgroup and the run lock. The unit sample may answer anything.
  */
  function SampleMove(j: Journal, cgroupEmpty: bool, lockFree: bool, request: Request, pc: SamplePc,
                      first: bool, second: bool): Move
  {
    match pc
    case SampleUnit =>
      Move(Nothing, Ctl(request, Sampling(ObserveCancel(first, second))))
    case ObserveCancel(quiet, loaded) =>
      if j.cancel.Some? && j.cancel.value != request.identity then REFUSE
      else Move(Nothing, Ctl(request, Sampling(ObserveStarted(quiet, loaded, j.cancel.Some?))))
    case ObserveStarted(quiet, loaded, cancelled) =>
      if j.started.Some? && j.started.value != request.identity then REFUSE
      else Move(Nothing, Ctl(request, Sampling(SampleCgroup(quiet, loaded, cancelled, j.started.Some?))))
    case SampleCgroup(quiet, loaded, cancelled, started) =>
      Move(Nothing, Ctl(request, if quiet && cgroupEmpty then Sampling(ProbeRunLock(loaded, cancelled, started))
                                 else Sampling(Judge(loaded, cancelled, started, false))))
    case ProbeRunLock(loaded, cancelled, started) =>
      Move(Nothing, Ctl(request, Sampling(Judge(loaded, cancelled, started, lockFree))))
    case Judge(loaded, cancelled, started, stopped) =>
      Move(Nothing, Ctl(request,
        if !cancelled && !started && (stopped || !loaded) then Concluding(Answer(Unknown))
        else if request.identity.version != Legacy && stopped then Concluding(ReadRecorded(cancelled))
        else if cancelled && stopped then Concluding(UnlinkLaunch(true, Cancelled))
        else if cancelled then Concluding(Answer(Stopping))
        else if !stopped then Concluding(Answer(Running))
        else Concluding(LegacyResult)))
  }

  /** The end of `observe`: the outcome of a stopped worker is read, recorded once and answered. */
  function ConcludeMove(j: Journal, request: Request, pc: ConcludePc): Move {
    match pc
    case ReadRecorded(cancelled) =>
      if j.outcome == None then Move(Nothing, Ctl(request, Concluding(ReadResult(cancelled))))
      else if j.outcome.value.identity != request.identity then REFUSE
      else Move(Nothing, Ctl(request, Concluding(UnlinkLaunch(cancelled, j.outcome.value.outcome))))
    case ReadResult(cancelled) =>
      if j.result.Some? && j.result.value.identity != request.identity then REFUSE
      else Move(Nothing, Ctl(request, Concluding(PublishOutcome(cancelled, Derived(j.result, cancelled)))))
    case PublishOutcome(cancelled, outcome) =>
      var record := Recorded(request.identity, outcome);
      if Publishable(j.outcome, record)
      then Move(WriteOutcome(record), Ctl(request, Concluding(UnlinkLaunch(cancelled, outcome))))
      else REFUSE
    case LegacyResult =>
      if j.result.Some? && j.result.value.identity != request.identity then REFUSE
      else Move(Nothing, Ctl(request, Concluding(UnlinkLaunch(false, Derived(j.result, false)))))
    case UnlinkLaunch(cancelled, outcome) =>
      Move(if cancelled then DropLaunch else Nothing, Ctl(request, Concluding(Answer(Ended(outcome)))))
    case Answer(report) =>
      Move(Tell(Verdict(request.identity, report)),
           if request.identity.version == Legacy then NoCtl
           else Ctl(request, if request.Cancel? && report.Ended? then Cleaning(Cleanup) else Cleaning(ObserveProof)))
  }

  /** What `native_observation` and `desktop_observation` demand of a recorded proof. */
  predicate ProofConsistent(j: Journal, proof: Proof, identity: Identity) {
    && proof.identity == identity
    && j.cancel == Some(identity)
    && (proof.state == NotStarted ==>
          j.dispatch == None && j.started == None && !j.preparationIntent && !j.ownership)
  }

  /**
    `cleanup_native`, `cleanup_desktop` and the two observation functions. Stopping the owned
    services is one step that may succeed (`first`) or leave the proof pending.
  */
  function CleanupMove(j: Journal, boot: nat, cgroupEmpty: bool, request: Request, pc: CleanupPc, first: bool): Move {
    match pc
    case Cleanup =>
      if j.cancel != Some(request.identity) then REFUSE
      else
        var busy := request.identity.version == Desktop && !(first && cgroupEmpty);
        Move(Nothing, Ctl(request, if busy then Cleaning(ObserveProof) else Cleaning(CleanupProof)))
    case CleanupProof =>
      if boot !in j.proofs then Move(Nothing, Ctl(request, Cleaning(CleanupDispatch)))
      else if !ProofConsistent(j, j.proofs[boot], request.identity) then REFUSE
      else
        Move(Nothing, Ctl(request, if j.proofs[boot].state == VerifiedStopped && !first then Cleaning(CleanupDispatch)
                                   else Cleaning(ObserveProof)))
    case CleanupDispatch =>
      if j.dispatch.Some? then Move(Nothing, Ctl(request, Cleaning(StopOwned)))
      else if j.started.Some? || j.preparationIntent || j.ownership then REFUSE
      else Move(Nothing, Ctl(request, Cleaning(PublishNotStarted)))
    case PublishNotStarted =>
      var proof := Proof(request.identity, NotStarted);
      if boot in j.proofs && j.proofs[boot] != proof then REFUSE
      else Move(WriteProof(boot, proof), Ctl(request, Cleaning(ObserveProof)))
    case StopOwned =>
      var proof := Proof(request.identity, VerifiedStopped);
      if !first || (request.identity.version == Desktop && !j.ownership)
      then Move(Nothing, Ctl(request, Cleaning(ObserveProof)))
      else if boot in j.proofs && j.proofs[boot] != proof then REFUSE
      else Move(WriteProof(boot, proof), Ctl(request, Cleaning(ObserveProof)))
    case ObserveProof => REFUSE
  }

  function ControlMove(s: State, first: bool, second: bool): Move
    requires s.ctl.Ctl?
  {
    var j, request, pc := s.journal, s.ctl.request, s.ctl.pc;
    match pc
    case Identifying(at) => IdentityMove(j, s.now, request, at, first)
    case Starting(at) => if request.Start? then StartMove(j, s.now, request, at) else REFUSE
    case Sampling(at) => SampleMove(j, CgroupEmpty(s), s.worker == NoWorker, request, at, first, second)
    case Concluding(at) => ConcludeMove(j, request, at)
    case Cleaning(at) => CleanupMove(j, s.now.boot, CgroupEmpty(s), request, at, first)
  }

  const STOP := WorkerMove(Nothing, NoWorker)

  /** `run`: one worker process, from reading the dispatch to publishing its result. */
  function Work(j: Journal, now: Clock, worker: Worker, exitCode: int): WorkerMove
    requires worker.Worker?
  {
    var checked := worker.checked;
    match worker.pc
    case ReadDispatch =>
      if j.identity.Some? && j.dispatch.Some? && j.dispatch.value.identity == j.identity.value
      then WorkerMove(Nothing, Worker(FirstFresh, checked)) else STOP
    case FirstFresh =>
      if j.dispatch.Some? && Fresh(now, j.dispatch.value.clock)
      then WorkerMove(Nothing, Worker(FenceCancel, checked)) else STOP
    case FenceCancel =>
      if j.cancel.Some? then STOP else WorkerMove(Nothing, Worker(FenceStarted, checked))
    case FenceStarted =>
      if j.started.Some? then STOP else WorkerMove(Nothing, Worker(Verify, checked))
    case Verify =>
      if && j.identity.Some? && j.manifest.Some? && j.launch.Some?
         && (j.identity.value.version != Legacy ==> j.closure && j.controller)
      then WorkerMove(Nothing, Worker(LastFresh, checked)) else STOP
    case LastFresh =>
      if j.dispatch.Some? && Fresh(now, j.dispatch.value.clock)
      then WorkerMove(Nothing, Worker(PublishStarted, now)) else STOP
    case PublishStarted =>
      if j.identity.Some? && Publishable(j.started, j.identity.value)
      then WorkerMove(WriteStarted(j.identity.value), Worker(RemoveLaunch, checked)) else STOP
    case RemoveLaunch =>
      if j.launch.Some? then WorkerMove(DropLaunch, Worker(FinalCancel, checked)) else STOP
    case FinalCancel =>
      if j.cancel.Some? then STOP else WorkerMove(Nothing, Worker(Begin, checked))
    case Begin =>
      if j.dispatch.None? then STOP
      else WorkerMove(BeginInstaller(Beginning(j.dispatch.value.clock, checked, now)), Worker(Installing, checked))
    case Installing =>
      WorkerMove(Nothing, Worker(PublishResult(exitCode), checked))
    case PublishResult(code) =>
      if j.identity.Some? && Publishable(j.result, Result(j.identity.value, code))
      then WorkerMove(WriteResult(Result(j.identity.value, code)), NoWorker) else STOP
  }

  /** The journal after an effect. */
  function Written(j: Journal, e: Effect): Journal {
    match e
    case WriteIdentity(identity) => j.(identity := Some(identity))
    case WriteCancel(identity) => j.(cancel := Some(identity))
    case WriteClosure => j.(closure := true)
    case WriteController => j.(controller := true)
    case WriteManifest(manifest) => j.(manifest := Some(manifest))
    case WriteLaunch(launch) => j.(launch := Some(launch))
    case WriteDigest(launch) => j.(launchDigest := Some(launch))
    case WriteDispatch(dispatch) => j.(dispatch := Some(dispatch))
    case WriteOutcome(record) => j.(outcome := Some(record))
    case DropLaunch => j.(launch := None)
    case WriteProof(boot, proof) => j.(proofs := j.proofs[boot := proof])
    case WriteStarted(identity) => j.(started := Some(identity))
    case WriteResult(result) => j.(result := Some(result))
    case WriteIntent => j.(preparationIntent := true)
    case WriteOwnership => j.(ownership := true)
    case Nothing | Issue | Tell(_) | BeginInstaller(_) => j
  }

  /** The state after an effect: the journal, the issued units, the installer starts and the answers given. */
  function Perform(s: State, e: Effect): State {
    s.(journal := Written(s.journal, e),
       issued := if e.Issue? then s.issued + 1 else s.issued,
       begun := if e.BeginInstaller? then s.begun + [e.beginning] else s.begun,
       children := if e.BeginInstaller? then s.children + 1 else s.children,
       verdicts := if e.Tell? then s.verdicts + [e.verdict] else s.verdicts)
  }

  /** `DesktopJournal.publish`: under manager.lock and with no cancellation, so both are one step. */
  predicate DesktopMayPublish(s: State) {
    && s.worker.Worker? && s.worker.pc == Installing && s.ctl == NoCtl
    && s.journal.cancel == None && s.journal.identity.Some? && s.journal.identity.value.version == Desktop
  }

  /** One action of the whole system; an action that is not enabled changes nothing. */
  function Apply(s: State, a: Action): State {
    match a
    case Tick(ms) => s.(now := s.now.(ms := s.now.ms + ms))
    case Reboot(ms) =>
      s.(now := Clock(s.now.boot + 1, ms), ctl := NoCtl, worker := NoWorker, waiting := 0, children := 0)
    case EnterControl(request) =>
      if s.ctl == NoCtl && Fresh(s.now, request.clock) then s.(ctl := Ctl(request, Identifying(Entered))) else s
    case ControlStep(first, second) =>
      if s.ctl == NoCtl then s
      else
        var move := ControlMove(s, first, second);
        Perform(s, move.effect).(ctl := move.ctl)
    case ControlDies => s.(ctl := NoCtl)
    case SpawnWorker => s.(waiting := s.waiting + 1)
    case WorkerLocks =>
      if s.waiting == 0 then s
      else if s.worker == NoWorker then s.(waiting := s.waiting - 1, worker := Worker(ReadDispatch, s.now))
      else s.(waiting := s.waiting - 1)
    case WaitingDies => if s.waiting == 0 then s else s.(waiting := s.waiting - 1)
    case WorkerStep(exitCode) =>
      if s.worker == NoWorker then s
      else
        var move := Work(s.journal, s.now, s.worker, exitCode);
        Perform(s, move.effect).(worker := move.worker)
    case DesktopPublishes(owned) =>
      if DesktopMayPublish(s) then Perform(s, if owned then WriteOwnership else WriteIntent) else s
    case WorkerDies => s.(worker := NoWorker)
    case ChildForks =>
      if s.children > 0 || (s.worker.Worker? && s.worker.pc == Installing) then s.(children := s.children + 1) else s
    case ChildDies => if s.children == 0 then s else s.(children := s.children - 1)
  }

  /** The state after a sequence of actions. */
  function Run(s: State, actions: seq<Action>): State
    decreases |actions|
  {
    if actions == [] then s else Run(Apply(s, actions[0]), actions[1..])
  }
}
