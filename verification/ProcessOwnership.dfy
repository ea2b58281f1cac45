/**
 * Ownership of the gateway process: the child object held in memory, the process record that is stored, and
 * the processes of the machine, whose ids are reused.
 */
module ProcessOwnership {
  import opened Common
  import opened GatewayState
  import opened StateStore

  /** A process: its id may be reused, its birth is never repeated. */
  datatype Process = Process(pid: nat, birth: string)

  // ----- The child held in memory

  datatype Spawned = Spawned(child: Process, generation: nat)

  datatype Ledger = Ledger(process: Option<Process>, generation: nat, stopping: Option<nat>)

  predicate IsCurrent(l: Ledger, o: Spawned) {
    l.generation == o.generation && l.process == Some(o.child)
  }

  function StartedWith(l: Ledger, child: Process): Ledger {
    if l.process.Some? then l else Ledger(Some(child), l.generation + 1, None)
  }

  function MarkedStopping(l: Ledger, o: Spawned): Ledger {
    if IsCurrent(l, o) then l.(stopping := Some(o.generation)) else l
  }

  function ClearedOf(l: Ledger, o: Spawned): Ledger {
    if IsCurrent(l, o) then Ledger(None, l.generation, None) else l
  }

  // ----- The stored record

  /** ownershipMatches */
  predicate RecordIs(state: Option<GatewayState>, record: ProcessRecord) {
    state.Some? && state.value.process == Some(record)
  }

  function StartingState(state: GatewayState, child: Process): GatewayState {
    state.(process := Some(ProcessRecord(child.birth, Starting, child.pid)))
  }

  function Promoted(stored: Option<GatewayState>, state: GatewayState, authorization: Option<string>)
    : Result<GatewayState>
  {
    if state.process.None? || !RecordIs(stored, state.process.value) then Err
    else Ok(state.(authorization := authorization, process := Some(state.process.value.(phase := Ready))))
  }

  function WithoutRecord(stored: Option<GatewayState>, expected: ProcessRecord): Option<GatewayState> {
    if RecordIs(stored, expected) then Some(stored.value.(process := None)) else stored
  }

  function Of(record: ProcessRecord): Process {
    Process(record.processId, record.startedAtTicks)
  }

  function RecordOf(p: Process): ProcessRecord {
    ProcessRecord(p.birth, Starting, p.pid)
  }

  function StoredProcess(stored: Option<GatewayState>): Option<Process> {
    if stored.Some? && stored.value.process.Some? then Some(Of(stored.value.process.value)) else None
  }

  // ----- The machine, and runs of everything that may happen

  /** What runs under a process id, and whether it is the managed executable with the managed configuration. */
  datatype Running = Running(birth: string, ours: bool)

  /** The process that an inspection right after a spawn found under the id of the child. */
  datatype Reading = Reading(owner: Spawned, process: Process)

  /** Lifecycle operations run one at a time: what the present one loaded, or the process it started. */
  datatype Operation = NoOperation | Loaded(loaded: Option<Process>) | Started(process: Process)

  /**
   * The machine: what runs, every birth so far, the processes spawned here and the ownerships issued for them.
   * The gateway: captures and starting records by ownership, the child, the stored state and the records that
   * callers hold. The history: processes that were ever recorded, seen dead, inspected in doubt, terminated.
   */
  datatype World = World(
    running: map<nat, Running>,
    births: set<string>,
    spawned: set<Process>,
    issued: set<Spawned>,
    captures: set<Reading>,
    started: set<Reading>,
    ledger: Ledger,
    stored: Option<GatewayState>,
    held: set<ProcessRecord>,
    operation: Operation,
    known: set<Process>,
    dead: set<Process>,
    doubted: set<Process>,
    terminated: set<Process>)

  predicate Alive(w: World, p: Process) {
    p.pid in w.running && w.running[p.pid].birth == p.birth
  }

  /** The check of id and birth and the kill are one step; what dies is whatever runs under the id. */
  function Killed(w: World, p: Process): World {
    if Alive(w, p) then
      w.(running := w.running - {p.pid}, terminated := w.terminated + {Process(p.pid, w.running[p.pid].birth)})
    else w
  }

  datatype Action =
    | Boot(process: Process)
    | Exit(pid: nat)
    | BeginOperation
    | EndOperation
    | Reuse(process: Process)
    | Spawn(process: Process)
    | Capture(ownership: Spawned)
    | PersistStarting(ownership: Spawned, process: Process, state: GatewayState)
    | Load
    | Promote(state: GatewayState, authorization: Option<string>)
    | Inspect(record: ProcessRecord)
    | InspectInDoubt(record: ProcessRecord)
    | ClearDead(record: ProcessRecord)
    | ChildExited(ownership: Spawned, recorded: Option<Process>)
    | Terminate(record: ProcessRecord)
    | TerminateCaptured(reading: Reading)
    | KillChild(ownership: Spawned)
    | Complete(ownership: Spawned)
    | Commit(state: GatewayState)
    | DropRecord(state: GatewayState)

  /**
   * Anything may run between two awaits, as far as the earlier segments it continues saw what it needs. Callers
   * pass records that they hold. A spawn comes after the stored record was found dead and cleared, could not be
   * cleared, or was inspected in doubt. Of the saves, a commit keeps the process its operation started or
   * reused, and a logout or an installation drops the record after stopping the process it had loaded.
   */
  predicate Enabled(w: World, a: Action) {
    match a
    case Boot(p) => p.pid !in w.running && p.birth !in w.births
    case Exit(pid) => pid in w.running
    case BeginOperation => w.operation == NoOperation
    case EndOperation => true
    case Reuse(p) => w.operation == Loaded(Some(p))
    case Spawn(p) =>
      && w.ledger.process.None? && w.operation != NoOperation
      && p.pid !in w.running && p.birth !in w.births
      && (StoredProcess(w.stored).Some? ==> StoredProcess(w.stored).value in w.dead + w.doubted)
    case Capture(o) => o in w.issued
    case PersistStarting(o, p, _) =>
      && Reading(o, p) in w.captures && IsCurrent(w.ledger, o) && w.operation != NoOperation
      && forall s | s in w.started :: s.owner != o
    case Load => true
    case Promote(state, _) => state.process.Some? ==> state.process.value in w.held
    case Inspect(record) => record in w.held
    case InspectInDoubt(record) => record in w.held
    case ClearDead(record) => Of(record) in w.dead
    case ChildExited(o, recorded) =>
      o in w.issued && !Alive(w, o.child) && (recorded.Some? ==> Reading(o, recorded.value) in w.started)
    case Terminate(record) => record in w.held
    case TerminateCaptured(reading) => reading in w.captures
    case KillChild(o) => IsCurrent(w.ledger, o)
    case Complete(o) => o in w.issued && !Alive(w, o.child)
    case Commit(state) =>
      && state.process.Some? && state.process.value.phase.Ready?
      && w.operation == Started(Of(state.process.value))
    case DropRecord(_) => w.operation.Loaded? && (w.operation.loaded.Some? ==> w.operation.loaded.value in w.dead)
  }

  function NextLedger(l: Ledger, a: Action): Ledger {
    match a
    case Spawn(p) => StartedWith(l, p)
    case ChildExited(o, _) => ClearedOf(l, o)
    case KillChild(o) => MarkedStopping(l, o)
    case Complete(o) => ClearedOf(l, o)
    case _ => l
  }

  function NextStored(stored: Option<GatewayState>, a: Action): Option<GatewayState> {
    match a
    case PersistStarting(_, p, state) => Some(StartingState(state, p))
    case Promote(state, authorization) =>
      var r := Promoted(stored, state, authorization);
      if r.Ok? then Some(r.value) else stored
    case ClearDead(record) => WithoutRecord(stored, record)
    case ChildExited(_, recorded) =>
      if recorded.Some? then WithoutRecord(stored, RecordOf(recorded.value)) else stored
    case Commit(state) => Some(state)
    case DropRecord(state) => Some(state.(process := None))
    case _ => stored
  }

  function RecordIn(stored: Option<GatewayState>): set<ProcessRecord> {
    if stored.Some? && stored.value.process.Some? then {stored.value.process.value} else {}
  }

  /** What a step does to the machine, and what the gateway learns from it. */
  function Effect(w: World, a: Action): World {
    match a
    case Boot(p) => w.(running := w.running[p.pid := Running(p.birth, false)], births := w.births + {p.birth})
    case Exit(pid) => w.(running := w.running - {pid})
    case BeginOperation => w.(operation := Loaded(StoredProcess(w.stored)))
    case EndOperation => w.(operation := NoOperation)
    case Reuse(p) => w.(operation := Started(p))
    case Spawn(p) =>
      w.(running := w.running[p.pid := Running(p.birth, true)], births := w.births + {p.birth},
         spawned := w.spawned + {p}, issued := w.issued + {Spawned(p, w.ledger.generation + 1)},
         operation := Loaded(StoredProcess(w.stored)))
    case Capture(o) =>
      if o.child.pid in w.running && w.running[o.child.pid].ours then
        w.(captures := w.captures + {Reading(o, Process(o.child.pid, w.running[o.child.pid].birth))})
      else w
    case PersistStarting(o, p, _) =>
      w.(started := w.started + {Reading(o, p)}, known := w.known + {p}, operation := Started(p))
    case Inspect(record) => if Alive(w, Of(record)) then w else w.(dead := w.dead + {Of(record)})
    case InspectInDoubt(record) => w.(doubted := w.doubted + {Of(record)})
    case Terminate(record) => var after := Killed(w, Of(record)); after.(dead := after.dead + {Of(record)})
    case TerminateCaptured(reading) => Killed(w, reading.process)
    case KillChild(o) => Killed(w, o.child)
    case DropRecord(_) => w.(operation := Loaded(None))
    case _ => w
  }

  /** Whoever loads or saves holds the record that is stored then. */
  function Next(w: World, a: Action): World {
    var stored := NextStored(w.stored, a);
    Effect(w, a).(ledger := NextLedger(w.ledger, a), stored := stored, held := w.held + RecordIn(stored))
  }

  const START: Ledger := Ledger(None, 0, None)

  /** The start of an incarnation: earlier ones may have left spawned processes and a record of one of them. */
  predicate IsStart(w: World) {
    && w.ledger == START && w.operation == NoOperation
    && w.issued == {} && w.captures == {} && w.started == {} && w.held == {}
    && w.dead == {} && w.doubted == {} && w.terminated == {}
    && w.known == (if StoredProcess(w.stored).Some? then {StoredProcess(w.stored).value} else {})
    && w.known <= w.spawned
    && (forall pid | pid in w.running :: w.running[pid].birth in w.births)
    && (forall pid | pid in w.running && w.running[pid].ours :: Process(pid, w.running[pid].birth) in w.spawned)
    && (forall p | p in w.spawned :: p.birth in w.births)
  }

  function After(w: World, run: seq<Action>): World {
    if run == [] then w else Next(After(w, run[..|run| - 1]), run[|run| - 1])
  }

  predicate IsRun(w: World, run: seq<Action>) {
    forall n :: 0 <= n < |run| ==> Enabled(After(w, run[..n]), run[n])
  }

  // ----- What every run keeps

  /** Births are never repeated, and only spawned processes are the managed executable. */
  ghost predicate MachineSane(w: World) {
    && (forall pid | pid in w.running :: w.running[pid].birth in w.births)
    && (forall p | p in w.spawned :: p.birth in w.births)
    && (forall pid | pid in w.running && w.running[pid].ours :: Process(pid, w.running[pid].birth) in w.spawned)
    && (forall p | p in w.dead :: p.birth in w.births && !Alive(w, p))
    && (forall p | p in w.terminated :: p in w.spawned && !Alive(w, p))
  }

  /** Ownerships are issued once, and the current one can only have captured its own child. */
  ghost predicate OwnershipsSane(w: World) {
    && (forall o | o in w.issued :: o.child in w.spawned && o.generation <= w.ledger.generation)
    && (forall o1, o2 | o1 in w.issued && o2 in w.issued && o1.child == o2.child :: o1 == o2)
    && (w.ledger.process.Some? ==>
          var c := w.ledger.process.value;
          && Spawned(c, w.ledger.generation) in w.issued
          && (c.pid in w.running && w.running[c.pid].ours ==> w.running[c.pid].birth == c.birth))
    && (w.ledger.stopping.Some? ==> w.ledger.process.Some? && w.ledger.stopping.value == w.ledger.generation)
    && (forall r | r in w.captures ::
          && r.owner in w.issued && r.process in w.spawned
          && (IsCurrent(w.ledger, r.owner) ==> r.process == r.owner.child))
  }

  function OperationProcess(operation: Operation): Option<Process> {
    match operation
    case NoOperation => None
    case Loaded(loaded) => loaded
    case Started(process) => Some(process)
  }

  /** Every record names a process that was spawned and recorded here or by an earlier incarnation. */
  ghost predicate RecordsSane(w: World) {
    && w.known <= w.spawned
    && (StoredProcess(w.stored).Some? ==> StoredProcess(w.stored).value in w.known)
    && (OperationProcess(w.operation).Some? ==> OperationProcess(w.operation).value in w.known)
    && (forall r | r in w.held :: Of(r) in w.known)
    && (forall s | s in w.started :: s.owner in w.issued && s.process == s.owner.child)
    && (forall o | o in w.issued && o.child in w.known :: Reading(o, o.child) in w.started)
  }

  ghost predicate Passed(w: World, p: Option<Process>) {
    w.ledger.process.Some? && p.Some? ==> p == w.ledger.process || p.value in w.dead || p.value in w.doubted
  }

  /** The stored record is that of the child, or of a process that a spawn had reason to pass over. */
  ghost predicate SuccessionSane(w: World) {
    && Passed(w, StoredProcess(w.stored)) && Passed(w, OperationProcess(w.operation))
    && (w.operation != NoOperation ==> StoredProcess(w.stored) in {None, OperationProcess(w.operation)})
  }

  ghost predicate Sane(w: World) {
    MachineSane(w) && OwnershipsSane(w) && RecordsSane(w) && SuccessionSane(w)
  }

  lemma KillSpares(w: World, p: Process)
    requires MachineSane(w) && p in w.spawned
    ensures MachineSane(Killed(w, p)) && !Alive(Killed(w, p), p)
  {
  }

  lemma BirthKeeps(w: World, p: Process, ours: bool, spawned: set<Process>)
    requires MachineSane(w) && p.pid !in w.running && p.birth !in w.births
    requires spawned == w.spawned + (if ours then {p} else {})
    ensures MachineSane(w.(running := w.running[p.pid := Running(p.birth, ours)], births := w.births + {p.birth},
                           spawned := spawned))
  {
  }

  lemma ExitKeeps(w: World, pid: nat)
    requires MachineSane(w)
    ensures MachineSane(w.(running := w.running - {pid}))
  {
  }

  lemma DeathKeeps(w: World, p: Process)
    requires MachineSane(w) && p in w.spawned && !Alive(w, p)
    ensures MachineSane(w.(dead := w.dead + {p}))
  {
  }

  predicate SameMachine(w: World, v: World) {
    && w.running == v.running && w.births == v.births && w.spawned == v.spawned
    && w.dead == v.dead && w.terminated == v.terminated
  }

  lemma SameMachineKeeps(w: World, v: World)
    requires MachineSane(w) && SameMachine(w, v)
    ensures MachineSane(v)
  {
  }

  lemma StepKeepsMachine(w: World, a: Action)
    requires Sane(w) && Enabled(w, a)
    ensures MachineSane(Next(w, a))
  {
    hide SuccessionSane;
    hide NextStored;
    hide NextLedger;
    hide RecordIn;
    hide StoredProcess;
    hide MachineSane;
    hide Alive;
    var v := Effect(w, a);
    match a {
      case Boot(p) => BirthKeeps(w, p, false, w.spawned);
      case Spawn(p) =>
        BirthKeeps(w, p, true, w.spawned + {p});
        SameMachineKeeps(w.(running := v.running, births := v.births, spawned := v.spawned), v);
      case Exit(pid) => ExitKeeps(w, pid);
      case Inspect(record) =>
        if !Alive(w, Of(record)) {
          DeathKeeps(w, Of(record));
        }
      case Terminate(record) =>
        KillSpares(w, Of(record));
        DeathKeeps(Killed(w, Of(record)), Of(record));
      case TerminateCaptured(reading) => KillSpares(w, reading.process);
      case KillChild(o) => KillSpares(w, o.child);
      case _ => SameMachineKeeps(w, v);
    }
    hide Killed;
    SameMachineKeeps(v, Next(w, a));
  }

  lemma SpawnIssues(w: World, p: Process)
    requires Sane(w) && Enabled(w, Spawn(p))
    ensures OwnershipsSane(Next(w, Spawn(p)))
  {
    hide RecordsSane;
    hide SuccessionSane;
    hide NextStored;
    hide RecordIn;
    hide StoredProcess;
  }

  /** Fewer running processes and a cleared or marked child issue nothing. */
  lemma LossKeeps(w: World, v: World)
    requires OwnershipsSane(w)
    requires v.issued == w.issued && v.spawned == w.spawned && v.captures == w.captures
    requires forall pid | pid in v.running && v.running[pid].ours ::
               pid in w.running && w.running[pid] == v.running[pid]
    requires v.ledger.generation == w.ledger.generation && v.ledger.process in {w.ledger.process, None}
    requires v.ledger.stopping in {w.ledger.stopping, None, Some(w.ledger.generation)}
    requires v.ledger.process.None? ==> v.ledger.stopping.None?
    requires v.ledger.stopping.Some? && w.ledger.stopping.None? ==> v.ledger.process.Some?
    ensures OwnershipsSane(v)
  {
  }

  lemma CaptureKeeps(w: World, o: Spawned)
    requires Sane(w) && Enabled(w, Capture(o))
    ensures OwnershipsSane(Next(w, Capture(o)))
  {
    hide RecordsSane;
    hide SuccessionSane;
    hide RecordIn;
  }

  lemma StepKeepsOwnerships(w: World, a: Action)
    requires Sane(w) && Enabled(w, a)
    ensures OwnershipsSane(Next(w, a))
  {
    hide RecordsSane;
    hide SuccessionSane;
    hide NextStored;
    hide RecordIn;
    hide StoredProcess;
    if a.Spawn? {
      SpawnIssues(w, a.process);
    } else if a.Capture? {
      CaptureKeeps(w, a.ownership);
    } else {
      hide MachineSane;
      assert w.ledger.process.None? ==> w.ledger.stopping.None?;
      hide OwnershipsSane;
      LossKeeps(w, Next(w, a));
    }
  }

  lemma StoredStays(stored: Option<GatewayState>, a: Action)
    ensures StoredProcess(NextStored(stored, a)) in {None, StoredProcess(stored)}
            || a.PersistStarting? || a.Commit?
    ensures a.DropRecord? ==> StoredProcess(NextStored(stored, a)) == None
    ensures a.PersistStarting? ==> StoredProcess(NextStored(stored, a)) == Some(a.process)
    ensures a.Commit? && a.state.process.Some? ==>
              StoredProcess(NextStored(stored, a)) == Some(Of(a.state.process.value))
    ensures forall r | r in RecordIn(NextStored(stored, a)) :: StoredProcess(NextStored(stored, a)) == Some(Of(r))
    ensures !a.PersistStarting? && !a.Promote? && !a.Commit? && !a.DropRecord? && !a.ClearDead? && !a.ChildExited? ==>
              NextStored(stored, a) == stored
  {
  }

  lemma StepKeepsRecords(w: World, a: Action)
    requires Sane(w) && Enabled(w, a)
    ensures RecordsSane(Next(w, a))
  {
    StoredStays(w.stored, a);
    hide NextStored;
    hide RecordIn;
    hide StoredProcess;
    hide SuccessionSane;
  }

  lemma StepKeepsSuccession(w: World, a: Action)
    requires Sane(w) && Enabled(w, a)
    ensures SuccessionSane(Next(w, a))
  {
    StoredStays(w.stored, a);
    hide NextStored;
    hide RecordIn;
    hide StoredProcess;
    hide RecordsSane;
    hide MachineSane;
  }

  lemma AfterStep(w: World, run: seq<Action>, n: nat)
    requires n < |run|
    ensures After(w, run[..n + 1]) == Next(After(w, run[..n]), run[n])
  {
    hide Next;
    assert run[..n + 1][..n] == run[..n];
  }

  lemma PrefixIsRun(w: World, run: seq<Action>, n: nat)
    requires IsRun(w, run) && n < |run|
    ensures IsRun(w, run[..n]) && Enabled(After(w, run[..n]), run[n])
    ensures After(w, run[..n + 1]) == Next(After(w, run[..n]), run[n])
  {
    hide After;
    hide Enabled;
    hide Next;
    AfterStep(w, run, n);
    forall k | 0 <= k < n ensures Enabled(After(w, run[..n][..k]), run[..n][k]) {
      assert run[..n][..k] == run[..k];
      assert Enabled(After(w, run[..k]), run[k]);
    }
  }

  lemma StartIsSane(w: World)
    requires IsStart(w)
    ensures Sane(w)
  {
  }

  lemma StepStaysSane(w: World, a: Action)
    requires Sane(w) && Enabled(w, a)
    ensures Sane(Next(w, a)) && Next(w, a).terminated <= Next(w, a).spawned
  {
    StepKeepsMachine(w, a);
    StepKeepsOwnerships(w, a);
    StepKeepsRecords(w, a);
    StepKeepsSuccession(w, a);
    hide Next;
    hide OwnershipsSane;
    hide RecordsSane;
    hide SuccessionSane;
  }

  /**
   * In every run, with processes exiting, ids being reused and callbacks coming late: whatever was killed had
   * been spawned here, what was seen dead stays dead, and every record names a process that was recorded.
   */
  lemma {:induction false} EveryRunIsSane(w: World, run: seq<Action>)
    requires IsStart(w) && IsRun(w, run)
    ensures Sane(After(w, run)) && After(w, run).terminated <= After(w, run).spawned
    decreases |run|
  {
    StartIsSane(w);
    assert IsStart(w) ==> w.terminated <= w.spawned;
    RunNothing(w);
    hide *;
    if run != [] {
      var before := run[..|run| - 1];
      PrefixIsRun(w, run, |run| - 1);
      assert run[..|run|] == run;
      EveryRunIsSane(w, before);
      StepStaysSane(After(w, before), run[|run| - 1]);
    }
  }

  lemma StepReplaces(w: World, a: Action, p: Process)
    requires Sane(w) && Enabled(w, a) && StoredProcess(w.stored) == Some(p) && Alive(w, p)
    ensures StoredProcess(Next(w, a).stored) != Some(p) <==> a.PersistStarting? && a.process != p
    ensures StoredProcess(Next(w, a).stored) != Some(p) ==> p in w.doubted
  {
    StoredStays(w.stored, a);
    hide RecordIn;
  }

  /**
   * In every run, a process that is still there stops being the recorded one exactly when the start of another
   * child is recorded, and then an inspection of it had been in doubt.
   */
  lemma RecordsOutliveTheirProcess(w: World, run: seq<Action>, n: nat, p: Process)
    requires IsStart(w) && IsRun(w, run) && n < |run|
    requires StoredProcess(After(w, run[..n]).stored) == Some(p) && Alive(After(w, run[..n]), p)
    ensures StoredProcess(After(w, run[..n + 1]).stored) != Some(p)
            <==> run[n].PersistStarting? && run[n].process != p
    ensures run[n].PersistStarting? && run[n].process != p ==> p in After(w, run[..n]).doubted
  {
    PrefixIsRun(w, run, n);
    EveryRunIsSane(w, run[..n]);
    StepReplaces(After(w, run[..n]), run[n], p);
  }

  lemma DoubtfulSpawn(w: World, record: ProcessRecord, child: Process)
    requires IsStart(w) && RecordIs(w.stored, record) && Alive(w, Of(record))
    requires child.pid !in w.running && child.birth !in w.births
    ensures Enabled(w, BeginOperation) && Enabled(Next(w, BeginOperation), InspectInDoubt(record))
    ensures var two := Next(Next(w, BeginOperation), InspectInDoubt(record));
            var three := Next(two, Spawn(child));
            && Enabled(two, Spawn(child)) && Alive(three, Of(record))
            && three.running[child.pid] == Running(child.birth, true) && child.pid in three.running
            && three.issued == {Spawned(child, 1)} && three.ledger == Ledger(Some(child), 1, None)
            && three.started == {} && three.operation != NoOperation && child != Of(record)
  {
  }

  lemma DoubtfulRecord(w: World, record: ProcessRecord, child: Process, state: GatewayState)
    requires child.pid in w.running && w.running[child.pid] == Running(child.birth, true) && Alive(w, Of(record))
    requires w.issued == {Spawned(child, 1)} && w.ledger == Ledger(Some(child), 1, None)
    requires w.started == {} && w.operation != NoOperation
    ensures var o := Spawned(child, 1);
            var four := Next(w, Capture(o));
            var five := Next(four, PersistStarting(o, child, state));
            && Enabled(w, Capture(o)) && Enabled(four, PersistStarting(o, child, state))
            && Alive(five, Of(record)) && StoredProcess(five.stored) == Some(child)
  {
  }

  lemma {:induction false} AfterFirst(w: World, a: Action, rest: seq<Action>)
    ensures After(w, [a] + rest) == After(Next(w, a), rest)
    decreases |rest|
  {
    hide Next;
    var run := [a] + rest;
    if rest == [] {
      assert run[..0] == [] && After(w, run[..0]) == w;
    } else {
      var n := |rest| - 1;
      assert run[..|run| - 1] == [a] + rest[..n];
      AfterFirst(w, a, rest[..n]);
    }
  }

  lemma RunNothing(w: World)
    ensures IsRun(w, []) && After(w, []) == w
  {
  }

  lemma RunFirst(w: World, a: Action, rest: seq<Action>, run: seq<Action>)
    requires Enabled(w, a) && IsRun(Next(w, a), rest) && run == [a] + rest
    ensures IsRun(w, run) && After(w, run) == After(Next(w, a), rest)
  {
    hide After;
    hide Next;
    hide Enabled;
    AfterFirst(w, a, rest);
    RunNothing(w);
    assert run[..0] == [];
    forall n | 0 <= n < |run| ensures Enabled(After(w, run[..n]), run[n]) {
      if n > 0 {
        assert run[..n] == [a] + rest[..n - 1];
        AfterFirst(w, a, rest[..n - 1]);
        assert Enabled(After(Next(w, a), rest[..n - 1]), rest[n - 1]);
      }
    }
  }

  /**
   * An inspection in doubt can lose the record of a live process, from every start: if that process does not hold
   * the port, which is checked before a spawn, a new child is started and its record replaces the old one.
   */
  lemma DoubtLosesTheRecord(w: World, record: ProcessRecord, child: Process, state: GatewayState)
    requires IsStart(w) && RecordIs(w.stored, record) && Alive(w, Of(record))
    requires child.pid !in w.running && child.birth !in w.births
    ensures var o := Spawned(child, 1);
            var run := [BeginOperation, InspectInDoubt(record), Spawn(child), Capture(o),
                        PersistStarting(o, child, state)];
            && IsRun(w, run) && Alive(After(w, run), Of(record))
            && StoredProcess(After(w, run).stored) == Some(child) != Some(Of(record))
  {
    hide *;
    var o := Spawned(child, 1);
    var capture, persist := Capture(o), PersistStarting(o, child, state);
    DoubtfulSpawn(w, record, child);
    var one := Next(w, BeginOperation);
    var two := Next(one, InspectInDoubt(record));
    var three := Next(two, Spawn(child));
    DoubtfulRecord(three, record, child, state);
    RunNothing(Next(Next(three, capture), persist));
    RunFirst(Next(three, capture), persist, [], [persist]);
    RunFirst(three, capture, [persist], [capture, persist]);
    RunFirst(two, Spawn(child), [capture, persist], [Spawn(child), capture, persist]);
    RunFirst(one, InspectInDoubt(record), [Spawn(child), capture, persist],
             [InspectInDoubt(record), Spawn(child), capture, persist]);
    RunFirst(w, BeginOperation, [InspectInDoubt(record), Spawn(child), capture, persist],
             [BeginOperation, InspectInDoubt(record), Spawn(child), capture, persist]);
  }

  lemma StepPromotes(w: World, a: Action, before: ProcessRecord, after: ProcessRecord)
    requires Sane(w) && Enabled(w, a) && RecordIs(w.stored, before) && RecordIs(Next(w, a).stored, after)
    requires Of(before) == Of(after) && before != after
    ensures before.phase.Starting? && after == before.(phase := Ready)
    ensures (a.Promote? && a.state.process == Some(before)) || a.Commit?
  {
    hide SuccessionSane;
  }

  /**
   * In every run, the record of a process changes only from starting to ready, and only by a promotion that
   * holds exactly the stored id, birth and phase, or by the commit of the operation that started it.
   */
  lemma PromotionIsExact(w: World, run: seq<Action>, n: nat, before: ProcessRecord, after: ProcessRecord)
    requires IsStart(w) && IsRun(w, run) && n < |run|
    requires RecordIs(After(w, run[..n]).stored, before) && RecordIs(After(w, run[..n + 1]).stored, after)
    requires Of(before) == Of(after) && before != after
    ensures before.phase.Starting? && after == before.(phase := Ready)
    ensures (run[n].Promote? && run[n].state.process == Some(before)) || run[n].Commit?
  {
    PrefixIsRun(w, run, n);
    EveryRunIsSane(w, run[..n]);
    hide After;
    StepPromotes(After(w, run[..n]), run[n], before, after);
  }

  lemma {:induction false} KnownWereRecorded(w: World, run: seq<Action>, p: Process)
    requires p in After(w, run).known
    ensures p in w.known || exists n :: 0 <= n < |run| && run[n].PersistStarting? && run[n].process == p
    decreases |run|
  {
    if run != [] {
      var n := |run| - 1;
      if run[n].PersistStarting? && run[n].process == p {
      } else {
        KnownWereRecorded(w, run[..n], p);
        if p !in w.known {
          var k :| 0 <= k < n && run[..n][k].PersistStarting? && run[..n][k].process == p;
          assert run[k] == run[..n][k];
        }
      }
    }
  }

  /** A stored record, ready or not, is of a process that a start recorded, or that an earlier incarnation left. */
  lemma RecordsWereStarted(w: World, run: seq<Action>, record: ProcessRecord)
    requires IsStart(w) && IsRun(w, run) && RecordIs(After(w, run).stored, record)
    ensures StoredProcess(w.stored) == Some(Of(record))
            || exists n :: 0 <= n < |run| && run[n].PersistStarting? && run[n].process == Of(record)
  {
    EveryRunIsSane(w, run);
    KnownWereRecorded(w, run, Of(record));
  }

  lemma {:induction false} LedgerOnlyGrows(w: World, run: seq<Action>, o: Spawned)
    requires !IsCurrent(w.ledger, o) && o.generation <= w.ledger.generation
    ensures !IsCurrent(After(w, run).ledger, o) && o.generation <= After(w, run).ledger.generation
    decreases |run|
  {
    if run != [] {
      LedgerOnlyGrows(w, run[..|run| - 1], o);
    }
  }

  /** An ownership that was lost stays lost, and whatever its late callbacks do leaves a newer child alone. */
  lemma OlderOwnershipsAreInert(w: World, run: seq<Action>, o: Spawned)
    requires !IsCurrent(w.ledger, o) && o.generation <= w.ledger.generation
    ensures var l := After(w, run).ledger; ClearedOf(l, o) == l && MarkedStopping(l, o) == l
  {
    LedgerOnlyGrows(w, run, o);
  }

  /** The exit callback of a child holds its starting record, so it leaves a ready record to a later inspection. */
  lemma ReadyRecordsOutliveTheExit(w: World, o: Spawned, record: ProcessRecord)
    requires RecordIs(w.stored, record) && record.phase.Ready?
    ensures RecordIs(Next(w, ChildExited(o, Some(Of(record)))).stored, record)
    ensures !Alive(w, Of(record)) ==> !RecordIs(Next(Next(w, Inspect(record)), ClearDead(record)).stored, record)
  {
  }

  lemma {:induction false} DeadStayDead(w: World, run: seq<Action>, p: Process)
    requires p in w.dead
    ensures p in After(w, run).dead
    decreases |run|
  {
    if run != [] {
      DeadStayDead(w, run[..|run| - 1], p);
    }
  }

  /** After a kill, or an inspection that found nothing, the record may be cleared whatever else ran meanwhile. */
  lemma ClearingFollows(w: World, more: seq<Action>, record: ProcessRecord)
    ensures Enabled(After(Next(w, Terminate(record)), more), ClearDead(record))
    ensures !Alive(w, Of(record)) ==> Enabled(After(Next(w, Inspect(record)), more), ClearDead(record))
  {
    DeadStayDead(Next(w, Terminate(record)), more, Of(record));
    if !Alive(w, Of(record)) {
      DeadStayDead(Next(w, Inspect(record)), more, Of(record));
    }
  }

  // ----- The parts of the state that the two classes hold

  function LedgerAfter(l: Ledger, run: seq<Action>): Ledger {
    if run == [] then l else NextLedger(LedgerAfter(l, run[..|run| - 1]), run[|run| - 1])
  }

  function StoredAfter(stored: Option<GatewayState>, run: seq<Action>): Option<GatewayState> {
    if run == [] then stored else NextStored(StoredAfter(stored, run[..|run| - 1]), run[|run| - 1])
  }

  /** The child and the stored state after a run are what the steps make of each of them alone. */
  lemma {:induction false} PartsFollow(w: World, run: seq<Action>)
    ensures After(w, run).ledger == LedgerAfter(w.ledger, run)
    ensures After(w, run).stored == StoredAfter(w.stored, run)
    decreases |run|
  {
    if run != [] {
      PartsFollow(w, run[..|run| - 1]);
    }
  }

  lemma {:induction false} LedgersRespect(l: Ledger, others: seq<Action>)
    ensures l.generation <= LedgerAfter(l, others).generation
    ensures LedgerAfter(l, others).generation == l.generation ==> LedgerAfter(l, others).process in {l.process, None}
    decreases |others|
  {
    if others != [] {
      LedgersRespect(l, others[..|others| - 1]);
    }
  }

  lemma OneMore(l: Ledger, run: seq<Action>, a: Action)
    ensures LedgerAfter(l, run + [a]) == NextLedger(LedgerAfter(l, run), a)
  {
    assert (run + [a])[..|run|] == run;
  }

  lemma {:induction false} StoppingHasAChild(run: seq<Action>)
    ensures LedgerAfter(START, run).process.None? ==> LedgerAfter(START, run).stopping.None?
    decreases |run|
  {
    if run != [] {
      StoppingHasAChild(run[..|run| - 1]);
    }
  }

  // ----- The classes

  /** One turn of the barrier: what it sees of the exit and the port, and what runs during its two awaits. */
  datatype Poll = Poll(exited: bool, portFree: bool, duringPort: seq<Action>, duringDelay: seq<Action>)

  /** The exit was seen and the port, if there is one, is free. */
  predicate Exited(poll: Poll, port: nat) {
    poll.exited && (port == 0 || poll.portFree)
  }

  function DuringPort(poll: Poll, port: nat): seq<Action> {
    if poll.exited && port != 0 then poll.duringPort else []
  }

  /** What others do during some turns. */
  function Others(polls: seq<Poll>, port: nat): seq<Action> {
    if polls == [] then []
    else Others(polls[..|polls| - 1], port) + DuringPort(polls[|polls| - 1], port) + polls[|polls| - 1].duringDelay
  }

  /** The ledger when the i-th turn has what it waited for. */
  function LedgerAt(l: Ledger, polls: seq<Poll>, i: nat, port: nat): Ledger
    requires i < |polls|
  {
    LedgerAfter(LedgerAfter(l, Others(polls[..i], port)), DuringPort(polls[i], port))
  }

  /** In some turn the exit is seen and the port free, and no other child was taken over until then. */
  ghost predicate Completes(l: Ledger, polls: seq<Poll>, port: nat) {
    exists i :: 0 <= i < |polls| && Exited(polls[i], port) && LedgerAt(l, polls, i, port).generation == l.generation
  }

  lemma {:induction false} LedgerSplits(l: Ledger, first: seq<Action>, rest: seq<Action>)
    ensures LedgerAfter(l, first + rest) == LedgerAfter(LedgerAfter(l, first), rest)
    decreases |rest|
  {
    if rest == [] {
      assert first + rest == first;
    } else {
      assert (first + rest)[..|first + rest| - 1] == first + rest[..|rest| - 1];
      LedgerSplits(l, first, rest[..|rest| - 1]);
    }
  }

  /** One more turn, of which all is heard. */
  lemma OneMoreTurn(l: Ledger, polls: seq<Poll>, i: nat, port: nat)
    requires i < |polls|
    ensures var p := polls[i];
            && Others(polls[..i + 1], port) == Others(polls[..i], port) + DuringPort(p, port) + p.duringDelay
            && LedgerAfter(l, Others(polls[..i + 1], port))
               == LedgerAfter(LedgerAt(l, polls, i, port), p.duringDelay)
  {
    assert polls[..i + 1][..i] == polls[..i];
    LedgerSplits(l, Others(polls[..i], port), DuringPort(polls[i], port));
    LedgerSplits(l, Others(polls[..i], port) + DuringPort(polls[i], port), polls[i].duringDelay);
  }

  lemma {:induction false} OthersGrow(polls: seq<Poll>, i: nat, port: nat)
    requires i <= |polls|
    ensures Others(polls[..i], port) <= Others(polls, port)
    ensures i < |polls| ==> Others(polls[..i], port) + DuringPort(polls[i], port) <= Others(polls, port)
    decreases |polls|
  {
    if i == |polls| {
      assert polls[..i] == polls;
    } else {
      var front := polls[..|polls| - 1];
      if i < |front| {
        assert front[..i] == polls[..i];
        OthersGrow(front, i, port);
      }
    }
  }

  /** Once another child was taken over, no later turn completes. */
  lemma MovedStaysMoved(l: Ledger, polls: seq<Poll>, i: nat, k: nat, port: nat)
    requires i <= k < |polls| && LedgerAfter(l, Others(polls[..i], port)).generation != l.generation
    ensures LedgerAt(l, polls, k, port).generation != l.generation
    decreases k - i
  {
    LedgersRespect(l, Others(polls[..i], port));
    if i == k {
      LedgersRespect(LedgerAfter(l, Others(polls[..i], port)), DuringPort(polls[i], port));
    } else {
      OneMoreTurn(l, polls, i, port);
      LedgersRespect(LedgerAfter(l, Others(polls[..i], port)), DuringPort(polls[i], port));
      LedgersRespect(LedgerAt(l, polls, i, port), polls[i].duringDelay);
      MovedStaysMoved(l, polls, i + 1, k, port);
    }
  }

  lemma MovedTurns(l: Ledger, polls: seq<Poll>, i: nat, port: nat)
    requires i < |polls| && LedgerAt(l, polls, i, port).generation != l.generation
    ensures forall k :: i <= k < |polls| ==> LedgerAt(l, polls, k, port).generation != l.generation
  {
    OneMoreTurn(l, polls, i, port);
    LedgersRespect(l, Others(polls[..i], port));
    LedgersRespect(LedgerAfter(l, Others(polls[..i], port)), DuringPort(polls[i], port));
    LedgersRespect(LedgerAt(l, polls, i, port), polls[i].duringDelay);
    hide LedgerAt;
    forall k | i < k < |polls| ensures LedgerAt(l, polls, k, port).generation != l.generation {
      MovedStaysMoved(l, polls, i + 1, k, port);
    }
  }

  /** None of the first turns completes. */
  ghost predicate NoneCompletes(l: Ledger, polls: seq<Poll>, n: nat, port: nat) {
    forall k :: 0 <= k < n && k < |polls| && Exited(polls[k], port) ==>
                  LedgerAt(l, polls, k, port).generation != l.generation
  }

  lemma NothingHeard(l: Ledger, polls: seq<Poll>, port: nat)
    ensures Others(polls[..0], port) == [] && LedgerAfter(l, []) == l && NoneCompletes(l, polls, 0, port)
  {
  }

  lemma TurnDecides(l: Ledger, polls: seq<Poll>, i: nat, port: nat, done: bool)
    requires i < |polls| && NoneCompletes(l, polls, i, port)
    requires done ==> Exited(polls[i], port) && LedgerAt(l, polls, i, port).generation == l.generation
    requires !done ==> LedgerAt(l, polls, i, port).generation != l.generation
    ensures Completes(l, polls, port) <==> done
  {
    if !done {
      MovedTurns(l, polls, i, port);
    }
    hide LedgerAt;
  }

  lemma NoTurnDecides(l: Ledger, polls: seq<Poll>, port: nat)
    requires polls != [] && NoneCompletes(l, polls, |polls| - 1, port) && !Exited(polls[|polls| - 1], port)
    ensures !Completes(l, polls, port)
  {
    hide LedgerAt;
  }

  /** The generation moves exactly when a child is spawned while none is owned. */
  lemma {:induction false} SpawnsMoveTheGeneration(l: Ledger, run: seq<Action>)
    ensures LedgerAfter(l, run).generation != l.generation
            <==> exists k :: 0 <= k < |run| && run[k].Spawn? && LedgerAfter(l, run[..k]).process.None?
    decreases |run|
  {
    if run != [] {
      var n := |run| - 1;
      SpawnsMoveTheGeneration(l, run[..n]);
      LedgersRespect(l, run[..n]);
      assert forall k :: 0 <= k < n ==> run[..n][k] == run[k] && run[..n][..k] == run[..k];
    }
  }

  class ManagedGatewayProcessLifecycle {
    var process: Option<Process>
    var generation: nat
    var stoppingGeneration: Option<nat>
    // The steps of the run that concern the child, in which the class took part or others did.
    ghost var log: seq<Action>

    function Now(): Ledger
      reads this
    {
      Ledger(process, generation, stoppingGeneration)
    }

    ghost predicate Valid()
      reads this
    {
      Now() == LedgerAfter(START, log)
    }

    constructor ()
      ensures Valid() && log == []
    {
      process, generation, stoppingGeneration, log := None, 0, None, [];
    }

    ghost method Made(a: Action, before: Ledger)
      requires before == LedgerAfter(START, log) && Now() == NextLedger(before, a)
      modifies this`log
      ensures Valid() && log == old(log) + [a]
    {
      OneMore(START, log, a);
      log := log + [a];
    }

    method Start(child: Process) returns (r: Result<Spawned>)
      requires Valid()
      modifies this
      ensures Valid()
      ensures r.Ok? <==> old(process).None?
      ensures r.Ok? ==> log == old(log) + [Action.Spawn(child)]
                        && r.value == Spawned(child, old(generation) + 1) && IsCurrent(Now(), r.value)
      ensures r.Ok? ==> Now() == Ledger(Some(child), old(generation) + 1, None)
      ensures r.Err? ==> log == old(log) && Now() == old(Now())
    {
      if process.Some? {
        return Err;
      }
      ghost var before := Now();
      generation := generation + 1;
      process := Some(child);
      stoppingGeneration := None;
      Made(Action.Spawn(child), before);
      return Ok(Spawned(child, generation));
    }

    method MarkStopping(ownership: Spawned)
      modifies this`stoppingGeneration
      ensures Now() == MarkedStopping(old(Now()), ownership)
      ensures stoppingGeneration == if IsCurrent(old(Now()), ownership) then Some(generation)
                                    else old(stoppingGeneration)
    {
      if generation == ownership.generation && process == Some(ownership.child) {
        stoppingGeneration := Some(ownership.generation);
      }
    }

    method Clear(ownership: Option<Spawned>) returns (cleared: bool)
      modifies this`process, this`stoppingGeneration
      ensures cleared <==> ownership.None? || IsCurrent(old(Now()), ownership.value)
      ensures Now() == if cleared then Ledger(None, old(generation), None) else old(Now())
    {
      if ownership.Some?
         && !(generation == ownership.value.generation && process == Some(ownership.value.child)) {
        return false;
      }
      process, stoppingGeneration := None, None;
      return true;
    }

    /** complete: the exit of a child was seen. */
    method Complete(ownership: Spawned)
      requires Valid()
      modifies this
      ensures Valid() && log == old(log) + [Action.Complete(ownership)]
      ensures IsCurrent(old(Now()), ownership) ==> process.None?
      ensures !IsCurrent(old(Now()), ownership) ==> Now() == old(Now())
    {
      ghost var before := Now();
      var _ := Clear(Some(ownership));
      Made(Action.Complete(ownership), before);
    }

    /** Stops the owned child: the kill goes to the child object, once, and leaves the ownership in place. */
    method Stop(exited: bool) returns (ownership: Option<Spawned>, killed: Option<Process>)
      requires Valid()
      modifies this
      ensures Valid()
      ensures ownership == if old(process).Some? then Some(Spawned(old(process).value, old(generation))) else None
      ensures killed == if old(process).Some? && !exited && old(stoppingGeneration) != Some(old(generation))
                        then old(process) else None
      ensures log == old(log)
                     + if old(process).None? || old(stoppingGeneration) == Some(old(generation)) then []
                       else [KillChild(ownership.value)]
      ensures Now() == if ownership.Some? then MarkedStopping(old(Now()), ownership.value) else old(Now())
      ensures process == old(process) && generation == old(generation)
      ensures stoppingGeneration == if process.Some? then Some(generation) else None
    {
      if process.None? {
        StoppingHasAChild(log);
        var _ := Clear(None);
        return None, None;
      }
      ghost var before := Now();
      var owned := Spawned(process.value, generation);
      var alreadyStopping := stoppingGeneration == Some(owned.generation);
      MarkStopping(owned);
      if alreadyStopping {
        return Some(owned), None;
      }
      Made(KillChild(owned), before);
      return Some(owned), if exited then None else Some(owned.child);
    }

    /** What others do to the child while one awaits. */
    method Interfere(others: seq<Action>)
      requires Valid()
      modifies this
      ensures Valid() && log == old(log) + others && Now() == LedgerAfter(old(Now()), others)
    {
      ghost var before := Now();
      for i := 0 to |others|
        invariant Valid() && log == old(log) + others[..i] && Now() == LedgerAfter(before, others[..i])
      {
        assert others[..i + 1] == others[..i] + [others[i]];
        OneMore(before, others[..i], others[i]);
        ghost var now := Now();
        match others[i] {
          case Spawn(child) =>
            if process.None? {
              process, generation, stoppingGeneration := Some(child), generation + 1, None;
            }
          case KillChild(o) => MarkStopping(o);
          case ChildExited(o, _) => var _ := Clear(Some(o));
          case Complete(o) => var _ := Clear(Some(o));
          case _ =>
        }
        Made(others[i], now);
      }
      assert others[..|others|] == others;
    }

    predicate CanComplete(ownership: Spawned)
      reads this
    {
      generation == ownership.generation && (process == Some(ownership.child) || process.None?)
    }

    /** What a turn saw of the port, if it had to look. */
    method Look(poll: Poll, port: nat) returns (ready: bool)
      requires Valid()
      modifies this
      ensures Valid() && log == old(log) + DuringPort(poll, port)
      ensures Now() == LedgerAfter(old(Now()), DuringPort(poll, port))
      ensures ready <==> Exited(poll, port)
    {
      ready := poll.exited;
      if ready && port != 0 {
        Interfere(poll.duringPort);
        ready := poll.portFree;
      }
    }

    /** One turn of the barrier, up to its delay: it completes the child, gives up for another one, or goes on. */
    method RunTurn(ownership: Spawned, poll: Poll, port: nat) returns (r: Option<bool>, ghost heard: seq<Action>)
      requires Valid() && Respects(ownership)
      modifies this
      ensures Valid() && Respects(ownership)
      ensures heard <= DuringPort(poll, port)
      ensures log == old(log) + heard + if r == Some(true) then [Action.Complete(ownership)] else []
      ensures var after := LedgerAfter(old(Now()), DuringPort(poll, port));
              && (r == Some(true) <==> Exited(poll, port) && after.generation == ownership.generation)
              && (r == Some(false) ==> after.generation != ownership.generation)
              && (r == None ==> !Exited(poll, port) && Now() == after && heard == DuringPort(poll, port))
      ensures r == Some(true) ==> heard == DuringPort(poll, port)
      ensures r == Some(true) ==> process.None? && generation == ownership.generation
    {
      LedgersRespect(Now(), DuringPort(poll, port));
      if !CanComplete(ownership) {
        return Some(false), [];
      }
      heard := DuringPort(poll, port);
      var ready := Look(poll, port);
      if !ready {
        return None, heard;
      }
      if !CanComplete(ownership) {
        return Some(false), heard;
      }
      Complete(ownership);
      return Some(true), heard;
    }

    /** Of the generation of this ownership there is its child, or none any more. */
    predicate Respects(ownership: Spawned)
      reads this
    {
      && generation >= ownership.generation
      && (generation == ownership.generation ==> process in {Some(ownership.child), None})
    }

    /**
     * waitForExitAndPort: succeeds exactly if in some turn the child has exited and the port is free, and no other
     * child was taken over until then; after that nothing is owned. Otherwise it changes nothing itself.
     */
    method WaitForExitAndPort(ownership: Spawned, port: nat, polls: seq<Poll>, last: Poll)
      returns (r: bool, ghost heard: seq<Action>)
      requires Valid() && CanComplete(ownership)
      modifies this
      ensures Valid() && Respects(ownership)
      ensures r <==> Completes(old(Now()), polls + [last], port)
      ensures heard <= Others(polls + [last], port)
      ensures log == old(log) + heard + if r then [Action.Complete(ownership)] else []
      ensures r ==> process.None? && generation == ownership.generation
    {
      hide LedgerAfter;
      hide Others;
      hide Completes;
      hide DuringPort;
      hide Exited;
      ghost var all, l, before := polls + [last], Now(), log;
      heard := [];
      NothingHeard(l, all, port);
      for i := 0 to |polls|
        invariant Valid() && Respects(ownership)
        invariant heard == Others(all[..i], port) && log == before + heard && Now() == LedgerAfter(l, heard)
        invariant NoneCompletes(l, all, i, port)
      {
        OthersGrow(all, i, port);
        var turn;
        ghost var part;
        turn, part := RunTurn(ownership, polls[i], port);
        heard := heard + part;
        if turn.Some? {
          TurnDecides(l, all, i, port, turn.value);
          return turn.value, heard;
        }
        LedgersRespect(Now(), polls[i].duringDelay);
        Interfere(polls[i].duringDelay);
        OneMoreTurn(l, all, i, port);
        heard := heard + polls[i].duringDelay;
      }
      OthersGrow(all, |polls|, port);
      var turn;
      ghost var part;
      turn, part := RunTurn(ownership, last, port);
      heard := heard + part;
      if turn.Some? {
        TurnDecides(l, all, |polls|, port, turn.value);
      } else {
        NoTurnDecides(l, all, port);
      }
      return turn == Some(true), heard;
    }

    /** The barrier before a replacement; false is the thrown timeout. */
    method StopForReplacement(exited: bool, port: nat, polls: seq<Poll>, last: Poll) returns (r: bool)
      requires Valid()
      modifies this
      ensures Valid()
      ensures r <==>
                || old(process).None?
                || Completes(MarkedStopping(old(Now()), Spawned(old(process).value, old(generation))),
                             polls + [last], port)
      ensures r ==> process.None? && generation == old(generation)
      ensures generation == old(generation) ==> process in {old(process), None}
      ensures generation >= old(generation)
    {
      var ownership, _ := Stop(exited);
      if ownership.None? {
        return true;
      }
      ghost var heard;
      r, heard := WaitForExitAndPort(ownership.value, port, polls, last);
    }
  }

  datatype Match = Present | Absent | Mismatch | Uncertain

  datatype Termination = Terminated | NotTheProcess | TimedOut | Inaccessible

  class ManagedGatewayPersistedProcess {
    const store: ManagedGatewayStateStore
    // The steps that the methods made.
    ghost var log: seq<Action>

    constructor (store: ManagedGatewayStateStore)
      ensures this.store == store && log == []
    {
      this.store, log := store, [];
    }

    /** Forgets exactly the expected record; an error is no step and leaves the stored state as it was. */
    method ClearOwnership(expected: ProcessRecord, renameFails: bool, fault: Fault) returns (r: Result<bool>)
      modifies this, store
      ensures r.Ok? ==> log == old(log) + [ClearDead(expected)]
                        && Effective(store.Files()) == NextStored(old(Effective(store.Files())), ClearDead(expected))
      ensures r.Ok? ==> r.value == RecordIs(old(Effective(store.Files())), expected)
      ensures r.Ok? <==> fault == Nothing || !RecordIs(old(Effective(store.Files())), expected)
      ensures var before := StateStore.Loaded(old(store.Files()), renameFails);
              store.Files() == if RecordIs(Effective(before), expected)
                               then Persisted(before, Effective(before).value.(process := None), fault) else before
      ensures r.Err? ==> log == old(log)
      ensures r.Err? && !renameFails ==> Effective(store.Files()) == old(Effective(store.Files()))
    {
      var current := store.Load(renameFails);
      if current.None? || current.value.process != Some(expected) {
        log := log + [ClearDead(expected)];
        return Ok(false);
      }
      var done := store.Persist(current.value.(process := None), fault);
      if done == Fail {
        return Err;
      }
      log := log + [ClearDead(expected)];
      return Ok(true);
    }

    /** persistStarting, with the birth that was captured for the ownership. */
    method PersistStarting(state: GatewayState, ownership: Spawned, identity: Process, fault: Fault)
      returns (r: Result<GatewayState>)
      modifies this, store
      ensures r.Ok? <==> fault == Nothing
      ensures store.Files() == Persisted(old(store.Files()), StartingState(state, identity), fault)
      ensures r.Ok? ==>
                r.value == state.(process := Some(ProcessRecord(identity.birth, Starting, identity.pid)))
      ensures r.Ok? ==> r.value == StartingState(state, identity) && Effective(store.Files()) == Some(r.value)
                        && log == old(log) + [Action.PersistStarting(ownership, identity, state)]
      ensures r.Err? ==> log == old(log)
    {
      var starting := state.(process := Some(ProcessRecord(identity.birth, Starting, identity.pid)));
      var done := store.Persist(starting, fault);
      if done == Fail {
        return Err;
      }
      log := log + [Action.PersistStarting(ownership, identity, state)];
      return Ok(starting);
    }

    method PromoteReady(state: GatewayState, authorization: Option<string>, renameFails: bool, fault: Fault)
      returns (r: Result<GatewayState>)
      modifies this, store
      ensures r.Ok? <==> Promoted(old(Effective(store.Files())), state, authorization).Ok? && fault == Nothing
      ensures r.Ok? ==>
                && state.process.Some?
                && r.value == state.(authorization := authorization,
                                     process := Some(ProcessRecord(state.process.value.startedAtTicks, Ready,
                                                                   state.process.value.processId)))
      ensures r.Ok? ==> log == old(log) + [Promote(state, authorization)]
                        && Effective(store.Files()) == Some(r.value)
                        && Effective(store.Files()) ==
                           NextStored(old(Effective(store.Files())), Promote(state, authorization))
      ensures r.Err? ==> log == old(log)
      ensures fault == Nothing && r.Err? ==> Effective(store.Files()) == old(Effective(store.Files()))
      ensures var promoted := Promoted(old(Effective(store.Files())), state, authorization);
              var before := StateStore.Loaded(old(store.Files()), renameFails);
              state.process.Some? ==>
                store.Files() == if promoted.Ok? then Persisted(before, promoted.value, fault) else before
    {
      if state.process.None? {
        return Err;
      }
      var current := store.Load(renameFails);
      if current.None? || current.value.process != state.process {
        return Err;
      }
      var ready := state.(authorization := authorization, process := Some(state.process.value.(phase := Ready)));
      var done := store.Persist(ready, fault);
      if done == Fail {
        return Err;
      }
      log := log + [Promote(state, authorization)];
      return Ok(ready);
    }

    /** The process id if exactly the recorded process is there; a record is dropped only when it surely is not. */
    method OwnedProcessId(state: GatewayState, found: Match, renameFails: bool, fault: Fault)
      returns (r: Option<nat>, ghost cleared: bool)
      modifies this, store
      ensures r == if state.process.Some? && found == Present then Some(state.process.value.processId) else None
      ensures log == old(log) + (if state.process.None? then [] else Inspection(state.process.value, found, cleared))
      ensures cleared <==>
                && state.process.Some? && found in {Absent, Mismatch}
                && (fault == Nothing || !RecordIs(old(Effective(store.Files())), state.process.value))
      ensures cleared ==> Effective(store.Files())
                          == NextStored(old(Effective(store.Files())), ClearDead(state.process.value))
      ensures !cleared && !renameFails ==> Effective(store.Files()) == old(Effective(store.Files()))
    {
      cleared := false;
      if state.process.None? {
        return None, false;
      }
      var record := state.process.value;
      log := log + [if found == Uncertain then InspectInDoubt(record) else Inspect(record)];
      if found == Present {
        return Some(record.processId), false;
      }
      if found == Absent || found == Mismatch {
        var done := ClearOwnership(record, renameFails, fault);
        cleared := done.Ok?;
      }
      return None, cleared;
    }

    /** Stops the recorded process; Fail is the stop error, after which the record is still there. */
    method Stop(state: GatewayState, result: Termination, portFree: bool, lifecycle: ManagedGatewayProcessLifecycle,
                renameFails: bool, fault: Fault)
      returns (r: Outcome, ghost cleared: bool)
      requires lifecycle.Valid() && lifecycle as object != store as object && lifecycle as object != this as object
      modifies this, store, lifecycle
      ensures lifecycle.Valid()
      ensures cleared <==>
                && state.process.Some? && (result == NotTheProcess || (result == Terminated && portFree))
                && (fault == Nothing || !RecordIs(old(Effective(store.Files())), state.process.value))
      ensures r == Pass <==>
                || state.process.None? || result == NotTheProcess
                || (result == Terminated && portFree && cleared)
      ensures log == old(log) + (if state.process.None? then [] else Stopping(state.process.value, result, cleared))
      ensures cleared ==> Effective(store.Files())
                          == NextStored(old(Effective(store.Files())), ClearDead(state.process.value))
      ensures !cleared && !renameFails ==> Effective(store.Files()) == old(Effective(store.Files()))
      ensures var local := old(lifecycle.process);
              var completed := && r == Pass && state.process.Some? && result == Terminated && local.Some?
                               && local.value.pid == state.process.value.processId;
              && (completed ==> lifecycle.process.None?)
              && lifecycle.log == old(lifecycle.log)
                 + if completed then [Action.Complete(Spawned(local.value, old(lifecycle.generation)))] else []
    {
      cleared := false;
      if state.process.None? {
        return Pass, false;
      }
      var record := state.process.value;
      if result == NotTheProcess {
        log := log + [Terminate(record)];
        var done := ClearOwnership(record, renameFails, fault);
        cleared := done.Ok?;
        return Pass, cleared;
      }
      if result != Terminated {
        return Fail, false;
      }
      log := log + [Terminate(record)];
      if !portFree {
        return Fail, false;
      }
      var done := ClearOwnership(record, renameFails, fault);
      if done.Err? {
        return Fail, false;
      }
      cleared := true;
      if lifecycle.process.Some? && lifecycle.process.value.pid == record.processId {
        lifecycle.Complete(Spawned(lifecycle.process.value, lifecycle.generation));
      }
      return Pass, true;
    }
  }

  /** The steps of an inspection that may clear the record. */
  function Inspection(record: ProcessRecord, found: Match, cleared: bool): seq<Action> {
    [if found == Uncertain then InspectInDoubt(record) else Inspect(record)]
    + (if cleared then [ClearDead(record)] else [])
  }

  /** The steps of a stop: nothing is known when the termination timed out or was refused. */
  function Stopping(record: ProcessRecord, result: Termination, cleared: bool): seq<Action> {
    (if result == Terminated || result == NotTheProcess then [Terminate(record)] else [])
    + (if cleared then [ClearDead(record)] else [])
  }

  /** An inspection that really found nothing may clear the record, whatever else runs during the awaits. */
  lemma InspectionIsARun(w: World, more: seq<Action>, record: ProcessRecord, found: Match)
    requires record in w.held && found in {Absent, Mismatch} && !Alive(w, Of(record))
    requires IsRun(Next(w, Inspect(record)), more)
    ensures var steps := Inspection(record, found, true);
            && IsRun(w, [steps[0]] + more) && Enabled(After(w, [steps[0]] + more), steps[1])
  {
    ClearingFollows(w, more, record);
    RunFirst(w, Inspect(record), more, [Inspect(record)] + more);
  }

  /** A stop, of a process alive or gone, may clear the record, whatever else runs; the process is gone by then. */
  lemma StopIsARun(w: World, more: seq<Action>, record: ProcessRecord, result: Termination)
    requires record in w.held && result in {Terminated, NotTheProcess}
    requires IsRun(Next(w, Terminate(record)), more)
    ensures var steps := Stopping(record, result, true);
            && IsRun(w, [steps[0]] + more) && Enabled(After(w, [steps[0]] + more), steps[1])
            && Of(record) in After(w, [steps[0]] + more).dead
  {
    ClearingFollows(w, more, record);
    RunFirst(w, Terminate(record), more, [Terminate(record)] + more);
  }
}
