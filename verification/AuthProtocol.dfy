/**
 * The OAuth directory and the phase-marker protocol that replaces the account in it.
 *
 * A process may die between any two file steps. What survives is a Disk, so a run of the protocol,
 * crashes included, is a sequence of file steps: the steps some process managed to perform, followed
 * by those of the process that recovered, and so on.
 */
module AuthProtocol {
  import opened Common

  datatype Phase = Active | Committed | Discarding | Preparing | Restoring | RestoringKeep

  /** `unknown` says the directory holds anything but markers and artifacts, or is not a real directory. */
  datatype TransactionDirectory =
    TransactionDirectory(markers: set<Phase>, artifacts: map<Name, Content>, unknown: bool)

  datatype Disk = Disk(candidates: map<Name, Content>, transactions: map<Name, TransactionDirectory>)

  /** The single phase a directory is in; one without a marker comes from an older build and was active. */
  function MarkedPhase(markers: set<Phase>): Option<Phase> {
    if markers == {} then Some(Active)
    else if markers == {Active} then Some(Active)
    else if markers == {Committed} then Some(Committed)
    else if markers == {Discarding} then Some(Discarding)
    else if markers == {Preparing} then Some(Preparing)
    else if markers == {Restoring} then Some(Restoring)
    else if markers == {RestoringKeep} then Some(RestoringKeep)
    else None
  }

  function PhaseOf(t: TransactionDirectory): Option<Phase> {
    MarkedPhase(t.markers)
  }

  function Parsed(t: TransactionDirectory): Option<Phase> {
    if t.unknown then None else PhaseOf(t)
  }

  predicate WellFormed(d: Disk) {
    forall n :: n in d.transactions ==> Parsed(d.transactions[n]).Some?
  }

  function Pending(d: Disk): set<Name> {
    set n | n in d.transactions && PhaseOf(d.transactions[n]) != Some(Committed)
  }

  ghost predicate Single(d: Disk) {
    forall m, n :: m in Pending(d) && n in Pending(d) ==> m == n
  }

  ghost predicate Safe(d: Disk) {
    WellFormed(d) && Single(d)
  }

  /** What recovering `t` leaves, given the candidate files now in place. */
  ghost function AccountBehind(candidates: map<Name, Content>, t: TransactionDirectory): multiset<Content> {
    if PhaseOf(t) == Some(Active) || PhaseOf(t) == Some(Discarding) then
      Contents(t.artifacts)
    else
      Contents(candidates) + Contents(t.artifacts)
  }

  /** The account a disk stands for: the credentials that are there once every transaction is resolved. */
  ghost function Account(d: Disk): multiset<Content>
    requires Single(d)
  {
    if Pending(d) == {} then Contents(d.candidates) else
      var n :| n in Pending(d);
      AccountBehind(d.candidates, d.transactions[n])
  }

  /** One atomic file operation. `Write` is another process replacing the candidate files. */
  datatype FileStep =
    | MakeDirectory(tx: Name)
    | WriteMarker(tx: Name, phase: Phase)
    | RenameMarker(tx: Name, phase: Phase, next: Phase)
    | Quarantine(tx: Name, from: Name, to: Name)
    | Return(tx: Name, from: Name, to: Name)
    | RemoveCandidate(from: Name)
    | RemoveDirectory(tx: Name)
    | Write(files: map<Name, Content>)

  /** The files an operation needs are there. */
  predicate Enabled(d: Disk, s: FileStep) {
    match s
    case MakeDirectory(tx) => tx !in d.transactions
    case WriteMarker(tx, _) => tx in d.transactions
    case RenameMarker(tx, phase, _) => tx in d.transactions && phase in d.transactions[tx].markers
    case Quarantine(tx, from, to) =>
      tx in d.transactions && from in d.candidates && to !in d.transactions[tx].artifacts
    case Return(tx, from, to) =>
      tx in d.transactions && from in d.transactions[tx].artifacts && to !in d.candidates
    case RemoveCandidate(from) => true
    case RemoveDirectory(tx) => true
    case Write(_) => true
  }

  function Effect(d: Disk, s: FileStep): Disk
    requires Enabled(d, s)
  {
    match s
    case MakeDirectory(tx) =>
      d.(transactions := d.transactions[tx := TransactionDirectory({Preparing}, map[], false)])
    case WriteMarker(tx, phase) =>
      var t := d.transactions[tx];
      d.(transactions := d.transactions[tx := t.(markers := t.markers + {phase})])
    case RenameMarker(tx, phase, next) =>
      var t := d.transactions[tx];
      d.(transactions := d.transactions[tx := t.(markers := t.markers - {phase} + {next})])
    case Quarantine(tx, from, to) =>
      var t := d.transactions[tx];
      Disk(d.candidates - {from},
           d.transactions[tx := t.(artifacts := t.artifacts[to := d.candidates[from]])])
    case Return(tx, from, to) =>
      var t := d.transactions[tx];
      Disk(d.candidates[to := t.artifacts[from]],
           d.transactions[tx := t.(artifacts := t.artifacts - {from})])
    case RemoveCandidate(from) => d.(candidates := d.candidates - {from})
    case RemoveDirectory(tx) => d.(transactions := d.transactions - {tx})
    case Write(files) => d.(candidates := files)
  }

  predicate LegalMarker(phase: Phase, next: Phase, candidates: map<Name, Content>) {
    match (phase, next)
    case (Preparing, Active) => candidates == map[]
    case (Preparing, RestoringKeep) => true
    case (Active, Discarding) => true
    case (Active, Committed) => true
    case (Discarding, Restoring) => candidates == map[]
    case _ => false
  }

  predicate Handing(t: TransactionDirectory) {
    PhaseOf(t) == Some(Preparing) || PhaseOf(t) == Some(Restoring) || PhaseOf(t) == Some(RestoringKeep)
  }

  /** The protocol: when each file operation may happen. */
  ghost predicate Legal(d: Disk, s: FileStep) {
    Enabled(d, s) &&
    match s
    case MakeDirectory(tx) => Pending(d) == {}
    case WriteMarker(tx, phase) => d.transactions[tx].markers == {} && phase == Discarding
    case RenameMarker(tx, phase, next) =>
      PhaseOf(d.transactions[tx]) == Some(phase) && LegalMarker(phase, next, d.candidates)
    case Quarantine(tx, _, _) => PhaseOf(d.transactions[tx]) == Some(Preparing)
    case Return(tx, _, _) => Handing(d.transactions[tx])
    case RemoveCandidate(_) => exists n :: n in d.transactions && PhaseOf(d.transactions[n]) == Some(Discarding)
    case RemoveDirectory(tx) =>
      tx in d.transactions &&
      (PhaseOf(d.transactions[tx]) == Some(Committed)
       || (Handing(d.transactions[tx]) && d.transactions[tx].artifacts == map[]))
    case Write(_) => Writable(d)
  }

  /** Another process touches the credentials only between transactions or during a login. */
  ghost predicate Writable(d: Disk) {
    Pending(d) == {} || exists n :: n in Pending(d) && PhaseOf(d.transactions[n]) == Some(Active)
  }

  predicate IsCommit(s: FileStep) {
    s.RenameMarker? && s.next == Committed
  }

  /** Steps that cannot change which account the disk stands for. */
  predicate Quiet(s: FileStep) {
    !IsCommit(s) && !s.Write?
  }

  ghost predicate Kept(before: Disk, after: Disk) {
    Safe(before) ==> Safe(after) && Account(after) == Account(before)
  }

  lemma AccountIs(d: Disk, n: Name)
    requires Single(d) && n in Pending(d)
    ensures Account(d) == AccountBehind(d.candidates, d.transactions[n])
  {
  }

  /** A step inside the one uncommitted directory keeps the account if the directory's share stays the same. */
  lemma StepInside(d: Disk, e: Disk, tx: Name, u: TransactionDirectory)
    requires Safe(d) && tx in Pending(d)
    requires e == Disk(e.candidates, d.transactions[tx := u])
    requires Parsed(u).Some? && PhaseOf(u) != Some(Committed)
    requires AccountBehind(e.candidates, u) == AccountBehind(d.candidates, d.transactions[tx])
    ensures Safe(e) && Account(e) == Account(d)
  {
    assert Pending(e) == Pending(d);
    AccountIs(d, tx);
    AccountIs(e, tx);
  }

  lemma NextMarker(markers: set<Phase>, phase: Phase, next: Phase)
    requires MarkedPhase(markers) == Some(phase) && phase in markers
    ensures MarkedPhase(markers - {phase} + {next}) == Some(next)
  {
    assert markers - {phase} + {next} == {next};
  }

  lemma MarkerKeepsAccount(d: Disk, tx: Name, next: TransactionDirectory, phase: Phase)
    requires Safe(d) && tx in Pending(d)
    requires next.artifacts == d.transactions[tx].artifacts && !next.unknown && PhaseOf(next) == Some(phase)
    requires match PhaseOf(d.transactions[tx])
             case Some(Active) => phase == Discarding
             case Some(Preparing) => phase == RestoringKeep || (phase == Active && d.candidates == map[])
             case Some(Discarding) => phase == Restoring && d.candidates == map[]
             case _ => false
    ensures Kept(d, d.(transactions := d.transactions[tx := next]))
  {
    var t := d.transactions[tx];
    assert d.candidates == map[] ==> Contents(d.candidates) + Contents(t.artifacts) == Contents(t.artifacts);
    StepInside(d, d.(transactions := d.transactions[tx := next]), tx, next);
  }

  lemma RenameKeepsAccount(d: Disk, tx: Name, phase: Phase, next: Phase)
    requires Safe(d) && Legal(d, RenameMarker(tx, phase, next)) && next != Committed
    ensures Kept(d, Effect(d, RenameMarker(tx, phase, next)))
  {
    NextMarker(d.transactions[tx].markers, phase, next);
    MarkerKeepsAccount(d, tx, Effect(d, RenameMarker(tx, phase, next)).transactions[tx], next);
  }

  lemma WriteKeepsAccount(d: Disk, tx: Name)
    requires Safe(d) && Legal(d, WriteMarker(tx, Discarding))
    ensures Kept(d, Effect(d, WriteMarker(tx, Discarding)))
  {
    assert d.transactions[tx].markers + {Discarding} == {Discarding};
    MarkerKeepsAccount(d, tx, Effect(d, WriteMarker(tx, Discarding)).transactions[tx], Discarding);
  }

  /** Moving one file between the candidates and a directory that is handing files over. */
  lemma MoveInside(d: Disk, tx: Name, candidates: map<Name, Content>, artifacts: map<Name, Content>)
    requires Safe(d) && tx in d.transactions && Handing(d.transactions[tx])
    requires Contents(candidates) + Contents(artifacts)
          == Contents(d.candidates) + Contents(d.transactions[tx].artifacts)
    ensures Kept(d, Disk(candidates, d.transactions[tx := d.transactions[tx].(artifacts := artifacts)]))
  {
    hide Contents;
    var t := d.transactions[tx];
    var u := t.(artifacts := artifacts);
    assert PhaseOf(u) == PhaseOf(t);
    assert AccountBehind(candidates, u) == AccountBehind(d.candidates, t);
    StepInside(d, Disk(candidates, d.transactions[tx := u]), tx, u);
  }

  lemma QuarantineKeepsAccount(d: Disk, tx: Name, from: Name, to: Name)
    requires Safe(d) && Legal(d, Quarantine(tx, from, to))
    ensures Kept(d, Effect(d, Quarantine(tx, from, to)))
  {
    var artifacts := d.transactions[tx].artifacts;
    MovedContents(d.candidates, artifacts, from, to);
    MoveInside(d, tx, d.candidates - {from}, artifacts[to := d.candidates[from]]);
  }

  lemma ReturnKeepsAccount(d: Disk, tx: Name, from: Name, to: Name)
    requires Safe(d) && Legal(d, Return(tx, from, to))
    ensures Kept(d, Effect(d, Return(tx, from, to)))
  {
    var artifacts := d.transactions[tx].artifacts;
    MovedContents(artifacts, d.candidates, from, to);
    MoveInside(d, tx, d.candidates[to := artifacts[from]], artifacts - {from});
  }

  lemma RemovalKeepsAccount(d: Disk, s: FileStep)
    requires Safe(d) && Legal(d, s) && s.RemoveDirectory?
    ensures Kept(d, Effect(d, s))
  {
    var e, tx := Effect(d, s), s.tx;
    if PhaseOf(d.transactions[tx]) == Some(Committed) {
      assert Pending(e) == Pending(d);
      if n :| n in Pending(d) {
        AccountIs(d, n);
        AccountIs(e, n);
      }
    } else {
      assert tx in Pending(d);
      assert Pending(e) == Pending(d) - {tx} == {};
      AccountIs(d, tx);
    }
  }

  lemma MakingKeepsAccount(d: Disk, tx: Name)
    requires Safe(d) && Legal(d, MakeDirectory(tx))
    ensures Kept(d, Effect(d, MakeDirectory(tx)))
  {
    var e := Effect(d, MakeDirectory(tx));
    assert Pending(e) == {tx};
    AccountIs(e, tx);
  }

  lemma CandidateKeepsAccount(d: Disk, from: Name)
    requires Safe(d) && Legal(d, RemoveCandidate(from))
    ensures Kept(d, Effect(d, RemoveCandidate(from)))
  {
    var e := Effect(d, RemoveCandidate(from));
    var n :| n in d.transactions && PhaseOf(d.transactions[n]) == Some(Discarding);
    assert Pending(e) == Pending(d);
    AccountIs(d, n);
    AccountIs(e, n);
  }

  /** No legal file step but the commit, or a write by the account's own process, changes the account. */
  lemma StepKeepsAccount(d: Disk, s: FileStep)
    requires Legal(d, s)
    requires Quiet(s)
    ensures Kept(d, Effect(d, s))
  {
    hide Account;
    if Safe(d) {
      match s
      case MakeDirectory(tx) => MakingKeepsAccount(d, tx);
      case RemoveCandidate(from) => CandidateKeepsAccount(d, from);
      case RemoveDirectory(_) => RemovalKeepsAccount(d, s);
      case Quarantine(tx, from, to) => QuarantineKeepsAccount(d, tx, from, to);
      case Return(tx, from, to) => ReturnKeepsAccount(d, tx, from, to);
      case WriteMarker(tx, _) => WriteKeepsAccount(d, tx);
      case RenameMarker(tx, phase, next) => RenameKeepsAccount(d, tx, phase, next);
    }
  }

  /** A run: every step is legal where it happens. A crash adds no step; recovery continues the same run. */
  ghost predicate IsRun(d: Disk, steps: seq<FileStep>)
    decreases |steps|, 0
  {
    steps == [] ||
    (IsRun(d, steps[..|steps| - 1]) && Legal(After(d, steps[..|steps| - 1]), steps[|steps| - 1]))
  }

  ghost function After(d: Disk, steps: seq<FileStep>): Disk
    requires IsRun(d, steps)
    decreases |steps|, 1
  {
    if steps == [] then d else Effect(After(d, steps[..|steps| - 1]), steps[|steps| - 1])
  }

  lemma RunExtends(d: Disk, steps: seq<FileStep>, s: FileStep)
    requires IsRun(d, steps) && Legal(After(d, steps), s)
    ensures IsRun(d, steps + [s]) && After(d, steps + [s]) == Effect(After(d, steps), s)
  {
    assert (steps + [s])[..|steps|] == steps;
  }

  /**
   * What really happened, beside what the disk shows: the account last committed (or refreshed by its
   * own gateway between transactions), and what the login under way has written so far.
   */
  datatype Story = Story(disk: Disk, committed: multiset<Content>, written: multiset<Content>)

  /** The steps after which another account is the committed one. */
  predicate Decides(d: Disk, s: FileStep) {
    IsCommit(s) || (s.Write? && Pending(d) == {})
  }

  ghost function Tell(story: Story, s: FileStep): Story
    requires Legal(story.disk, s)
  {
    Story(Effect(story.disk, s),
          if IsCommit(s) then story.written
          else if Decides(story.disk, s) then Contents(s.files)
          else story.committed,
          if s.RenameMarker? && s.next == Active then multiset{}
          else if s.Write? then Contents(s.files)
          else story.written)
  }

  ghost function Told(story: Story, steps: seq<FileStep>): (r: Story)
    requires IsRun(story.disk, steps)
    ensures r.disk == After(story.disk, steps)
  {
    if steps == [] then story else Tell(Told(story, steps[..|steps| - 1]), steps[|steps| - 1])
  }

  ghost predicate Truthful(story: Story) {
    && Safe(story.disk)
    && Account(story.disk) == story.committed
    && (forall n :: n in Pending(story.disk) && PhaseOf(story.disk.transactions[n]) == Some(Active)
                    ==> Contents(story.disk.candidates) == story.written)
  }

  /** The commit makes the visible files the account, whatever they are. */
  lemma CommitSwitches(d: Disk, tx: Name)
    requires Safe(d) && Legal(d, RenameMarker(tx, Active, Committed))
    ensures var e := Effect(d, RenameMarker(tx, Active, Committed));
            Safe(e) && Pending(e) == {} && PhaseOf(e.transactions[tx]) == Some(Committed)
  {
    var e := Effect(d, RenameMarker(tx, Active, Committed));
    NextMarker(d.transactions[tx].markers, Active, Committed);
    assert tx in Pending(d);
    assert Pending(e) == Pending(d) - {tx} == {};
  }

  lemma CommitIsTruthful(story: Story, tx: Name)
    requires Truthful(story) && Legal(story.disk, RenameMarker(tx, Active, Committed))
    ensures Truthful(Tell(story, RenameMarker(tx, Active, Committed)))
  {
    CommitSwitches(story.disk, tx);
    assert tx in Pending(story.disk);
  }

  lemma WriteIsTruthful(story: Story, files: map<Name, Content>)
    requires Truthful(story) && Legal(story.disk, Write(files))
    ensures Truthful(Tell(story, Write(files)))
  {
    var d, e := story.disk, Effect(story.disk, Write(files));
    assert Pending(e) == Pending(d);
    if n :| n in Pending(d) {
      AccountIs(d, n);
      AccountIs(e, n);
    }
  }

  /** While a directory is active, the protocol itself moves no candidate. */
  lemma MovesOutsideActive(d: Disk, s: FileStep)
    requires Safe(d) && Legal(d, s) && (s.Quarantine? || s.Return? || s.RemoveCandidate?)
    ensures forall n :: n in Pending(Effect(d, s)) ==> PhaseOf(Effect(d, s).transactions[n]) != Some(Active)
  {
    var e := Effect(d, s);
    var m := if s.RemoveCandidate? then
      var m :| m in d.transactions && PhaseOf(d.transactions[m]) == Some(Discarding); m else s.tx;
    assert m in Pending(d);
    forall n | n in Pending(e)
      ensures PhaseOf(e.transactions[n]) != Some(Active)
    {
      assert n in Pending(d);
    }
  }

  lemma MarkerIsTruthful(story: Story, tx: Name, phase: Phase, next: Phase)
    requires Truthful(story) && Legal(story.disk, RenameMarker(tx, phase, next)) && next != Committed
    ensures Truthful(Tell(story, RenameMarker(tx, phase, next)))
  {
    var d, e := story.disk, Effect(story.disk, RenameMarker(tx, phase, next));
    RenameKeepsAccount(d, tx, phase, next);
    NextMarker(d.transactions[tx].markers, phase, next);
    assert tx in Pending(d) && tx in Pending(e);
  }

  lemma QuietIsTruthful(story: Story, s: FileStep)
    requires Truthful(story) && Legal(story.disk, s) && Quiet(s)
    ensures Truthful(Tell(story, s))
  {
    hide Contents;
    hide Account;
    var d, e := story.disk, Effect(story.disk, s);
    StepKeepsAccount(d, s);
    match s
    case RenameMarker(tx, phase, next) => MarkerIsTruthful(story, tx, phase, next);
    case WriteMarker(tx, phase) =>
      assert d.transactions[tx].markers + {phase} == {Discarding};
      assert tx in Pending(d) && Pending(e) == Pending(d);
    case MakeDirectory(tx) => assert Pending(e) == {tx};
    case RemoveDirectory(_) => assert Pending(e) <= Pending(d);
    case _ => MovesOutsideActive(d, s);
  }

  /** In every reachable state, crashed or not, the disk stands for the account that was last committed. */
  lemma {:induction false} EveryRunIsTruthful(story: Story, steps: seq<FileStep>)
    requires Truthful(story) && IsRun(story.disk, steps)
    ensures Truthful(Told(story, steps))
    decreases |steps|
  {
    if steps != [] {
      var front, s := steps[..|steps| - 1], steps[|steps| - 1];
      EveryRunIsTruthful(story, front);
      var before := Told(story, front);
      if s.Write? {
        WriteIsTruthful(before, s.files);
      } else if IsCommit(s) {
        CommitIsTruthful(before, s.tx);
      } else {
        QuietIsTruthful(before, s);
      }
    }
  }

  ghost predicate Undecided(d: Disk, steps: seq<FileStep>, from: nat)
    requires IsRun(d, steps)
  {
    forall i {:trigger steps[i]} :: from <= i < |steps| ==>
      IsRun(d, steps[..i]) && !Decides(After(d, steps[..i]), steps[i])
  }

  lemma {:induction false} PrefixIsRun(d: Disk, steps: seq<FileStep>, k: nat)
    requires IsRun(d, steps) && k <= |steps|
    ensures IsRun(d, steps[..k])
    decreases |steps|
  {
    if k < |steps| {
      PrefixIsRun(d, steps[..|steps| - 1], k);
      assert steps[..|steps| - 1][..k] == steps[..k];
    } else {
      assert steps[..k] == steps;
    }
  }

  lemma {:induction false} UndecidedKeepsCommitted(story: Story, steps: seq<FileStep>, from: nat)
    requires IsRun(story.disk, steps) && from <= |steps|
    requires Undecided(story.disk, steps, from)
    requires IsRun(story.disk, steps[..from])
    ensures Told(story, steps).committed == Told(story, steps[..from]).committed
    decreases |steps|
  {
    if from == |steps| {
      assert steps[..from] == steps;
    } else {
      var front := steps[..|steps| - 1];
      assert front[..from] == steps[..from];
      assert forall i :: 0 <= i < |front| ==> front[i] == steps[i] && front[..i] == steps[..i];
      UndecidedKeepsCommitted(story, front, from);
      assert !Decides(After(story.disk, steps[..|steps| - 1]), steps[|steps| - 1]);
    }
  }

  /**
   * The guarantee over every run with any number of crashes, in recovery too: once no uncommitted
   * directory is left, the credentials are exactly the ones the last committed login wrote, or, when no
   * login was committed, exactly the ones there at the start.
   */
  lemma RecoveredAccount(story: Story, steps: seq<FileStep>)
    requires Truthful(story) && IsRun(story.disk, steps)
    requires Pending(After(story.disk, steps)) == {}
    ensures Undecided(story.disk, steps, 0)
            ==> Contents(After(story.disk, steps).candidates) == Account(story.disk)
    ensures forall k {:trigger steps[k]} ::
              0 <= k < |steps| && IsCommit(steps[k]) && Undecided(story.disk, steps, k + 1)
              ==> IsRun(story.disk, steps[..k])
                  && Contents(After(story.disk, steps).candidates) == Told(story, steps[..k]).written
  {
    EveryRunIsTruthful(story, steps);
    if Undecided(story.disk, steps, 0) {
      assert steps[..0] == [];
      UndecidedKeepsCommitted(story, steps, 0);
    }
    forall k {:trigger steps[k]} |
      0 <= k < |steps| && IsCommit(steps[k]) && Undecided(story.disk, steps, k + 1)
      ensures IsRun(story.disk, steps[..k])
              && Contents(After(story.disk, steps).candidates) == Told(story, steps[..k]).written
    {
      PrefixIsRun(story.disk, steps, k);
      PrefixIsRun(story.disk, steps, k + 1);
      assert steps[..k + 1][..k] == steps[..k];
      UndecidedKeepsCommitted(story, steps, k + 1);
    }
  }

  /**
   * What a reader sees in every reachable state. With nothing uncommitted the visible files are the
   * committed account; while a login is active they are only what that login wrote, and the committed
   * account is wholly in quarantine. They are never a mix of the two.
   */
  lemma VisibleAccount(story: Story, steps: seq<FileStep>)
    requires Truthful(story) && IsRun(story.disk, steps)
    ensures var now := Told(story, steps);
            && (Pending(now.disk) == {} ==> Contents(now.disk.candidates) == now.committed)
            && (forall n :: n in Pending(now.disk) && PhaseOf(now.disk.transactions[n]) == Some(Active) ==>
                  Contents(now.disk.candidates) == now.written
                  && Contents(now.disk.transactions[n].artifacts) == now.committed)
  {
    EveryRunIsTruthful(story, steps);
    var now := Told(story, steps);
    forall n | n in Pending(now.disk) && PhaseOf(now.disk.transactions[n]) == Some(Active)
      ensures Contents(now.disk.transactions[n].artifacts) == now.committed
    {
      AccountIs(now.disk, n);
    }
  }

  /** What hasPending asks for: nothing uncommitted, or only the inspected directory, with its active marker. */
  ghost predicate Trusted(d: Disk, inspected: Option<Name>) {
    && WellFormed(d)
    && if inspected.None? then Pending(d) == {}
       else Pending(d) == {inspected.value} && d.transactions[inspected.value].markers == {Active}
  }

  /**
   * In every reachable state that a reader may trust, the candidate files are exactly the committed account,
   * or, for the reader that inspects the live login, exactly what that login wrote.
   */
  lemma TrustedCandidates(story: Story, steps: seq<FileStep>, inspected: Option<Name>)
    requires Truthful(story) && IsRun(story.disk, steps) && Trusted(After(story.disk, steps), inspected)
    ensures Contents(After(story.disk, steps).candidates)
         == if inspected.None? then Told(story, steps).committed else Told(story, steps).written
  {
    VisibleAccount(story, steps);
    if inspected.Some? {
      ActiveIsActive(After(story.disk, steps).transactions[inspected.value]);
    }
    hide Contents;
    hide Told;
    hide IsRun;
    hide After;
  }

  lemma ActiveIsActive(t: TransactionDirectory)
    requires t.markers == {Active}
    ensures PhaseOf(t) == Some(Active)
  {
  }

  /**
   * Creating the directory and its first marker must be one step: a crash between the two leaves a
   * directory without a marker, which is read as active, so recovery would discard the account.
   */
  lemma DirectoryWithoutMarkerLosesAccount()
    ensures var d := Disk(map[0 := "old"], map[]);
            var split := Disk(map[0 := "old"], map[0 := TransactionDirectory({}, map[], false)]);
            Safe(d) && Safe(split) && Account(d) == multiset{"old"} && Account(split) == multiset{}
  {
    var split := Disk(map[0 := "old"], map[0 := TransactionDirectory({}, map[], false)]);
    assert Pending(split) == {0};
    AccountIs(split, 0);
    OneFile("old");
  }

  /** Likewise a committed directory must go in one step: without its marker the replaced account would return. */
  lemma CommittedWithoutMarkerRevivesAccount()
    ensures var d := Disk(map[0 := "new"], map[0 := TransactionDirectory({Committed}, map[0 := "old"], false)]);
            var split := Disk(map[0 := "new"], map[0 := TransactionDirectory({}, map[0 := "old"], false)]);
            Safe(d) && Safe(split) && Account(d) == multiset{"new"} && Account(split) == multiset{"old"}
  {
    var split := Disk(map[0 := "new"], map[0 := TransactionDirectory({}, map[0 := "old"], false)]);
    assert Pending(split) == {0};
    AccountIs(split, 0);
    OneFile("old");
    OneFile("new");
  }

  lemma OneFile(content: Content)
    ensures Contents(map[0 := content]) == multiset{content}
  {
    ContentsWithout(map[0 := content], 0);
    assert map[0 := content] - {0} == map[];
  }
}
