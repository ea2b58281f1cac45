/**
 * The transaction object that replaces the OAuth account, and the login and logout that use it.
 * Every file operation goes through AuthDirectory.Perform, which records it: the recorded steps form
 * a legal run of AuthProtocol, so a crash after any of them is a state that module speaks about.
 */
module AuthTransaction {
  import opened Common
  import opened AuthProtocol

  class AuthDirectory {
    var disk: Disk
    /** Whether the directory passes the ownership inspection; its own check is not part of the protocol. */
    const owned: bool
    ghost const origin: Disk
    ghost var log: seq<FileStep>

    constructor (disk: Disk, owned: bool)
      ensures Valid() && this.disk == disk && this.owned == owned && origin == disk && log == []
    {
      this.disk := disk;
      this.owned := owned;
      origin := disk;
      log := [];
    }

    ghost predicate Valid()
      reads this
    {
      IsRun(origin, log) && After(origin, log) == disk
    }

    method Perform(step: FileStep)
      requires Enabled(disk, step)
      modifies this
      ensures disk == Effect(old(disk), step) && log == old(log) + [step]
      ensures old(Valid()) && Legal(old(disk), step) ==> Valid()
      ensures Legal(old(disk), step) && Quiet(step) ==> Kept(old(disk), disk)
    {
      if IsRun(origin, log) && After(origin, log) == disk && Legal(disk, step) {
        RunExtends(origin, log, step);
      }
      if Legal(disk, step) && Quiet(step) {
        StepKeepsAccount(disk, step);
      }
      disk := Effect(disk, step);
      log := log + [step];
    }
  }

  ghost predicate OnlyQuiet(before: seq<FileStep>, after: seq<FileStep>) {
    before <= after && forall i :: |before| <= i < |after| ==> Quiet(after[i])
  }

  /** Removes every candidate file; a discarding marker is on disk. */
  method RemoveCandidates(dir: AuthDirectory, ghost tx: Name)
    requires dir.Valid()
    requires tx in dir.disk.transactions && PhaseOf(dir.disk.transactions[tx]) == Some(Discarding)
    modifies dir
    ensures dir.Valid() && OnlyQuiet(old(dir.log), dir.log) && Kept(old(dir.disk), dir.disk)
    ensures dir.disk == Disk(map[], old(dir.disk).transactions)
  {
    var snapshot := dir.disk.candidates.Keys;
    while snapshot != {}
      invariant dir.Valid() && OnlyQuiet(old(dir.log), dir.log) && Kept(old(dir.disk), dir.disk)
      invariant dir.disk.transactions == old(dir.disk).transactions
      invariant dir.disk.candidates.Keys == snapshot
    {
      var name :| name in snapshot;
      snapshot := snapshot - {name};
      dir.Perform(RemoveCandidate(name));
    }
  }

  /** Hands one quarantined artifact back under a new name. */
  method ReturnArtifact(dir: AuthDirectory, tx: Name, artifact: Name)
    requires tx in dir.disk.transactions && Handing(dir.disk.transactions[tx])
    requires artifact in dir.disk.transactions[tx].artifacts
    modifies dir
    ensures old(dir.Valid()) ==> dir.Valid()
    ensures OnlyQuiet(old(dir.log), dir.log) && Kept(old(dir.disk), dir.disk)
    ensures var t := old(dir.disk).transactions[tx];
            && dir.disk.transactions == old(dir.disk).transactions[tx := t.(artifacts := t.artifacts - {artifact})]
            && Contents(dir.disk.candidates) + Contents(t.artifacts - {artifact})
               == Contents(old(dir.disk).candidates) + Contents(t.artifacts)
  {
    hide Contents;
    var restored := RandomName(dir.disk.candidates.Keys);
    MovedContents(dir.disk.transactions[tx].artifacts, dir.disk.candidates, artifact, restored);
    dir.Perform(Return(tx, artifact, restored));
  }

  method ReturnArtifacts(dir: AuthDirectory, tx: Name)
    requires dir.Valid() && tx in dir.disk.transactions && Handing(dir.disk.transactions[tx])
    modifies dir
    ensures dir.Valid() && OnlyQuiet(old(dir.log), dir.log) && Kept(old(dir.disk), dir.disk)
    ensures tx in dir.disk.transactions && dir.disk.transactions[tx].markers == old(dir.disk).transactions[tx].markers
    ensures dir.disk.transactions - {tx} == old(dir.disk).transactions - {tx}
    ensures dir.disk.transactions[tx].artifacts == map[]
    ensures Contents(dir.disk.candidates) + Contents(map[])
         == Contents(old(dir.disk).candidates) + Contents(old(dir.disk).transactions[tx].artifacts)
  {
    hide Contents;
    hide Account;
    ghost var t := dir.disk.transactions[tx];
    var snapshot := dir.disk.transactions[tx].artifacts.Keys;
    while snapshot != {}
      invariant dir.Valid() && OnlyQuiet(old(dir.log), dir.log) && Kept(old(dir.disk), dir.disk)
      invariant tx in dir.disk.transactions && dir.disk.transactions[tx].markers == t.markers
      invariant dir.disk.transactions - {tx} == old(dir.disk).transactions - {tx}
      invariant dir.disk.transactions[tx].artifacts.Keys == snapshot
      invariant Contents(dir.disk.candidates) + Contents(dir.disk.transactions[tx].artifacts)
             == Contents(old(dir.disk).candidates) + Contents(t.artifacts)
    {
      var artifact :| artifact in snapshot;
      snapshot := snapshot - {artifact};
      ReturnArtifact(dir, tx, artifact);
    }
  }

  /** Hands every quarantined artifact back and drops the directory. */
  method RestoreArtifacts(dir: AuthDirectory, tx: Name)
    requires dir.Valid() && tx in dir.disk.transactions && Handing(dir.disk.transactions[tx])
    modifies dir
    ensures dir.Valid() && OnlyQuiet(old(dir.log), dir.log) && Kept(old(dir.disk), dir.disk)
    ensures dir.disk.transactions == old(dir.disk).transactions - {tx}
    ensures Contents(dir.disk.candidates)
         == Contents(old(dir.disk).candidates) + Contents(old(dir.disk).transactions[tx].artifacts)
  {
    ReturnArtifacts(dir, tx);
    dir.Perform(RemoveDirectory(tx));
  }

  /** From active, marked or not, to discarding. */
  method MarkDiscarding(dir: AuthDirectory, tx: Name)
    requires dir.Valid() && tx in dir.disk.transactions && PhaseOf(dir.disk.transactions[tx]) == Some(Active)
    modifies dir
    ensures dir.Valid() && OnlyQuiet(old(dir.log), dir.log) && Kept(old(dir.disk), dir.disk)
    ensures dir.disk == old(dir.disk).(transactions :=
              old(dir.disk).transactions[tx := old(dir.disk).transactions[tx].(markers := {Discarding})])
  {
    ghost var markers := dir.disk.transactions[tx].markers;
    if Active in dir.disk.transactions[tx].markers {
      assert markers - {Active} + {Discarding} == {Discarding};
      dir.Perform(RenameMarker(tx, Active, Discarding));
    } else {
      assert markers + {Discarding} == {Discarding};
      dir.Perform(WriteMarker(tx, Discarding));
    }
  }

  /** From discarding to restoring, with the discarded account's files gone. */
  method DiscardCandidates(dir: AuthDirectory, tx: Name)
    requires dir.Valid() && tx in dir.disk.transactions && dir.disk.transactions[tx].markers == {Discarding}
    modifies dir
    ensures dir.Valid() && OnlyQuiet(old(dir.log), dir.log) && Kept(old(dir.disk), dir.disk)
    ensures dir.disk == Disk(map[],
              old(dir.disk).transactions[tx := old(dir.disk).transactions[tx].(markers := {Restoring})])
  {
    RemoveCandidates(dir, tx);
    assert {Discarding} - {Discarding} + {Restoring} == {Restoring};
    dir.Perform(RenameMarker(tx, Discarding, Restoring));
  }

  /** From preparing to restoring without discarding: the candidates left in place are the account's too. */
  method MarkRestoringKeep(dir: AuthDirectory, tx: Name)
    requires dir.Valid() && tx in dir.disk.transactions && PhaseOf(dir.disk.transactions[tx]) == Some(Preparing)
    modifies dir
    ensures dir.Valid() && OnlyQuiet(old(dir.log), dir.log) && Kept(old(dir.disk), dir.disk)
    ensures dir.disk == old(dir.disk).(transactions :=
              old(dir.disk).transactions[tx := old(dir.disk).transactions[tx].(markers := {RestoringKeep})])
  {
    assert {Preparing} - {Preparing} + {RestoringKeep} == {RestoringKeep};
    dir.Perform(RenameMarker(tx, Preparing, RestoringKeep));
  }

  /** Resolves one well-formed transaction directory. */
  method RecoverDirectory(dir: AuthDirectory, tx: Name)
    requires dir.Valid() && tx in dir.disk.transactions && Parsed(dir.disk.transactions[tx]).Some?
    modifies dir
    ensures dir.Valid() && OnlyQuiet(old(dir.log), dir.log) && Kept(old(dir.disk), dir.disk)
    ensures dir.disk.transactions == old(dir.disk).transactions - {tx}
  {
    hide Contents;
    hide Account;
    hide IsRun;
    hide After;
    var phase := PhaseOf(dir.disk.transactions[tx]).value;
    if phase == Committed {
      dir.Perform(RemoveDirectory(tx));
      return;
    }
    if phase == Preparing {
      MarkRestoringKeep(dir, tx);
      phase := RestoringKeep;
    } else if phase == Active {
      MarkDiscarding(dir, tx);
      phase := Discarding;
    }
    if phase == Discarding {
      assert {Discarding} == dir.disk.transactions[tx].markers;
      DiscardCandidates(dir, tx);
    }
    RestoreArtifacts(dir, tx);
  }

  /** ManagedGatewayAuthenticationTransaction.recoverAbandoned */
  method RecoverAbandoned(dir: AuthDirectory) returns (r: Outcome)
    requires dir.Valid()
    modifies dir
    ensures dir.Valid() && OnlyQuiet(old(dir.log), dir.log) && Kept(old(dir.disk), dir.disk)
    ensures r.Pass? <==> dir.owned && WellFormed(old(dir.disk))
    ensures !dir.owned ==> dir.disk == old(dir.disk)
    ensures r.Pass? ==> dir.disk.transactions == map[]
    ensures r.Pass? && Single(old(dir.disk)) ==> Contents(dir.disk.candidates) == Account(old(dir.disk))
  {
    if !dir.owned {
      return Fail;
    }
    var snapshot := dir.disk.transactions.Keys;
    while snapshot != {}
      invariant dir.Valid() && OnlyQuiet(old(dir.log), dir.log) && Kept(old(dir.disk), dir.disk)
      invariant dir.disk.transactions.Keys == snapshot <= old(dir.disk).transactions.Keys
      invariant forall n :: n in snapshot ==> dir.disk.transactions[n] == old(dir.disk).transactions[n]
      invariant forall n :: n in old(dir.disk).transactions && n !in snapshot
                            ==> Parsed(old(dir.disk).transactions[n]).Some?
    {
      var tx :| tx in snapshot;
      snapshot := snapshot - {tx};
      if Parsed(dir.disk.transactions[tx]).None? {
        return Fail;
      }
      RecoverDirectory(dir, tx);
    }
    assert Pending(dir.disk) == {};
    return Pass;
  }

  /** ManagedGatewayAuthenticationTransaction: an account replacement under way. */
  class Transaction {
    const dir: AuthDirectory
    const quarantineDirectory: Name
    var finalized: bool
    var quarantined: seq<Name>

    constructor (dir: AuthDirectory, quarantineDirectory: Name)
      ensures this.dir == dir && this.quarantineDirectory == quarantineDirectory
      ensures !finalized && quarantined == []
    {
      this.dir := dir;
      this.quarantineDirectory := quarantineDirectory;
      finalized := false;
      quarantined := [];
    }

    /** The transaction is open and its directory carries the active marker and nothing unknown. */
    ghost predicate Live()
      reads this, dir
    {
      && !finalized
      && quarantineDirectory in dir.disk.transactions
      && dir.disk.transactions[quarantineDirectory].markers == {Active}
    }

    /** Makes the account written since the transaction began the committed one. */
    method Commit(removable: bool) returns (r: Outcome)
      requires dir.Valid()
      modifies this, dir
      ensures old(finalized) || old(Live()) || r.Fail? ==> dir.Valid()
      ensures old(finalized) ==> r.Pass? && finalized && dir.disk == old(dir.disk)
      ensures r.Fail? ==> dir.disk == old(dir.disk) && !finalized
      ensures r.Fail? <==>
                && !old(finalized)
                && !(quarantineDirectory in old(dir.disk).transactions
                     && Active in old(dir.disk).transactions[quarantineDirectory].markers)
      ensures old(Live()) ==>
                && r.Pass? && finalized
                && dir.disk.candidates == old(dir.disk).candidates
                && dir.disk.transactions - {quarantineDirectory} == old(dir.disk).transactions - {quarantineDirectory}
                && (removable ==> quarantineDirectory !in dir.disk.transactions)
      ensures old(Live()) && Safe(old(dir.disk)) ==> Safe(dir.disk) && Pending(dir.disk) == {}
    {
      if finalized {
        return Pass;
      }
      var tx := quarantineDirectory;
      if tx !in dir.disk.transactions || Active !in dir.disk.transactions[tx].markers {
        return Fail;
      }
      if Safe(dir.disk) && Legal(dir.disk, RenameMarker(tx, Active, Committed)) {
        CommitSwitches(dir.disk, tx);
      }
      if dir.disk.transactions[tx].markers == {Active} {
        NextMarker(dir.disk.transactions[tx].markers, Active, Committed);
      }
      dir.Perform(RenameMarker(tx, Active, Committed));
      finalized := true;
      if removable {
        ghost var renamed := dir.disk;
        dir.Perform(RemoveDirectory(tx));
        assert Pending(dir.disk) <= Pending(renamed);
      }
      return Pass;
    }

    /** Discards whatever the login wrote and brings the account before it back. */
    method Rollback()
      requires dir.Valid() && (finalized || Live())
      modifies this, dir
      ensures dir.Valid() && OnlyQuiet(old(dir.log), dir.log) && finalized
      ensures old(finalized) ==> dir.disk == old(dir.disk)
      ensures !old(finalized) ==>
                && Kept(old(dir.disk), dir.disk)
                && dir.disk.transactions == old(dir.disk).transactions - {quarantineDirectory}
                && Contents(dir.disk.candidates) == Contents(old(dir.disk).transactions[quarantineDirectory].artifacts)
    {
      assert Contents(map[]) == multiset{};
      hide Contents;
      hide Account;
      hide IsRun;
      hide After;
      if finalized {
        return;
      }
      var tx := quarantineDirectory;
      MarkDiscarding(dir, tx);
      DiscardCandidates(dir, tx);
      RestoreArtifacts(dir, tx);
      finalized := true;
    }
  }

  /** Moves one candidate into the directory that is being prepared. */
  method QuarantineCandidate(transaction: Transaction, candidate: Name)
    requires transaction.quarantineDirectory in transaction.dir.disk.transactions
    requires PhaseOf(transaction.dir.disk.transactions[transaction.quarantineDirectory]) == Some(Preparing)
    requires candidate in transaction.dir.disk.candidates
    modifies transaction`quarantined, transaction.dir
    ensures old(transaction.dir.Valid()) ==> transaction.dir.Valid()
    ensures OnlyQuiet(old(transaction.dir.log), transaction.dir.log)
    ensures Kept(old(transaction.dir.disk), transaction.dir.disk)
    ensures var before, after := old(transaction.dir.disk), transaction.dir.disk;
            var tx := transaction.quarantineDirectory;
            && tx in after.transactions
            && after.candidates == before.candidates - {candidate}
            && after.transactions - {tx} == before.transactions - {tx}
            && after.transactions[tx].markers == before.transactions[tx].markers
            && after.transactions[tx].unknown == before.transactions[tx].unknown
            && (forall a :: a in after.transactions[tx].artifacts ==>
                  a in before.transactions[tx].artifacts || a in transaction.quarantined)
            && (forall a :: a in old(transaction.quarantined) ==> a in transaction.quarantined)
            && Contents(after.candidates) + Contents(after.transactions[tx].artifacts)
               == Contents(before.candidates) + Contents(before.transactions[tx].artifacts)
  {
    hide Contents;
    var dir, tx := transaction.dir, transaction.quarantineDirectory;
    var destination := RandomName(dir.disk.transactions[tx].artifacts.Keys);
    MovedContents(dir.disk.candidates, dir.disk.transactions[tx].artifacts, candidate, destination);
    dir.Perform(Quarantine(tx, candidate, destination));
    transaction.quarantined := transaction.quarantined + [destination];
  }

  ghost predicate BeingPrepared(transaction: Transaction, before: Disk)
    reads transaction, transaction.dir
  {
    var after, tx := transaction.dir.disk, transaction.quarantineDirectory;
    && !transaction.finalized
    && tx !in before.transactions
    && tx in after.transactions
    && after.transactions - {tx} == before.transactions
    && PhaseOf(after.transactions[tx]) == Some(Preparing)
    && !after.transactions[tx].unknown
    && (forall a :: a in after.transactions[tx].artifacts ==> a in transaction.quarantined)
    && Contents(after.candidates) + Contents(after.transactions[tx].artifacts) == Contents(before.candidates)
  }

  /** The error path of beginning: what was moved is moved back and the directory goes. */
  method Abandon(transaction: Transaction, ghost before: Disk)
    requires BeingPrepared(transaction, before)
    modifies transaction`finalized, transaction.dir
    ensures old(transaction.dir.Valid()) ==> transaction.dir.Valid()
    ensures OnlyQuiet(old(transaction.dir.log), transaction.dir.log)
    ensures Kept(old(transaction.dir.disk), transaction.dir.disk)
    ensures transaction.finalized
    ensures transaction.dir.disk.transactions == before.transactions
    ensures Contents(transaction.dir.disk.candidates) == Contents(before.candidates)
  {
    TakeBack(transaction, before);
    transaction.dir.Perform(RemoveDirectory(transaction.quarantineDirectory));
    transaction.finalized := true;
  }

  method TakeBack(transaction: Transaction, ghost before: Disk)
    requires BeingPrepared(transaction, before)
    modifies transaction.dir
    ensures old(transaction.dir.Valid()) ==> transaction.dir.Valid()
    ensures OnlyQuiet(old(transaction.dir.log), transaction.dir.log)
    ensures Kept(old(transaction.dir.disk), transaction.dir.disk)
    ensures BeingPrepared(transaction, before)
    ensures transaction.dir.disk.transactions[transaction.quarantineDirectory].artifacts == map[]
  {
    hide Contents;
    hide Account;
    var dir, tx := transaction.dir, transaction.quarantineDirectory;
    for i := 0 to |transaction.quarantined|
      invariant old(dir.Valid()) ==> dir.Valid()
      invariant OnlyQuiet(old(dir.log), dir.log) && Kept(old(dir.disk), dir.disk)
      invariant BeingPrepared(transaction, before)
      invariant forall a :: a in dir.disk.transactions[tx].artifacts ==> a in transaction.quarantined[i..]
    {
      var artifact := transaction.quarantined[i];
      if artifact in dir.disk.transactions[tx].artifacts {
        ReturnArtifact(dir, tx, artifact);
      }
    }
  }

  /** Creates the transaction directory with its first marker. */
  method Prepare(dir: AuthDirectory) returns (transaction: Transaction)
    requires dir.Valid()
    modifies dir
    ensures OnlyQuiet(old(dir.log), dir.log)
    ensures Pending(old(dir.disk)) == {} ==> dir.Valid() && Kept(old(dir.disk), dir.disk)
    ensures fresh(transaction) && transaction.dir == dir && BeingPrepared(transaction, old(dir.disk))
    ensures dir.disk.candidates == old(dir.disk).candidates
  {
    var tx := RandomName(dir.disk.transactions.Keys);
    transaction := new Transaction(dir, tx);
    dir.Perform(MakeDirectory(tx));
  }

  /** Moves every candidate, unless the renames run out; the last rename is kept for the marker. */
  method QuarantineAll(transaction: Transaction, ghost before: Disk, budget: nat) returns (done: bool)
    requires BeingPrepared(transaction, before)
    requires transaction.dir.disk.candidates == before.candidates
    modifies transaction, transaction.dir
    ensures old(transaction.dir.Valid()) ==> transaction.dir.Valid()
    ensures OnlyQuiet(old(transaction.dir.log), transaction.dir.log)
    ensures Kept(old(transaction.dir.disk), transaction.dir.disk)
    ensures BeingPrepared(transaction, before)
    ensures done <==> |before.candidates| < budget
    ensures done ==> transaction.dir.disk.candidates == map[]
  {
    hide Contents;
    hide Account;
    var dir := transaction.dir;
    var snapshot := dir.disk.candidates.Keys;
    var renames := 0;
    while snapshot != {}
      invariant old(dir.Valid()) ==> dir.Valid()
      invariant OnlyQuiet(old(dir.log), dir.log) && Kept(old(dir.disk), dir.disk)
      invariant BeingPrepared(transaction, before)
      invariant dir.disk.candidates.Keys == snapshot
      invariant renames + |snapshot| == |before.candidates.Keys| && renames <= budget
    {
      if renames == budget {
        return false;
      }
      var candidate :| candidate in snapshot;
      snapshot := snapshot - {candidate};
      QuarantineCandidate(transaction, candidate);
      renames := renames + 1;
    }
    return renames < budget;
  }

  /** The last step of beginning: the old account is wholly in quarantine. */
  method Activate(transaction: Transaction, ghost before: Disk)
    requires BeingPrepared(transaction, before) && transaction.dir.disk.candidates == map[]
    modifies transaction.dir
    ensures old(transaction.dir.Valid()) ==> transaction.dir.Valid()
    ensures OnlyQuiet(old(transaction.dir.log), transaction.dir.log)
    ensures Kept(old(transaction.dir.disk), transaction.dir.disk)
    ensures transaction.Live() && transaction.dir.disk.candidates == map[]
    ensures transaction.quarantineDirectory !in before.transactions
    ensures transaction.dir.disk.transactions - {transaction.quarantineDirectory} == before.transactions
    ensures !transaction.dir.disk.transactions[transaction.quarantineDirectory].unknown
    ensures Contents(transaction.dir.disk.transactions[transaction.quarantineDirectory].artifacts)
         == Contents(before.candidates)
  {
    var tx := transaction.quarantineDirectory;
    assert transaction.dir.disk.transactions[tx].markers == {Preparing};
    assert {Preparing} - {Preparing} + {Active} == {Active};
    transaction.dir.Perform(RenameMarker(tx, Preparing, Active));
  }

  /**
   * The transaction's constructor. At most `budget` renames succeed; the next one throws and the move is
   * undone. The account is kept however it ends, provided nothing uncommitted was there before: the
   * callers see to that by recovering first.
   */
  method Begin(dir: AuthDirectory, budget: nat) returns (r: Result<Transaction>)
    requires dir.Valid()
    modifies dir
    ensures OnlyQuiet(old(dir.log), dir.log)
    ensures Pending(old(dir.disk)) == {} ==> dir.Valid() && Kept(old(dir.disk), dir.disk)
    ensures r.Ok? <==> dir.owned && |old(dir.disk).candidates| < budget
    ensures !dir.owned ==> dir.disk == old(dir.disk)
    ensures r.Err? ==> dir.disk.transactions == old(dir.disk).transactions
                       && Contents(dir.disk.candidates) == Contents(old(dir.disk).candidates)
    ensures r.Ok? ==>
              && fresh(r.value) && r.value.dir == dir && r.value.Live()
              && dir.disk.candidates == map[]
              && r.value.quarantineDirectory !in old(dir.disk).transactions
              && dir.disk.transactions - {r.value.quarantineDirectory} == old(dir.disk).transactions
              && !dir.disk.transactions[r.value.quarantineDirectory].unknown
              && Contents(dir.disk.transactions[r.value.quarantineDirectory].artifacts)
                 == Contents(old(dir.disk).candidates)
  {
    hide Contents;
    hide Account;
    if !dir.owned {
      return Err;
    }
    var transaction := Prepare(dir);
    var quarantined := QuarantineAll(transaction, old(dir.disk), budget);
    if !quarantined {
      Abandon(transaction, old(dir.disk));
      return Err;
    }
    Activate(transaction, old(dir.disk));
    return Ok(transaction);
  }

  datatype Finding = Broken | Obsolete | TheInspected | Unresolved

  /** How hasPending reads one directory. */
  function Judge(t: TransactionDirectory, inspected: bool): Finding {
    if Parsed(t).None? then Broken
    else if PhaseOf(t) == Some(Committed) then Obsolete
    else if PhaseOf(t) == Some(Active) && Active in t.markers && inspected then TheInspected
    else Unresolved
  }

  ghost function Judged(d: Disk, inspected: Option<Name>, finding: Finding): set<Name> {
    set n | n in d.transactions && Judge(d.transactions[n], inspected == Some(n)) == finding
  }

  lemma JudgedDirectories(d: Disk, inspected: Option<Name>)
    requires Judged(d, inspected, Broken) == {}
    ensures WellFormed(d)
    ensures Pending(d) == Judged(d, inspected, Unresolved) + Judged(d, inspected, TheInspected)
    ensures Judged(d, inspected, TheInspected)
         == set n | n in d.transactions && inspected == Some(n) && d.transactions[n].markers == {Active}
  {
    forall n | n in d.transactions
      ensures Parsed(d.transactions[n]).Some?
    {
      assert n !in Judged(d, inspected, Broken);
    }
  }

  /** The loop of hasPending: whether some directory is broken, unresolved, or the inspected one. */
  method Scan(dir: AuthDirectory, inspected: Option<Name>, removable: set<Name>)
    returns (broken: bool, pending: bool, found: bool)
    requires dir.Valid()
    modifies dir
    ensures dir.Valid() && OnlyQuiet(old(dir.log), dir.log) && Kept(old(dir.disk), dir.disk)
    ensures Swept(old(dir.disk), dir.disk)
    ensures broken <==> Judged(old(dir.disk), inspected, Broken) != {}
    ensures !broken ==> (pending <==> Judged(old(dir.disk), inspected, Unresolved) != {})
    ensures !broken ==> (found <==> Judged(old(dir.disk), inspected, TheInspected) != {})
  {
    hide Contents;
    hide Account;
    hide MarkedPhase;
    pending, found := false, false;
    var snapshot := dir.disk.transactions.Keys;
    ghost var before := dir.disk;
    while snapshot != {}
      invariant dir.Valid() && OnlyQuiet(old(dir.log), dir.log) && Kept(before, dir.disk)
      invariant Swept(before, dir.disk) && snapshot <= dir.disk.transactions.Keys
      invariant Judged(before, inspected, Broken) <= snapshot
      invariant pending <==> !(Judged(before, inspected, Unresolved) <= snapshot)
      invariant found <==> !(Judged(before, inspected, TheInspected) <= snapshot)
    {
      var tx :| tx in snapshot;
      snapshot := snapshot - {tx};
      match Judge(dir.disk.transactions[tx], inspected == Some(tx))
      case Broken =>
        assert tx in Judged(before, inspected, Broken);
        return true, false, false;
      case Obsolete =>
        if tx in removable {
          dir.Perform(RemoveDirectory(tx));
        }
      case TheInspected => found := true;
      case Unresolved => pending := true;
    }
    broken := false;
  }

  ghost function QuarantineOf(inspected: Transaction?): Option<Name> {
    if inspected == null then None else Some(inspected.quarantineDirectory)
  }

  /**
   * hasPending: whether a reader must not trust the candidate files, because some transaction other than
   * the one it inspects is unresolved. Committed directories that can be removed are swept on the way. When
   * the answer is false the candidates are exactly one account, whatever has happened to the directory so far.
   */
  method HasPending(dir: AuthDirectory, inspected: Transaction?, removable: set<Name>, ghost story: Story)
    returns (pending: bool)
    requires dir.Valid() && Truthful(story) && story.disk == dir.origin
    modifies dir
    ensures dir.Valid() && OnlyQuiet(old(dir.log), dir.log) && Kept(old(dir.disk), dir.disk)
    ensures dir.disk.candidates == old(dir.disk).candidates && Pending(dir.disk) == Pending(old(dir.disk))
    ensures forall n :: n in dir.disk.transactions ==>
              n in old(dir.disk).transactions && dir.disk.transactions[n] == old(dir.disk).transactions[n]
    ensures !pending <==>
              && dir.owned && Trusted(old(dir.disk), QuarantineOf(inspected))
              && (inspected != null ==> inspected.dir == dir && !old(inspected.finalized))
    ensures !pending ==> Contents(dir.disk.candidates)
                         == if inspected == null then Told(story, dir.log).committed else Told(story, dir.log).written
  {
    hide Contents;
    hide Account;
    hide Told;
    hide Truthful;
    hide IsRun;
    hide After;
    if !dir.owned {
      return true;
    }
    var inspectedDirectory: Option<Name> :=
      if inspected != null && !inspected.finalized && inspected.dir == dir then Some(inspected.quarantineDirectory)
      else None;
    var broken, unresolved, found := Scan(dir, inspectedDirectory, removable);
    if !broken {
      JudgedDirectories(old(dir.disk), inspectedDirectory);
    }
    pending := broken || unresolved || !(inspected == null || found);
    if !pending {
      TrustedCandidates(story, dir.log, QuarantineOf(inspected));
    }
  }

  /** Only committed directories went. */
  ghost predicate Swept(before: Disk, after: Disk) {
    && after.candidates == before.candidates
    && (forall n :: n in after.transactions ==>
          n in before.transactions && after.transactions[n] == before.transactions[n])
    && (forall n :: n in before.transactions && n !in after.transactions ==>
          PhaseOf(before.transactions[n]) == Some(Committed))
  }

  /** What the external login process leaves behind: the candidate files, and the one it reported, if valid. */
  datatype LoginEnd = LoginEnd(files: map<Name, Content>, artifact: Option<Name>)

  predicate Confirmed(end: LoginEnd) {
    end.artifact.Some? && end.files.Keys == {end.artifact.value}
  }

  /** A login succeeds, `size` being the number of files of the account that it replaces. */
  predicate LogsIn(end: LoginEnd, budget: nat, owned: bool, size: nat) {
    owned && Confirmed(end) && size < budget
  }

  /**
   * The gateway's login: recover whatever an earlier run left, quarantine the present account, let the
   * login process write, and roll back unless exactly the reported artifact is there.
   */
  method Login(dir: AuthDirectory, budget: nat, end: LoginEnd) returns (r: Result<Transaction>)
    requires dir.Valid()
    modifies dir
    ensures dir.Valid()
    ensures r.Ok? ==>
              && fresh(r.value) && r.value.dir == dir && r.value.Live()
              && dir.disk.transactions.Keys == {r.value.quarantineDirectory}
              && dir.disk.candidates == end.files && Confirmed(end)
              && end.artifact.Some? && dir.disk.candidates.Keys == {end.artifact.value}
              && Safe(dir.disk)
    ensures Safe(old(dir.disk)) ==> Safe(dir.disk) && Account(dir.disk) == Account(old(dir.disk))
    ensures r.Err? && dir.owned && WellFormed(old(dir.disk)) ==> dir.disk.transactions == map[]
    ensures dir.owned && WellFormed(old(dir.disk)) && !Confirmed(end) ==> r.Err?
    ensures Safe(old(dir.disk)) ==> (r.Ok? <==> LogsIn(end, budget, dir.owned, |Account(old(dir.disk))|))
  {
    hide IsRun;
    hide After;
    hide Contents;
    var recovered := RecoverAbandoned(dir);
    if recovered.Fail? {
      return Err;
    }
    assert Pending(dir.disk) == {};
    SizeOfContents(dir.disk.candidates);
    var begun := Begin(dir, budget);
    if begun.Err? {
      return Err;
    }
    var transaction := begun.value;
    ghost var quarantined := dir.disk;
    assert Pending(quarantined) == {transaction.quarantineDirectory};
    dir.Perform(Write(end.files));
    assert Pending(dir.disk) == {transaction.quarantineDirectory};
    AccountIs(quarantined, transaction.quarantineDirectory);
    AccountIs(dir.disk, transaction.quarantineDirectory);
    if Confirmed(end) {
      return Ok(transaction);
    }
    transaction.Rollback();
    return Err;
  }

  /**
   * The gateway's logout: an account replacement by nothing, committed at once. Over a safe disk it fails only if
   * the directory is not owned or the renames run out.
   */
  method Logout(dir: AuthDirectory, budget: nat, removable: bool) returns (r: Outcome)
    requires dir.Valid()
    modifies dir
    ensures dir.Valid()
    ensures Safe(old(dir.disk)) ==> (r.Pass? <==> dir.owned && |Account(old(dir.disk))| < budget)
    ensures r.Pass? ==> dir.owned && WellFormed(old(dir.disk))
    ensures r.Pass? ==> Safe(dir.disk) && Pending(dir.disk) == {} && dir.disk.candidates == map[]
    ensures r.Pass? ==> Account(dir.disk) == multiset{} && (removable ==> dir.disk.transactions == map[])
    ensures r.Fail? && Safe(old(dir.disk)) ==> Safe(dir.disk) && Account(dir.disk) == Account(old(dir.disk))
    ensures r.Fail? && dir.owned && WellFormed(old(dir.disk)) ==> dir.disk.transactions == map[]
  {
    hide IsRun;
    hide After;
    assert Contents(map[]) == multiset{};
    hide Contents;
    hide Account;
    hide MarkedPhase;
    var recovered := RecoverAbandoned(dir);
    if recovered.Fail? {
      return Fail;
    }
    assert Pending(dir.disk) == {};
    SizeOfContents(dir.disk.candidates);
    var begun := Begin(dir, budget);
    if begun.Err? {
      return Fail;
    }
    assert Pending(dir.disk) == {begun.value.quarantineDirectory};
    r := begun.value.Commit(removable);
    SettledAccount(dir.disk);
  }

  lemma SettledAccount(d: Disk)
    requires Pending(d) == {}
    ensures Single(d) && Account(d) == Contents(d.candidates)
  {
  }

  /** How an attempt ends once its login, if it needed one, is over. */
  datatype AttemptEnd = Ready | EnvironmentChanged | AttemptFailed

  /**
   * One attempt of a setup: the signature of its environment, what a login would do in it and whether the
   * environment was still the same afterwards, how the attempt ends and whether the stop after it succeeds.
   */
  datatype SetupAttempt = SetupAttempt(signature: nat, budget: nat, login: LoginEnd, loginCurrent: bool,
                                       end: AttemptEnd, stopped: bool)

  /** What happens after the gateway is ready, or after an error. */
  datatype SetupRest = SetupRest(configured: bool, removable: bool, stopped: bool)

  /** What the attempts so far leave: whether a login is still needed, and where the last login stayed current. */
  datatype Progress = Progress(needed: bool, signature: Option<nat>)

  predicate LoginDue(p: Progress, a: SetupAttempt) {
    p.needed || (p.signature.Some? && p.signature.value != a.signature)
  }

  datatype Verdict = GotReady | GivenUp | TryAgain

  function VerdictOf(a: SetupAttempt): Verdict {
    if a.end == Ready then GotReady
    else if a.end == AttemptFailed || !a.stopped then GivenUp
    else TryAgain
  }

  /** The k-th attempt, given whether a login that is due succeeds; no login is left if it fails. */
  function Turn(a: SetupAttempt, p: Progress, k: nat, login: Option<nat>, success: bool)
    : (Progress, Option<nat>, Verdict)
  {
    if !LoginDue(p, a) then (p, login, VerdictOf(a))
    else if !success then (p, None, GivenUp)
    else if !a.loginCurrent then (p, Some(k), if a.stopped then TryAgain else GivenUp)
    else (Progress(false, Some(a.signature)), Some(k), VerdictOf(a))
  }

  /**
   * How a setup ends: whether the gateway got ready, which login is the present one, which attempt was last. The
   * former account consists of `size` files.
   */
  datatype Course = Course(ready: bool, login: Option<nat>, last: nat)

  function CourseFrom(attempts: seq<SetupAttempt>, k: nat, p: Progress, login: Option<nat>, owned: bool, size: nat)
    : Course
    requires k <= 3 <= |attempts|
    decreases 3 - k
  {
    if k == 3 then Course(false, login, 2)
    else
      var a := attempts[k];
      var (q, present, verdict) := Turn(a, p, k, login, LogsIn(a.login, a.budget, owned, size));
      if verdict == TryAgain then CourseFrom(attempts, k + 1, q, present, owned, size)
      else Course(verdict == GotReady, present, k)
  }

  function CourseOf(attempts: seq<SetupAttempt>, loginNeeded: bool, owned: bool, size: nat): Course
    requires |attempts| >= 3
  {
    CourseFrom(attempts, 0, Progress(loginNeeded, None), None, owned, size)
  }

  /** The environment changes behind a login, changes back during the next one, and stays so. */
  predicate TurnsBack(attempts: seq<SetupAttempt>)
    requires |attempts| >= 3
  {
    && attempts[0].loginCurrent && attempts[0].end == EnvironmentChanged && attempts[0].stopped
    && attempts[1].signature != attempts[0].signature && !attempts[1].loginCurrent && attempts[1].stopped
    && attempts[2].signature == attempts[0].signature && attempts[2].end == Ready
  }

  /**
   * A setup gets ready in an environment other than that of the login it commits exactly when a needed login
   * succeeds twice while the environment turns back: the third attempt then takes the second login for the first.
   */
  lemma LoginOfAnotherEnvironment(attempts: seq<SetupAttempt>, loginNeeded: bool, owned: bool, size: nat)
    requires |attempts| >= 3
    ensures var c := CourseOf(attempts, loginNeeded, owned, size);
            && (c.login.Some? ==> c.login.value <= c.last < 3)
            && (c.ready && c.login.Some? && attempts[c.login.value].signature != attempts[c.last].signature
                <==> && loginNeeded && TurnsBack(attempts)
                     && LogsIn(attempts[0].login, attempts[0].budget, owned, size)
                     && LogsIn(attempts[1].login, attempts[1].budget, owned, size))
  {
    hide LogsIn;
  }

  /** One attempt, from its environment to its end. A failing login leaves the former account and no transaction. */
  method RunTurn(dir: AuthDirectory, a: SetupAttempt, held: Transaction?, before: Progress,
                 ghost k: nat, ghost former: Option<nat>, ghost files: map<Name, Content>)
    returns (transaction: Transaction?, after: Progress, verdict: Verdict, ghost login: Option<nat>)
    requires dir.Valid() && (held != null <==> former.Some?) && (held != null ==> Holds(dir, held, files))
    modifies dir, held
    ensures dir.Valid() && (transaction != null <==> login.Some?)
    ensures transaction != null ==> fresh(transaction) || transaction == held
    ensures transaction != null ==> Holds(dir, transaction, if LoginDue(before, a) then a.login.files else files)
    ensures !LoginDue(before, a) ==> transaction == held && dir.disk == old(dir.disk)
    ensures Safe(old(dir.disk)) ==> Safe(dir.disk) && Account(dir.disk) == Account(old(dir.disk))
    ensures (after, login, verdict) == Turn(a, before, k, former, transaction != null)
    ensures Safe(old(dir.disk)) && LoginDue(before, a) ==>
              (transaction != null <==> LogsIn(a.login, a.budget, dir.owned, |Account(old(dir.disk))|))
  {
    hide IsRun;
    hide After;
    hide Contents;
    hide Account;
    hide LogsIn;
    hide Confirmed;
    transaction, after, login := held, before, former;
    if LoginDue(before, a) {
      if transaction != null {
        transaction.Rollback();
      }
      var done := Login(dir, a.budget, a.login);
      if done.Err? {
        return null, before, GivenUp, None;
      }
      transaction, login := done.value, Some(k);
      if !a.loginCurrent {
        return transaction, after, if a.stopped then TryAgain else GivenUp, login;
      }
      after := Progress(false, Some(a.signature));
    }
    verdict := VerdictOf(a);
  }

  lemma NextTurn(attempts: seq<SetupAttempt>, k: nat, p: Progress, login: Option<nat>, owned: bool, size: nat,
                 success: bool)
    requires k < 3 <= |attempts|
    requires LoginDue(p, attempts[k]) ==>
               (success <==> LogsIn(attempts[k].login, attempts[k].budget, owned, size))
    ensures var (q, present, verdict) := Turn(attempts[k], p, k, login, success);
            CourseFrom(attempts, k, p, login, owned, size)
            == if verdict == TryAgain then CourseFrom(attempts, k + 1, q, present, owned, size)
               else Course(verdict == GotReady, present, k)
  {
  }

  lemma NoTurnLeft(attempts: seq<SetupAttempt>, p: Progress, login: Option<nat>, owned: bool, size: nat)
    requires |attempts| >= 3
    ensures CourseFrom(attempts, 3, p, login, owned, size) == Course(false, login, 2)
  {
  }

  lemma LoginTurn(attempts: seq<SetupAttempt>, k: nat, p: Progress, login: Option<nat>, success: bool)
    requires k < |attempts| && (login.Some? ==> login.value < k && LoginBehind(attempts, login.value, p))
    requires login.None? ==> p.signature.None?
    ensures var (q, present, verdict) := Turn(attempts[k], p, k, login, success);
            && present == (if !LoginDue(p, attempts[k]) then login else if success then Some(k) else None)
            && (present.Some? ==> present.value <= k && LoginBehind(attempts, present.value, q))
            && (present.None? && verdict != GivenUp ==> login.None? && q == p && !p.needed)
            && (verdict == GotReady ==> attempts[k].end == Ready)
            && (verdict == GotReady && present.Some? ==>
                  (attempts[present.value].loginCurrent
                   <==> attempts[present.value].signature == attempts[k].signature))
  {
  }

  /** The attempts, until one gets ready or gives up. */
  method RunAttempts(dir: AuthDirectory, loginNeeded: bool, attempts: seq<SetupAttempt>)
    returns (transaction: Transaction?, ready: bool, ghost login: Option<nat>, ghost last: nat)
    requires dir.Valid() && |attempts| >= 3
    modifies dir
    ensures dir.Valid() && (transaction != null <==> login.Some?)
    ensures last < 3 && (login.Some? ==> login.value <= last)
    ensures transaction != null ==> fresh(transaction)
    ensures transaction != null ==> Holds(dir, transaction, attempts[login.value].login.files)
    ensures ready ==> attempts[last].end == Ready
    ensures ready && login.Some? ==>
              (attempts[login.value].loginCurrent <==> attempts[login.value].signature == attempts[last].signature)
    ensures ready && login.None? ==> !loginNeeded && dir.disk == old(dir.disk)
    ensures Safe(old(dir.disk)) ==>
              && Safe(dir.disk) && Account(dir.disk) == Account(old(dir.disk))
              && Course(ready, login, last)
                 == CourseOf(attempts, loginNeeded, dir.owned, |Account(old(dir.disk))|)
  {
    hide IsRun;
    hide After;
    hide Account;
    hide LogsIn;
    hide CourseFrom;
    hide LoginBehind;
    hide Turn;
    hide WellFormed;
    hide Single;
    transaction := null;
    var progress := Progress(loginNeeded, None);
    login, last := None, 0;
    ghost var size := if Safe(dir.disk) then |Account(dir.disk)| else 0;
    for attempt := 0 to 3
      invariant attempt > 0 ==> last == attempt - 1
      invariant dir.Valid() && (transaction != null <==> login.Some?)
      invariant Safe(old(dir.disk)) ==> Safe(dir.disk) && Account(dir.disk) == Account(old(dir.disk))
      invariant Safe(old(dir.disk)) ==> CourseOf(attempts, loginNeeded, dir.owned, size)
                                        == CourseFrom(attempts, attempt, progress, login, dir.owned, size)
      invariant transaction == null ==> dir.disk == old(dir.disk) && progress == Progress(loginNeeded, None)
      invariant transaction != null ==> fresh(transaction) && login.value < attempt
      invariant transaction != null ==> Holds(dir, transaction, attempts[login.value].login.files)
      invariant transaction != null ==> LoginBehind(attempts, login.value, progress)
    {
      last := attempt;
      ghost var files := if login.Some? then attempts[login.value].login.files else map[];
      ghost var before, former := progress, login;
      var verdict;
      transaction, progress, verdict, login :=
        RunTurn(dir, attempts[attempt], transaction, progress, attempt, login, files);
      LoginTurn(attempts, attempt, before, former, login.Some?);
      if Safe(old(dir.disk)) {
        NextTurn(attempts, attempt, before, former, dir.owned, size, login.Some?);
      }
      if verdict != TryAgain {
        return transaction, verdict == GotReady, login, last;
      }
    }
    NoTurnLeft(attempts, progress, login, dir.owned, size);
    ready := false;
  }

  /**
   * The gateway's account setup. Up to three attempts; each logs in if no login succeeded yet or if the last
   * one did in another environment, after rolling back the transaction of that one. A setup that gets ready
   * commits the last login; one that does not is rolled back, unless some gateway process may still be using
   * the new account, in which case the transaction stays on disk for the next recovery. The login it commits was
   * made in the environment that got ready if and only if that stayed the same during the login.
   */
  method Setup(dir: AuthDirectory, loginNeeded: bool, attempts: seq<SetupAttempt>, rest: SetupRest)
    returns (r: Outcome, ghost login: Option<nat>, ghost last: nat)
    requires dir.Valid() && |attempts| >= 3
    modifies dir
    ensures dir.Valid()
    ensures last < 3 && (login.Some? ==> login.value <= last)
    ensures r.Pass? ==> attempts[last].end == Ready
    ensures r.Pass? && login.Some? ==>
              && Pending(dir.disk) == {}
              && dir.disk.candidates == attempts[login.value].login.files
              && (attempts[login.value].loginCurrent <==> attempts[login.value].signature == attempts[last].signature)
    ensures r.Pass? && login.None? ==> !loginNeeded && dir.disk == old(dir.disk)
    ensures Safe(old(dir.disk)) ==>
              && Safe(dir.disk)
              && var course := CourseOf(attempts, loginNeeded, dir.owned, |Account(old(dir.disk))|);
                 login == course.login && last == course.last && (r.Pass? <==> course.ready && rest.configured)
    ensures r.Fail? && Safe(old(dir.disk)) ==> Account(dir.disk) == Account(old(dir.disk))
    ensures r.Fail? && login.Some? && rest.stopped ==> dir.disk.transactions == map[]
  {
    hide IsRun;
    hide After;
    hide Contents;
    hide Account;
    hide CourseFrom;
    var transaction, ready;
    transaction, ready, login, last := RunAttempts(dir, loginNeeded, attempts);
    if ready && rest.configured {
      if transaction == null {
        return Pass, login, last;
      }
      r := transaction.Commit(rest.removable);
      return r, login, last;
    }
    if transaction != null && rest.stopped {
      RollbackEmpties(dir.disk, transaction.quarantineDirectory);
      transaction.Rollback();
    }
    return Fail, login, last;
  }

  /**
   * A setup in which the environment turns back: it ends in the first one with the login made in the second.
   */
  method SetupWithLoginOfAnotherEnvironment(dir: AuthDirectory, first: LoginEnd, second: LoginEnd, budget: nat)
    returns (r: Outcome, ghost login: Option<nat>, ghost last: nat, ghost attempts: seq<SetupAttempt>)
    requires dir.Valid() && Safe(dir.disk) && dir.owned && |Account(dir.disk)| < budget
    requires Confirmed(first) && Confirmed(second)
    modifies dir
    ensures r.Pass? && dir.disk.candidates == second.files && Pending(dir.disk) == {}
    ensures login == Some(1) && last == 2 && |attempts| == 3 && attempts[1].login == second
    ensures attempts[1].signature != attempts[2].signature == attempts[0].signature
  {
    var here, there := 0, 1;
    var tried := [SetupAttempt(here, budget, first, true, EnvironmentChanged, true),
                  SetupAttempt(there, budget, second, false, EnvironmentChanged, true),
                  SetupAttempt(here, budget, first, true, Ready, true)];
    attempts := tried;
    LoginOfAnotherEnvironment(tried, true, dir.owned, |Account(dir.disk)|);
    r, login, last := Setup(dir, true, tried, SetupRest(true, true, true));
  }

  /** Where the progress is one behind a login: its environment is the noted one if and only if it stayed current. */
  predicate LoginBehind(attempts: seq<SetupAttempt>, login: nat, p: Progress)
    requires login < |attempts|
  {
    && (p.signature.Some? <==> !p.needed)
    && (p.needed ==> !attempts[login].loginCurrent)
    && (!p.needed ==> (attempts[login].loginCurrent <==> p.signature == Some(attempts[login].signature)))
  }

  /** A live login is the only transaction, and its files are the visible ones. */
  ghost predicate Holds(dir: AuthDirectory, transaction: Transaction, files: map<Name, Content>)
    reads dir, transaction
  {
    && transaction.dir == dir && transaction.Live() && dir.disk.candidates == files
    && dir.disk.transactions.Keys == {transaction.quarantineDirectory} && Safe(dir.disk)
  }

  lemma RollbackEmpties(d: Disk, n: Name)
    requires d.transactions.Keys == {n}
    ensures d.transactions - {n} == map[]
  {
  }
}
