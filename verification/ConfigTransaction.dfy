/**
 * Switching the gateway to a new configuration: up to three attempts, each of which puts the new file in
 * place, starts the gateway and persists its state, or takes everything back. Every file operation may fail.
 */
module ConfigTransaction {
  import opened Common
  import opened GatewayState
  import opened StateStore
  import opened ProcessOwnership

  /** The configuration file, and the staged and backed-up files beside it. */
  datatype Folder = Folder(config: Option<Content>, pending: map<Name, Content>, previous: map<Name, Content>)

  /** A failed write may leave part of the file. */
  datatype Write = Written | Torn(part: Content) | Missed

  datatype StageFaults = StageFaults(write: Write, protect: bool, remove: bool)

  datatype RollbackFaults = RollbackFaults(remove: bool, restore: bool)

  datatype ActivateFaults = ActivateFaults(backup: bool, move: bool, protect: bool, undo: RollbackFaults)

  /**
   * What happens between the activation and the end of an attempt: the environment changes, something else
   * throws, or the ready state is committed over what the store holds by then.
   */
  datatype Body = EnvironmentChanged | Broken | Committing(state: GatewayState, files: Disk, persist: Fault)

  datatype Attempt = Attempt(stage: StageFaults, activate: ActivateFaults, body: Body,
                             stopFails: bool, rollback: RollbackFaults, unstageFails: bool, dropBackupFails: bool)

  // ----- The file operations as functions; rmSync with `force` succeeds when there is nothing to remove

  function Unstaged(f: Folder, staged: Name, fails: bool): (Folder, Outcome) {
    if staged in f.pending && fails then (f, Fail) else (f.(pending := f.pending - {staged}), Pass)
  }

  function Staged(f: Folder, content: Content, staged: Name, x: StageFaults): (Folder, Outcome) {
    match x.write
    case Missed => (Unstaged(f, staged, x.remove).0, Fail)
    case Torn(part) => (Unstaged(f.(pending := f.pending[staged := part]), staged, x.remove).0, Fail)
    case Written =>
      var there := f.(pending := f.pending[staged := content]);
      if x.protect then (Unstaged(there, staged, x.remove).0, Fail) else (there, Pass)
  }

  function RolledBack(f: Folder, committed: bool, backup: Option<Name>, x: RollbackFaults): (Folder, Outcome) {
    if committed then (f, Pass)
    else if f.config.Some? && x.remove then (f, Fail)
    else
      var removed := f.(config := None);
      if backup.None? || backup.value !in f.previous then (removed, Pass)
      else if x.restore then (removed, Fail)
      else (Folder(Some(f.previous[backup.value]), f.pending, f.previous - {backup.value}), Pass)
  }

  /** The folder, whether the activation succeeded, and the backup that its transaction knows of. */
  function Activated(f: Folder, staged: Name, backup: Name, x: ActivateFaults): (Folder, Outcome, Option<Name>)
    requires staged in f.pending
  {
    if f.config.Some? && x.backup then (RolledBack(f, false, None, x.undo).0, Fail, None)
    else
      var saved := if f.config.Some? then f.(config := None, previous := f.previous[backup := f.config.value]) else f;
      var known := if f.config.Some? then Some(backup) else None;
      if x.move then (RolledBack(saved, false, known, x.undo).0, Fail, known)
      else
        var moved := saved.(config := Some(f.pending[staged]), pending := f.pending - {staged});
        if x.protect then (RolledBack(moved, false, known, x.undo).0, Fail, known) else (moved, Pass, known)
  }

  datatype Verdict = Done | Retry | Thrown

  /**
   * What an attempt does after an error: a failed stop, rollback or removal throws, only a changed environment
   * retries.
   */
  function GivenUp(f: Folder, staged: Name, transaction: Option<Option<Name>>, a: Attempt, changed: bool)
    : (Folder, Verdict)
  {
    var back := if transaction.Some? then RolledBack(f, false, transaction.value, a.rollback) else (f, Pass);
    if back.1 == Fail then (back.0, Thrown)
    else
      var clean := Unstaged(back.0, staged, a.unstageFails);
      (clean.0, if clean.1 == Pass && changed && !a.stopFails then Retry else Thrown)
  }

  function Attempted(f: Folder, content: Content, staged: Name, backup: Name, a: Attempt): (Folder, Verdict)
    requires staged !in f.pending
  {
    var stage := Staged(f, content, staged, a.stage);
    if stage.1 == Fail then (stage.0, Thrown)
    else
      var active := Activated(stage.0, staged, backup, a.activate);
      if active.1 == Fail then GivenUp(active.0, staged, None, a, false)
      else if !a.body.Committing? || a.body.persist != Nothing then
        GivenUp(active.0, staged, Some(active.2), a, a.body.EnvironmentChanged?)
      else if active.2.Some? && !a.dropBackupFails then
        (active.0.(previous := active.0.previous - {backup}), Done)
      else (active.0, Done)
  }

  // ----- What an attempt guarantees

  /** The faults after which something is not as it was, although the attempt did not succeed. */
  predicate Harmful(a: Attempt, hadConfig: bool) {
    if !a.stage.write.Written? || a.stage.protect then
      !a.stage.write.Missed? && a.stage.remove
    else if hadConfig && a.activate.backup then
      !a.activate.undo.remove || a.unstageFails
    else if a.activate.move then
      (hadConfig && a.activate.undo.restore) || a.unstageFails
    else if a.activate.protect then
      a.activate.undo.remove || (hadConfig && a.activate.undo.restore)
    else
      a.rollback.remove || (hadConfig && a.rollback.restore)
  }

  predicate StageFails(x: StageFaults) {
    !x.write.Written? || x.protect
  }

  lemma FailedStage(f: Folder, content: Content, staged: Name, x: StageFaults)
    requires staged !in f.pending
    ensures Staged(f, content, staged, x).1 == Fail <==> StageFails(x)
    ensures StageFails(x) ==> (Staged(f, content, staged, x).0 == f <==> x.write.Missed? || !x.remove)
    ensures !StageFails(x) ==> Staged(f, content, staged, x).0 == f.(pending := f.pending[staged := content])
  {
    assert f.pending[staged := content] - {staged} == f.pending;
    if x.write.Torn? {
      assert f.pending[staged := x.write.part] - {staged} == f.pending;
    }
    assert f.pending - {staged} == f.pending;
  }

  /** The rest of an unsuccessful attempt, from the staged file on. */
  lemma FailedRest(f: Folder, content: Content, staged: Name, backup: Name, a: Attempt)
    requires staged !in f.pending && backup !in f.previous && !StageFails(a.stage)
    requires Attempted(f, content, staged, backup, a).1 != Done
    ensures Attempted(f, content, staged, backup, a).0 == f <==> !Harmful(a, f.config.Some?)
    ensures Attempted(f, content, staged, backup, a).1 == Retry ==> Attempted(f, content, staged, backup, a).0 == f
  {
    FailedStage(f, content, staged, a.stage);
    hide Staged;
    assert f.pending[staged := content] - {staged} == f.pending;
    assert f.pending - {staged} == f.pending;
    if f.config.Some? {
      var saved := f.previous[backup := f.config.value];
      assert saved - {backup} == f.previous && saved != f.previous by {
        assert backup in saved;
      }
    }
  }

  /** An unsuccessful attempt leaves the folder exactly as it was if and only if no harmful fault happened. */
  lemma UnsuccessfulAttempts(f: Folder, content: Content, staged: Name, backup: Name, a: Attempt)
    requires staged !in f.pending && backup !in f.previous
    requires Attempted(f, content, staged, backup, a).1 != Done
    ensures Attempted(f, content, staged, backup, a).0 == f <==> !Harmful(a, f.config.Some?)
    ensures Attempted(f, content, staged, backup, a).1 == Retry ==> Attempted(f, content, staged, backup, a).0 == f
  {
    if StageFails(a.stage) {
      FailedStage(f, content, staged, a.stage);
      hide Staged;
    } else {
      FailedRest(f, content, staged, backup, a);
      hide Attempted;
    }
  }

  /** The new file gets into place. */
  predicate Activates(a: Attempt, hadConfig: bool) {
    !StageFails(a.stage) && !(hadConfig && a.activate.backup) && !a.activate.move && !a.activate.protect
  }

  /** The attempt gets through: its file is in place and its state stored. */
  predicate Succeeds(a: Attempt, hadConfig: bool) {
    Activates(a, hadConfig) && a.body.Committing? && a.body.persist == Nothing
  }

  /** Only the environment changed, and the gateway was stopped and everything taken back. */
  predicate Repeats(a: Attempt, hadConfig: bool) {
    && Activates(a, hadConfig) && a.body.EnvironmentChanged? && !a.stopFails
    && !a.rollback.remove && !(hadConfig && a.rollback.restore)
  }

  /** How an attempt ends, by its faults alone. */
  lemma VerdictOfAttempt(f: Folder, content: Content, staged: Name, backup: Name, a: Attempt)
    requires staged !in f.pending
    ensures Attempted(f, content, staged, backup, a).1 == Done <==> Succeeds(a, f.config.Some?)
    ensures Attempted(f, content, staged, backup, a).1 == Retry <==> Repeats(a, f.config.Some?)
  {
    FailedStage(f, content, staged, a.stage);
    hide Staged;
    var there := f.pending[staged := content];
    assert staged in there && staged !in there - {staged};
  }

  /**
   * The old configuration is lost, being neither in place nor in a backup, exactly when its backup could not
   * be made: the rollback then removes the only copy.
   */
  lemma LostExactlyWithoutBackup(f: Folder, content: Content, staged: Name, backup: Name, a: Attempt)
    requires staged !in f.pending && backup !in f.previous && f.config.Some?
    requires Attempted(f, content, staged, backup, a).1 != Done
    ensures var after := Attempted(f, content, staged, backup, a).0;
            (after.config == f.config || (backup in after.previous && after.previous[backup] == f.config.value))
            <==> !(!StageFails(a.stage) && a.activate.backup && !a.activate.undo.remove)
  {
  }

  /** A successful attempt: the new configuration in place, nothing staged, and at most a stale backup more. */
  lemma SuccessfulAttempts(f: Folder, content: Content, staged: Name, backup: Name, a: Attempt)
    requires staged !in f.pending && backup !in f.previous
    requires Attempted(f, content, staged, backup, a).1 == Done
    ensures var after := Attempted(f, content, staged, backup, a).0;
            && after.config == Some(content) && after.pending == f.pending
            && after.previous == if f.config.Some? && a.dropBackupFails then f.previous[backup := f.config.value]
                                 else f.previous
  {
    assert f.pending[staged := content] - {staged} == f.pending;
    if f.config.Some? {
      assert f.previous[backup := f.config.value] - {backup} == f.previous;
    }
  }

  /** Whatever happens, an attempt leaves alone what other attempts staged or backed up. */
  lemma OthersUntouched(f: Folder, content: Content, staged: Name, backup: Name, a: Attempt)
    requires staged !in f.pending && backup !in f.previous
    ensures var after := Attempted(f, content, staged, backup, a).0;
            after.pending - {staged} == f.pending && after.previous - {backup} == f.previous
  {
    StageTouches(f, content, staged, a.stage);
    var stage := Staged(f, content, staged, a.stage);
    hide Staged;
    if stage.1 == Pass {
      ActivationTouches(stage.0, staged, backup, a.activate);
      var active := Activated(stage.0, staged, backup, a.activate);
      hide Activated;
      RollbackTouches(active.0, backup, active.2, a.rollback);
      hide RolledBack;
    }
  }

  lemma StageTouches(f: Folder, content: Content, staged: Name, x: StageFaults)
    requires staged !in f.pending
    ensures var after := Staged(f, content, staged, x);
            && after.0.pending - {staged} == f.pending && after.0.previous == f.previous
            && (after.1 == Pass ==> staged in after.0.pending)
  {
  }

  lemma RollbackTouches(f: Folder, backup: Name, known: Option<Name>, x: RollbackFaults)
    requires known in {None, Some(backup)}
    ensures var after := RolledBack(f, false, known, x).0;
            after.pending == f.pending && after.previous - {backup} == f.previous - {backup}
  {
  }

  lemma ActivationTouches(f: Folder, staged: Name, backup: Name, x: ActivateFaults)
    requires staged in f.pending && backup !in f.previous
    ensures var (after, outcome, known) := Activated(f, staged, backup, x);
            && known in {None, Some(backup)}
            && after.pending - {staged} == f.pending - {staged} && after.previous - {backup} == f.previous
  {
    assert f.previous - {backup} == f.previous;
  }

  lemma StagedIsPending(f: Folder, content: Content, staged: Name, x: StageFaults)
    requires staged !in f.pending
    ensures Staged(f, content, staged, x).1 == Pass ==> staged in Staged(f, content, staged, x).0.pending
    ensures Staged(f, content, staged, x).0.previous == f.previous
  {
  }

  /** The transaction knows the backup exactly when there was a configuration to back up. */
  lemma KnownBackup(f: Folder, content: Content, staged: Name, backup: Name, a: Attempt)
    requires staged !in f.pending && Staged(f, content, staged, a.stage).1 == Pass
    requires staged in Staged(f, content, staged, a.stage).0.pending
    requires Activated(Staged(f, content, staged, a.stage).0, staged, backup, a.activate).1 == Pass
    ensures Activated(Staged(f, content, staged, a.stage).0, staged, backup, a.activate).2
            == if f.config.Some? then Some(backup) else None
  {
  }

  // ----- The classes

  class GatewayConfigTransaction {
    var backupPath: Option<Name>
    var committed: bool

    constructor ()
      ensures backupPath == None && !committed
    {
      backupPath, committed := None, false;
    }
  }

  class ManagedGatewayConfigFiles {
    var config: Option<Content>
    var pending: map<Name, Content>
    var previous: map<Name, Content>

    function Now(): Folder
      reads this
    {
      Folder(config, pending, previous)
    }

    constructor (folder: Folder)
      ensures Now() == folder
    {
      config, pending, previous := folder.config, folder.pending, folder.previous;
    }

    method RemoveStaged(staged: Name, fails: bool) returns (r: Outcome)
      modifies this
      ensures (Now(), r) == Unstaged(old(Now()), staged, fails)
    {
      if staged in pending && fails {
        return Fail;
      }
      pending := pending - {staged};
      return Pass;
    }

    method Stage(content: Content, x: StageFaults) returns (r: Outcome, staged: Name)
      modifies this
      ensures staged !in old(pending)
      ensures (Now(), r) == Staged(old(Now()), content, staged, x)
    {
      staged := RandomName(pending.Keys);
      if x.write.Written? {
        pending := pending[staged := content];
        if !x.protect {
          return Pass, staged;
        }
      } else if x.write.Torn? {
        pending := pending[staged := x.write.part];
      }
      var _ := RemoveStaged(staged, x.remove);
      return Fail, staged;
    }

    method Rollback(transaction: GatewayConfigTransaction, x: RollbackFaults) returns (r: Outcome)
      modifies this
      ensures (Now(), r) == RolledBack(old(Now()), transaction.committed, transaction.backupPath, x)
    {
      if transaction.committed {
        return Pass;
      }
      if config.Some? && x.remove {
        return Fail;
      }
      config := None;
      if transaction.backupPath.Some? && transaction.backupPath.value in previous {
        if x.restore {
          return Fail;
        }
        config := Some(previous[transaction.backupPath.value]);
        previous := previous - {transaction.backupPath.value};
      }
      return Pass;
    }

    method Activate(staged: Name, x: ActivateFaults)
      returns (r: Outcome, transaction: GatewayConfigTransaction, ghost backup: Name)
      requires staged in pending
      modifies this
      ensures backup !in old(previous) && fresh(transaction) && !transaction.committed
      ensures (Now(), r, transaction.backupPath) == Activated(old(Now()), staged, backup, x)
    {
      var backupPath := RandomName(previous.Keys);
      backup := backupPath;
      transaction := new GatewayConfigTransaction();
      if config.Some? {
        if x.backup {
          var _ := Rollback(transaction, x.undo);
          return Fail, transaction, backup;
        }
        previous := previous[backupPath := config.value];
        config := None;
        transaction.backupPath := Some(backupPath);
      }
      if x.move {
        var _ := Rollback(transaction, x.undo);
        return Fail, transaction, backup;
      }
      config := Some(pending[staged]);
      pending := pending - {staged};
      if x.protect {
        var _ := Rollback(transaction, x.undo);
        return Fail, transaction, backup;
      }
      return Pass, transaction, backup;
    }

    method Commit(transaction: GatewayConfigTransaction, dropFails: bool)
      modifies this, transaction
      ensures transaction.committed && transaction.backupPath == old(transaction.backupPath)
      ensures Now() == if transaction.backupPath.Some? && !dropFails
                       then old(Now()).(previous := old(previous) - {transaction.backupPath.value}) else old(Now())
    {
      transaction.committed := true;
      if transaction.backupPath.Some? && !dropFails {
        previous := previous - {transaction.backupPath.value};
      }
    }
  }

  /** The state that ends up stored, whichever of the two ways the commit takes. */
  method CommitState(store: ManagedGatewayStateStore, persisted: ManagedGatewayPersistedProcess,
                     state: GatewayState, fault: Fault)
    returns (r: Outcome)
    requires persisted.store == store
    modifies store, persisted
    ensures r == Pass <==> fault == Nothing
    ensures r == Pass ==> Effective(store.Files()) == Some(state)
    ensures store.Files() == Persisted(StateStore.Loaded(old(store.Files()), false), state, fault)
  {
    var stored := store.Load(false);
    if state.process.Some? && state.process.value.phase.Ready?
       && stored.Some? && stored.value.process == Some(state.process.value.(phase := Starting)) {
      var starting := state.(process := Some(state.process.value.(phase := Starting)));
      var promoted := persisted.PromoteReady(starting, state.authorization, false, fault);
      return if promoted.Ok? then Pass else Fail;
    }
    r := store.Persist(state, fault);
  }

  class Gateway {
    const files: ManagedGatewayConfigFiles
    const store: ManagedGatewayStateStore
    const persistedProcess: ManagedGatewayPersistedProcess

    ghost predicate Valid() {
      persistedProcess.store == store
    }

    constructor (files: ManagedGatewayConfigFiles, store: ManagedGatewayStateStore)
      ensures Valid() && this.files == files && this.store == store
    {
      var p := new ManagedGatewayPersistedProcess(store);
      this.files, this.store, persistedProcess := files, store, p;
    }

    /** What an attempt does after an error. */
    method GiveUp(staged: Name, transaction: Option<GatewayConfigTransaction>, a: Attempt, changed: bool)
      returns (verdict: Verdict)
      requires transaction.Some? ==> !transaction.value.committed
      modifies files
      ensures verdict != Done
      ensures (files.Now(), verdict) == GivenUp(old(files.Now()), staged,
                if transaction.Some? then Some(transaction.value.backupPath) else None, a, changed)
    {
      if transaction.Some? {
        var back := files.Rollback(transaction.value, a.rollback);
        if back == Fail {
          return Thrown;
        }
      }
      var clean := files.RemoveStaged(staged, a.unstageFails);
      return if clean == Pass && changed && !a.stopFails then Retry else Thrown;
    }

    /** One turn of the loop of startWithStableEnvironment. */
    method RunAttempt(content: Content, a: Attempt) returns (verdict: Verdict, ghost staged: Name, ghost backup: Name)
      requires Valid()
      modifies files, store, persistedProcess
      ensures staged !in old(files.pending) && backup !in old(files.previous)
      ensures (files.Now(), verdict) == Attempted(old(files.Now()), content, staged, backup, a)
      ensures verdict == Done <==> Succeeds(a, old(files.config).Some?)
      ensures verdict == Retry <==> Repeats(a, old(files.config).Some?)
      ensures verdict == Done ==> Effective(store.Files()) == Some(a.body.state)
    {
      hide Attempted;
      ghost var before := files.Now();
      verdict, staged, backup := MakeAttempt(content, a);
      VerdictOfAttempt(before, content, staged, backup, a);
    }

    method MakeAttempt(content: Content, a: Attempt) returns (verdict: Verdict, ghost staged: Name, ghost backup: Name)
      requires Valid()
      modifies files, store, persistedProcess
      ensures staged !in old(files.pending) && backup !in old(files.previous)
      ensures (files.Now(), verdict) == Attempted(old(files.Now()), content, staged, backup, a)
      ensures verdict == Done ==> a.body.Committing? && Effective(store.Files()) == Some(a.body.state)
    {
      hide Staged;
      hide Activated;
      hide GivenUp;
      hide Effective;
      var stage, pendingPath := files.Stage(content, a.stage);
      staged := pendingPath;
      StagedIsPending(old(files.Now()), content, staged, a.stage);
      if stage == Fail {
        backup := RandomName(files.previous.Keys);
        return Thrown, staged, backup;
      }
      var active, transaction;
      active, transaction, backup := files.Activate(pendingPath, a.activate);
      if active == Fail {
        verdict := GiveUp(pendingPath, None, a, false);
        return verdict, staged, backup;
      }
      if a.body.Committing? {
        // What starting the gateway has stored by now.
        store.current, store.temporary := a.body.files.current, a.body.files.temporary;
        var saved := CommitState(store, persistedProcess, a.body.state, a.body.persist);
        if saved == Pass {
          files.Commit(transaction, a.dropBackupFails);
          KnownBackup(old(files.Now()), content, staged, backup, a);
          return Done, staged, backup;
        }
      }
      verdict := GiveUp(pendingPath, Some(transaction), a, a.body.EnvironmentChanged?);
    }

    /**
     * startWithStableEnvironment: every attempt but the last one tried is repeated, and the last one decides.
     * Success: the new configuration is in place, its state stored, nothing staged. Error: all files are as
     * before if and only if the last attempt met no harmful fault.
     */
    method StartWithStableEnvironment(content: Content, attempts: seq<Attempt>)
      returns (r: Result<GatewayState>, ghost tried: nat)
      requires Valid() && |attempts| >= 3
      modifies files, store, persistedProcess
      ensures 1 <= tried <= 3
      ensures forall i :: 0 <= i < tried - 1 ==> Repeats(attempts[i], old(files.config).Some?)
      ensures r.Ok? <==> Succeeds(attempts[tried - 1], old(files.config).Some?)
      ensures r.Err? && tried < 3 ==> !Repeats(attempts[tried - 1], old(files.config).Some?)
      ensures r.Ok? ==> files.config == Some(content) && files.pending == old(files.pending)
                        && Effective(store.Files()) == Some(r.value)
      ensures r.Ok? ==> r.value == attempts[tried - 1].body.state
      ensures r.Ok? && !attempts[tried - 1].dropBackupFails ==> files.previous == old(files.previous)
      ensures r.Err? ==> (files.Now() == old(files.Now()) <==> !Harmful(attempts[tried - 1], old(files.config).Some?))
    {
      tried := 0;
      for attempt := 0 to 3
        invariant tried == attempt
        invariant files.Now() == old(files.Now())
        invariant attempt > 0 ==> !Harmful(attempts[attempt - 1], old(files.config).Some?)
        invariant forall i :: 0 <= i < attempt ==> Repeats(attempts[i], old(files.config).Some?)
      {
        ghost var staged, backup;
        var verdict;
        tried := attempt + 1;
        verdict, staged, backup := RunAttempt(content, attempts[attempt]);
        if verdict == Done {
          SuccessfulAttempts(old(files.Now()), content, staged, backup, attempts[attempt]);
          return Ok(attempts[attempt].body.state), tried;
        }
        UnsuccessfulAttempts(old(files.Now()), content, staged, backup, attempts[attempt]);
        if verdict == Thrown {
          return Err, tried;
        }
      }
      return Err, tried;
    }
  }
}
