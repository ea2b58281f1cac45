/**
 * The startup model connection: one run at a time, whose progress is published as states. The clock may
 * repeat or go back, and any segment may run between two awaits.
 */
module StartupConnection {
  import opened Common

  datatype Phase = Idle | Connecting | Cancelling | Connected | Failed | Cancelled | Skipped | TimedOut

  datatype Reason = Shutdown | Timeout | User

  datatype RestoreOutcome = Restored | NotRestored | Withdrawn | NothingToRestore

  /** A published state, and the run that published it. */
  datatype Published = Published(run: nat, active: bool, phase: Phase, updatedAt: int)

  function CompletedPhase(outcome: RestoreOutcome): Phase {
    match outcome
    case Restored => Connected
    case NotRestored => Failed
    case Withdrawn => Cancelled
    case NothingToRestore => Skipped
  }

  predicate Terminal(p: Phase) {
    p != Idle && p != Connecting && p != Cancelling
  }

  // ----- What a sequence of published states looks like

  /** What may follow what: a run goes from connecting, at most once through cancelling, to one terminal phase. */
  predicate MayFollow(before: Published, after: Published) {
    && before.updatedAt < after.updatedAt
    && (after.active <==> after.phase in {Connecting, Cancelling})
    && if before.active then
         && after.run == before.run
         && (before.phase == Connecting ==> after.phase != Idle)
         && (before.phase == Cancelling ==> after.phase in {Cancelled, TimedOut})
       else
         after.run > before.run && after.phase == Connecting
  }

  predicate Proper(log: seq<Published>) {
    && log != [] && log[0].phase == Idle && !log[0].active && log[0].run == 0
    && forall k :: 0 < k < |log| ==> MayFollow(log[k - 1], log[k])
  }

  /** No published state is as old as an earlier one, whatever the clock did. */
  lemma {:induction false} TimesIncrease(log: seq<Published>, i: nat, k: nat)
    requires Proper(log) && i < k < |log|
    ensures log[i].updatedAt < log[k].updatedAt && log[i].run <= log[k].run
    ensures !log[i].active ==> log[i].run < log[k].run
    decreases k
  {
    if i < k - 1 {
      TimesIncrease(log, i, k - 1);
    }
  }

  /**
   * The states of one run: before its last comes no terminal one, after cancelling at once cancelled or
   * timed out, and so it never ends connected once a cancellation was accepted.
   */
  lemma RunShape(log: seq<Published>, i: nat, k: nat)
    requires Proper(log) && 0 < i < k < |log| && log[i].run == log[k].run
    ensures log[i].phase in {Connecting, Cancelling}
    ensures log[i].phase == Cancelling ==> k == i + 1 && log[k].phase in {Cancelled, TimedOut}
    ensures log[k].phase == Connected ==> log[i].phase == Connecting
  {
    TimesIncrease(log, i, k);
    assert MayFollow(log[i - 1], log[i]);
    assert MayFollow(log[i], log[i + 1]);
    if log[i].phase == Cancelling && i + 1 < k {
      TimesIncrease(log, i + 1, k);
    }
  }

  /** A run begins with connecting. */
  lemma RunBegins(log: seq<Published>, i: nat)
    requires Proper(log) && 0 < i < |log| && log[i - 1].run != log[i].run
    ensures log[i].phase == Connecting && !log[i - 1].active
  {
    assert MayFollow(log[i - 1], log[i]);
  }

  /** The clock, unless it did not get beyond the time published last. */
  function Later(now: int, last: int): int {
    if now > last then now else last + 1
  }

  // ----- The coordinator

  datatype Active = Active(run: nat, cancelReason: Option<Reason>, aborted: bool)

  class StartupModelConnectionCoordinator {
    var active: Option<Active>
    var state: Published
    var cancelAvailableAt: Option<int>
    var runs: nat
    // The runs whose operation has unwound.
    var completed: set<nat>
    ghost var log: seq<Published>

    ghost predicate Valid()
      reads this
    {
      && Proper(log) && log[|log| - 1] == state
      && state.run == runs
      && (active.Some? <==> state.active)
      && (active.Some? ==>
            && active.value.run == runs > 0 && runs !in completed
            && (active.value.aborted <==> active.value.cancelReason.Some?)
            && state.phase == if active.value.cancelReason.Some? then Cancelling else Connecting)
      && (forall r | r in completed :: 0 < r <= runs)
      && (forall r | r in completed :: TerminalPublished(r))
    }

    ghost predicate TerminalPublished(run: nat)
      reads this
    {
      exists k :: 0 <= k < |log| && log[k].run == run && Terminal(log[k].phase)
    }

    constructor (now: int)
      ensures Valid() && completed == {}
    {
      active, cancelAvailableAt, runs, completed := None, None, 0, {};
      state, log := Published(0, false, Idle, now), [Published(0, false, Idle, now)];
    }

    method Publish(next: Published)
      requires Proper(log) && log[|log| - 1] == state
      requires MayFollow(state, next.(updatedAt := state.updatedAt + 1))
      modifies this`state, this`log
      ensures state == next.(updatedAt := Later(next.updatedAt, old(state).updatedAt))
      ensures log == old(log) + [state] && Proper(log)
    {
      var least := state.updatedAt + 1;
      state := next.(updatedAt := if next.updatedAt >= least then next.updatedAt else least);
      log := log + [state];
    }

    /** run up to its operation; Err is the thrown error. */
    method Begin(cancelAfter: int, forceStopAfter: int, now: int) returns (r: Result<nat>)
      requires Valid()
      modifies this
      ensures Valid()
      ensures r.Err? <==> old(active).Some? || cancelAfter < 0 || forceStopAfter <= cancelAfter
      ensures completed == old(completed)
      ensures r.Err? ==> log == old(log) && active == old(active) && cancelAvailableAt == old(cancelAvailableAt)
      ensures r.Ok? ==>
                && log == old(log) + [state] && active == Some(Active(r.value, None, false)) && r.value !in completed
                && state == Published(r.value, true, Connecting, Later(now, old(state).updatedAt))
                && cancelAvailableAt == Some(now + cancelAfter)
    {
      if active.Some? || cancelAfter < 0 || forceStopAfter <= cancelAfter {
        return Err;
      }
      runs := runs + 1;
      active := Some(Active(runs, None, false));
      cancelAvailableAt := Some(now + cancelAfter);
      Publish(Published(runs, true, Connecting, now));
      assert forall k :: 0 <= k < |old(log)| ==> log[k] == old(log)[k];
      return Ok(runs);
    }

    /** updateDetail and updateProgress */
    method Update(run: nat, now: int)
      requires Valid()
      modifies this
      ensures Valid() && active == old(active) && completed == old(completed)
      ensures cancelAvailableAt == old(cancelAvailableAt)
      ensures old(active).Some? && old(active).value.run == run && old(active).value.cancelReason.None? ==>
                log == old(log) + [state] && state == Published(run, true, Connecting, Later(now, old(state).updatedAt))
      ensures !(old(active).Some? && old(active).value.run == run && old(active).value.cancelReason.None?) ==>
                log == old(log)
    {
      if active.None? || active.value.run != run || active.value.cancelReason.Some? {
        return;
      }
      Publish(state.(updatedAt := now));
      assert forall k :: 0 <= k < |old(log)| ==> log[k] == old(log)[k];
    }

    /** cancel up to its await: the run to wait for, or a refusal. */
    method Cancel(reason: Reason, now: int) returns (waitFor: Option<nat>)
      requires Valid()
      modifies this
      ensures Valid() && completed == old(completed)
      ensures waitFor.None? <==>
                || old(active).None?
                || (reason == User && old(cancelAvailableAt).Some? && now < old(cancelAvailableAt).value)
      ensures cancelAvailableAt == old(cancelAvailableAt)
      ensures waitFor.None? ==> log == old(log) && active == old(active)
      ensures waitFor.Some? && old(active).value.cancelReason.None? ==>
                && active == Some(Active(waitFor.value, Some(reason), true)) && log == old(log) + [state]
                && state == Published(waitFor.value, true, Cancelling, Later(now, old(state).updatedAt))
      ensures waitFor.Some? ==> active.Some? && waitFor.value == active.value.run == state.run
                                && active.value.cancelReason.Some? && state.phase == Cancelling
      ensures waitFor.Some? && old(active).value.cancelReason.Some? ==> log == old(log) && active == old(active)
    {
      if active.None? {
        return None;
      }
      if reason == User && cancelAvailableAt.Some? && now < cancelAvailableAt.value {
        return None;
      }
      if active.value.cancelReason.None? {
        active := Some(active.value.(cancelReason := Some(reason), aborted := true));
        Publish(state.(active := true, phase := Cancelling, updatedAt := now));
        assert forall k :: 0 <= k < |old(log)| ==> log[k] == old(log)[k];
      }
      return Some(active.value.run);
    }

    /** The end of run, after its operation answered or threw (None). */
    method Finish(run: nat, answer: Option<RestoreOutcome>, now: int) returns (outcome: Option<RestoreOutcome>)
      requires Valid() && active.Some? && active.value.run == run
      modifies this
      ensures Valid() && active.None? && completed == old(completed) + {run}
      ensures log == old(log) + [state] && Terminal(state.phase)
      ensures state == Published(run, false, state.phase, Later(now, old(state).updatedAt))
      ensures old(active).value.cancelReason.Some? ==>
                outcome == Some(Withdrawn)
                && state.phase == if old(active).value.cancelReason == Some(Timeout) then TimedOut else Cancelled
      ensures old(active).value.cancelReason.None? ==>
                outcome == answer && state.phase == if answer.Some? then CompletedPhase(answer.value) else Failed
      ensures state.phase == Connected <==> old(active).value.cancelReason.None? && answer == Some(Restored)
      ensures state.phase == Skipped <==> old(active).value.cancelReason.None? && answer == Some(NothingToRestore)
      ensures state.phase == Failed <==>
                old(active).value.cancelReason.None? && (answer.None? || answer == Some(NotRestored))
    {
      var cancelReason, aborted := active.value.cancelReason, active.value.aborted;
      outcome := answer;
      if aborted {
        outcome := Some(Withdrawn);
      }
      active := None;
      var phase;
      if cancelReason.Some? {
        phase := if cancelReason.value == Timeout then TimedOut else Cancelled;
      } else {
        phase := CompletedPhase(if outcome.Some? then outcome.value else NotRestored);
      }
      Publish(Published(run, false, phase, now));
      completed := completed + {run};
      assert forall k :: 0 <= k < |old(log)| ==> log[k] == old(log)[k];
      assert log[|log| - 1] == state;
      assert TerminalPublished(run);
      forall r | r in old(completed) ensures TerminalPublished(r) {
        var k :| 0 <= k < |old(log)| && old(log)[k].run == r && Terminal(old(log)[k].phase);
        assert log[k] == old(log)[k];
      }
    }

    /**
     * cancel after its await: it answers exactly once the run it waits for has unwound, so what it shows is not
     * older than the terminal state of that run.
     */
    method CancelReturns(waitedFor: nat) returns (shown: Option<Published>)
      requires Valid()
      ensures shown.Some? <==> waitedFor in completed
      ensures shown.Some? ==>
                && shown.value == log[|log| - 1] && shown.value.run >= waitedFor
                && exists k :: 0 <= k < |log| && log[k].run == waitedFor && Terminal(log[k].phase)
                               && log[k].updatedAt <= shown.value.updatedAt
    {
      if waitedFor !in completed {
        return None;
      }
      ghost var k :| 0 <= k < |log| && log[k].run == waitedFor && Terminal(log[k].phase);
      if k < |log| - 1 {
        TimesIncrease(log, k, |log| - 1);
      }
      return Some(state);
    }
  }
}
