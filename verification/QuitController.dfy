/**
 * Leaving the application: ask, clean up under a budget, release the runtimes. A run is any sequence of
 * calls; each call is one segment between two awaits, or one callback, and callbacks of superseded
 * confirmations and of cleanups that outlived their budget may still come.
 */
module QuitController {
  import opened Common

  datatype Mode = Ordinary | Residual

  datatype Owner = Native | Renderer

  datatype Confirmation = Confirmation(id: nat, mode: Mode, owner: Owner)

  /** What a cleanup reports: whether closing conversations or processes failed, and what is left running. */
  datatype Findings = Findings(conversationFailed: bool, processFailed: bool, residual: nat)

  predicate Clean(f: Findings) {
    !f.conversationFailed && !f.processFailed && f.residual == 0
  }

  /** Why a controlled quit goes on to its end. */
  datatype Cause = CleanedUp(findings: Findings) | BudgetElapsed | CleanupThrew

  datatype Decision = Retry | Minimize | Yes | No

  /** A controlled quit that was begun, and whether residual processes are accepted. */
  datatype Quit = Quit(id: nat, force: bool)

  datatype Event =
    | Asked(confirmation: Confirmation)
    | Accepted(id: nat)
    | Began(quit: Quit)
    | Found(quit: Quit, findings: Findings)
    | Ended(quit: Quit)
    | RuntimeShutdown
    | Finished(quit: Quit, cause: Cause)
    | Latched
    | Released

  type Log = seq<Event>

  /** How a question can be put: in the window, only by the system, or with an error on the way. */
  datatype Window = Usable | Unusable | Failing

  // ----- The calls, as functions on the state

  /**
   * The quit whose cleanup is awaited, the quits whose cleanup outlived the budget, and the supplies of
   * request identifiers and of quits, beside the flags of the source. The log tells what happened.
   */
  datatype Main = Main(
    isQuitting: bool,
    cleanup: Option<Quit>,
    detached: set<Quit>,
    confirmation: Option<Confirmation>,
    shutdownDone: bool,
    issued: nat,
    begun: nat,
    log: Log)

  const START: Main := Main(false, None, {}, None, false, 0, 0, [])

  function Noted(m: Main, e: Event): Main {
    m.(log := m.log + [e])
  }

  function WithQuestion(m: Main, mode: Mode, owner: Owner): Main {
    var confirmation := Confirmation(m.issued, mode, owner);
    Noted(m.(issued := m.issued + 1, confirmation := Some(confirmation)), Asked(confirmation))
  }

  function WithNativeFallback(m: Main): Main {
    if m.isQuitting then m else WithQuestion(m.(confirmation := None), Residual, Native)
  }

  function WithCleanupQuestion(m: Main, window: Window): Main {
    if window == Usable && !m.isQuitting then WithQuestion(m, Residual, Renderer)
    else WithNativeFallback(if window == Failing then m.(confirmation := None) else m)
  }

  function WithQuit(m: Main, force: bool): Main {
    if m.isQuitting || m.cleanup.Some? then m
    else
      var quit := Quit(m.begun, force);
      Noted(m.(begun := m.begun + 1, cleanup := Some(quit), confirmation := None), Began(quit))
  }

  function WithShutdown(m: Main): Main {
    if m.shutdownDone then m else Noted(m.(shutdownDone := true), RuntimeShutdown)
  }

  function WithEnd(m: Main, quit: Quit, cause: Cause): Main {
    if m.isQuitting then m else Noted(WithShutdown(m), Finished(quit, cause)).(isQuitting := true)
  }

  function Over(m: Main, quit: Quit): Main {
    Noted(m, Ended(quit)).(cleanup := None)
  }

  function CleanupEnded(m: Main, found: Option<Findings>, window: Window): Main
    requires m.cleanup.Some?
  {
    var quit := m.cleanup.value;
    if found.None? then Over(WithEnd(m, quit, CleanupThrew), quit)
    else
      var told := Noted(m, Found(quit, found.value));
      if !quit.force && !Clean(found.value) && !m.isQuitting then Over(WithCleanupQuestion(told, window), quit)
      else if !quit.force && !Clean(found.value) then
        Over(WithEnd(WithCleanupQuestion(told, window), quit, CleanedUp(found.value)), quit)
      else Over(WithEnd(told, quit, CleanedUp(found.value)), quit)
  }

  function BudgetEnded(m: Main): Main
    requires m.cleanup.Some?
  {
    var quit := m.cleanup.value;
    Over(WithEnd(m, quit, BudgetElapsed), quit).(detached := m.detached + {quit})
  }

  function DetachedEnded(m: Main, quit: Quit, found: Findings, window: Window): Main {
    var told := Noted(m.(detached := m.detached - {quit}), Found(quit, found));
    if !quit.force && !Clean(found) then WithCleanupQuestion(told, window) else told
  }

  function QuitRequested(m: Main, window: Window): Main {
    if m.isQuitting || m.cleanup.Some? then m
    else if window == Usable && m.confirmation.None? then WithQuestion(m, Ordinary, Renderer)
    else WithQuit(m.(confirmation := None), false)
  }

  /** The decision that the window sends; it must echo the identifier of the current question. */
  function QuitConfirmed(m: Main, id: nat, decision: Decision): Main {
    if m.confirmation.None? || m.confirmation.value.owner != Renderer || m.confirmation.value.id != id
       || (m.confirmation.value.mode == Ordinary && decision == Retry)
       || (m.confirmation.value.mode == Residual && (decision == No || decision == Minimize)) then m
    else
      var mode := m.confirmation.value.mode;
      var closed := m.(confirmation := None);
      if decision == No || decision == Minimize then closed
      else WithQuit(Noted(closed, Accepted(id)), decision == Yes && mode == Residual)
  }

  function NativeAnswered(m: Main, id: nat, force: bool): Main {
    if m.isQuitting || m.confirmation.None? || m.confirmation.value.id != id
       || m.confirmation.value.owner != Native || m.confirmation.value.mode != Residual then m
    else WithQuit(Noted(m.(confirmation := None), Accepted(id)), force)
  }

  function NativeFailed(m: Main, id: nat): Main {
    if m.confirmation.Some? && m.confirmation.value.id == id then m.(confirmation := None) else m
  }

  function DeliveryTimedOut(m: Main, id: nat, mode: Mode): Main {
    if m.confirmation.None? || m.confirmation.value.id != id then m
    else if mode == Residual then WithNativeFallback(m.(confirmation := None))
    else WithQuit(m.(confirmation := None), false)
  }

  function RendererLost(m: Main): Main {
    if m.confirmation.Some? && m.confirmation.value.owner == Renderer then m.(confirmation := None) else m
  }

  datatype Call =
    | RequestQuit(window: Window)
    | ConfirmQuit(id: nat, decision: Decision)
    | AnswerNative(id: nat, force: bool)
    | NativeFails(id: nat)
    | DeliveryTimesOut(id: nat, mode: Mode)
    | CleanupEnds(found: Option<Findings>, window: Window)
    | BudgetEnds
    | DetachedEnds(quit: Quit, findings: Findings, window: Window)
    | ShutdownRuntime
    | RendererGone
    | SessionEnds
    | InstallerLatches
    | InstallerFails

  /** A cleanup ends only if it was begun, and a timer belongs to a question that was put. */
  predicate Enabled(m: Main, c: Call) {
    match c
    case CleanupEnds(_, _) => m.cleanup.Some?
    case BudgetEnds => m.cleanup.Some?
    case DetachedEnds(quit, _, _) => quit in m.detached
    case DeliveryTimesOut(id, mode) => Asked(Confirmation(id, mode, Renderer)) in Told(m.log)
    case _ => true
  }

  function Next(m: Main, c: Call): Main
    requires Enabled(m, c)
  {
    match c
    case RequestQuit(window) => QuitRequested(m, window)
    case ConfirmQuit(id, decision) => QuitConfirmed(m, id, decision)
    case AnswerNative(id, force) => NativeAnswered(m, id, force)
    case NativeFails(id) => NativeFailed(m, id)
    case DeliveryTimesOut(id, mode) => DeliveryTimedOut(m, id, mode)
    case CleanupEnds(found, window) => CleanupEnded(m, found, window)
    case BudgetEnds => BudgetEnded(m)
    case DetachedEnds(quit, findings, window) => DetachedEnded(m, quit, findings, window)
    case ShutdownRuntime => WithShutdown(m)
    case RendererGone => RendererLost(m)
    case SessionEnds => Noted(m, Latched).(isQuitting := true, confirmation := None)
    case InstallerLatches => Noted(m, Latched).(isQuitting := true)
    case InstallerFails => Noted(m, Released).(isQuitting := false)
  }

  predicate IsRun(run: seq<Call>)
    decreases |run|, 0
  {
    run == [] || (IsRun(run[..|run| - 1]) && Enabled(After(run[..|run| - 1]), run[|run| - 1]))
  }

  function After(run: seq<Call>): Main
    requires IsRun(run)
    decreases |run|, 1
  {
    if run == [] then START else Next(After(run[..|run| - 1]), run[|run| - 1])
  }

  // ----- What a log tells

  /** Whether the latch is set at the end of a log. */
  predicate Quitting(log: Log) {
    log != [] &&
    match log[|log| - 1]
    case Latched => true
    case Finished(_, _) => true
    case Released => false
    case _ => Quitting(log[..|log| - 1])
  }

  /** The quit that was begun and did not end yet. */
  function Running(log: Log): Option<Quit> {
    if log == [] then None
    else match log[|log| - 1]
      case Began(quit) => Some(quit)
      case Ended(_) => None
      case _ => Running(log[..|log| - 1])
  }

  function Told(log: Log): set<Event> {
    set e | e in log
  }

  ghost predicate IdAsked(log: Log, id: nat) {
    exists c: Confirmation :: c.id == id && Asked(c) in Told(log)
  }

  ghost predicate ResidualAsked(log: Log, id: nat) {
    exists c: Confirmation :: c.id == id && c.mode == Residual && Asked(c) in Told(log)
  }

  ghost predicate IdBegun(log: Log, id: nat) {
    exists force: bool :: Began(Quit(id, force)) in Told(log)
  }

  ghost predicate QuitFinished(log: Log, quit: Quit) {
    exists cause: Cause :: Finished(quit, cause) in Told(log)
  }

  /** An unforced cleanup found something. */
  ghost predicate DirtyFound(log: Log) {
    exists quit: Quit, f: Findings :: !quit.force && !Clean(f) && Found(quit, f) in Told(log)
  }

  /** What must have happened before an event. The theorem is that it has, in every run. */
  ghost predicate Justified(log: Log, e: Event) {
    match e
    case Asked(c) => !Quitting(log) && !IdAsked(log, c.id) && (c.mode == Residual ==> DirtyFound(log))
    case Began(quit) =>
      && Running(log).None? && !IdBegun(log, quit.id)
      && (quit.force ==> log != [] && log[|log| - 1].Accepted? && ResidualAsked(log, log[|log| - 1].id))
    case Found(quit, _) => Began(quit) in Told(log)
    case Ended(quit) => Running(log) == Some(quit)
    case RuntimeShutdown => RuntimeShutdown !in Told(log)
    case Finished(quit, cause) =>
      && !Quitting(log) && Running(log) == Some(quit) && !QuitFinished(log, quit) && RuntimeShutdown in Told(log)
      && (cause.CleanedUp? ==> Found(quit, cause.findings) in Told(log) && (quit.force || Clean(cause.findings)))
    case _ => true
  }

  ghost predicate Lawful(log: Log) {
    forall n :: 0 <= n < |log| ==> Justified(log[..n], log[n])
  }

  ghost predicate Consistent(m: Main) {
    && Lawful(m.log)
    && m.isQuitting == Quitting(m.log) && m.cleanup == Running(m.log)
    && (m.cleanup.Some? ==> Began(m.cleanup.value) in Told(m.log))
    && (forall c | Asked(c) in Told(m.log) :: c.id < m.issued)
    && (forall quit | Began(quit) in Told(m.log) :: quit.id < m.begun)
    && (forall quit: Quit | QuitFinished(m.log, quit) :: quit.id < m.begun)
    && (m.cleanup.Some? ==> !QuitFinished(m.log, m.cleanup.value))
    && (forall quit | quit in m.detached :: Began(quit) in Told(m.log))
    && (m.confirmation.Some? ==> Asked(m.confirmation.value) in Told(m.log))
    && (m.confirmation.Some? && m.confirmation.value.mode == Residual ==> DirtyFound(m.log))
    && (m.shutdownDone <==> RuntimeShutdown in Told(m.log))
  }

  lemma LawfulExtends(log: Log, e: Event)
    requires Lawful(log) && Justified(log, e)
    ensures Lawful(log + [e])
  {
    hide Justified;
    var longer := log + [e];
    assert longer[..|log|] == log;
    forall n | 0 <= n < |longer| ensures Justified(longer[..n], longer[n]) {
      if n < |log| {
        assert longer[..n] == log[..n];
      }
    }
  }

  lemma ToldMore(log: Log, e: Event)
    ensures Told(log + [e]) == Told(log) + {e}
    ensures (log + [e])[..|log|] == log
  {
  }

  lemma FinishedMore(log: Log, e: Event)
    ensures forall quit: Quit ::
              QuitFinished(log + [e], quit) <==> QuitFinished(log, quit) || (e.Finished? && e.quit == quit)
  {
    ToldMore(log, e);
    forall quit: Quit
      ensures QuitFinished(log + [e], quit) <==> QuitFinished(log, quit) || (e.Finished? && e.quit == quit)
    {
      if e.Finished? && e.quit == quit {
        assert Finished(quit, e.cause) in Told(log + [e]);
      }
    }
  }

  lemma DirtyMore(log: Log, e: Event)
    ensures DirtyFound(log) ==> DirtyFound(log + [e])
    ensures e.Found? && !e.quit.force && !Clean(e.findings) ==> DirtyFound(log + [e])
  {
    ToldMore(log, e);
    hide Told;
    hide Clean;
    if DirtyFound(log) {
      var quit: Quit, f: Findings :| !quit.force && !Clean(f) && Found(quit, f) in Told(log);
      assert Found(quit, f) in Told(log + [e]);
    }
    if e.Found? && !e.quit.force && !Clean(e.findings) {
      assert Found(e.quit, e.findings) in Told(log + [e]);
    }
  }

  lemma LatchMore(log: Log, e: Event)
    ensures Quitting(log + [e]) == (e.Latched? || e.Finished? || (!e.Released? && Quitting(log)))
    ensures Running(log + [e]) == if e.Began? then Some(e.quit) else if e.Ended? then None else Running(log)
  {
    assert (log + [e])[..|log|] == log;
  }

  /** Noting an event keeps what the log told. */
  lemma NotedKeeps(log: Log, e: Event)
    requires Lawful(log) && Justified(log, e)
    ensures Lawful(log + [e]) && Told(log + [e]) == Told(log) + {e}
    ensures DirtyFound(log) ==> DirtyFound(log + [e])
    ensures e.Found? && !e.quit.force && !Clean(e.findings) ==> DirtyFound(log + [e])
    ensures Quitting(log + [e]) == (e.Latched? || e.Finished? || (!e.Released? && Quitting(log)))
    ensures Running(log + [e]) == if e.Began? then Some(e.quit) else if e.Ended? then None else Running(log)
    ensures forall quit: Quit ::
              QuitFinished(log + [e], quit) <==> QuitFinished(log, quit) || (e.Finished? && e.quit == quit)
  {
    LawfulExtends(log, e);
    ToldMore(log, e);
    FinishedMore(log, e);
    DirtyMore(log, e);
    LatchMore(log, e);
    hide *;
  }

  lemma QuestionKeeps(m: Main, mode: Mode, owner: Owner)
    requires Consistent(m) && !m.isQuitting && (mode == Residual ==> DirtyFound(m.log))
    ensures Consistent(WithQuestion(m, mode, owner)) && Told(m.log) <= Told(WithQuestion(m, mode, owner).log)
  {
    hide Told;
    hide Lawful;
    hide Quitting;
    hide Running;
    hide QuitFinished;
    hide DirtyFound;
    NotedKeeps(m.log, Asked(Confirmation(m.issued, mode, owner)));
  }

  lemma CleanupQuestionKeeps(m: Main, window: Window)
    requires Consistent(m) && DirtyFound(m.log)
    ensures Consistent(WithCleanupQuestion(m, window))
    ensures WithCleanupQuestion(m, window).cleanup == m.cleanup
    ensures Told(m.log) <= Told(WithCleanupQuestion(m, window).log)
    ensures m.isQuitting ==> WithCleanupQuestion(m, window).log == m.log
  {
    hide Told;
    hide Lawful;
    hide Quitting;
    hide Running;
    hide QuitFinished;
    hide DirtyFound;
    if window == Usable && !m.isQuitting {
      QuestionKeeps(m, Residual, Renderer);
    } else if !m.isQuitting {
      QuestionKeeps(m.(confirmation := None), Residual, Native);
    }
  }

  lemma QuitKeeps(m: Main, force: bool)
    requires Consistent(m)
    requires force ==> m.log != [] && m.log[|m.log| - 1].Accepted? && ResidualAsked(m.log, m.log[|m.log| - 1].id)
    ensures Consistent(WithQuit(m, force))
  {
    hide Told;
    hide Lawful;
    hide Quitting;
    hide Running;
    hide QuitFinished;
    hide DirtyFound;
    if !m.isQuitting && m.cleanup.None? {
      NotedKeeps(m.log, Began(Quit(m.begun, force)));
    }
    hide ResidualAsked;
  }

  /** An accepted answer closes the question and begins a quit, a forced one only for a residual question. */
  lemma AnswerKeeps(m: Main, force: bool)
    requires Consistent(m) && m.confirmation.Some? && (force ==> m.confirmation.value.mode == Residual)
    ensures Consistent(WithQuit(Noted(m.(confirmation := None), Accepted(m.confirmation.value.id)), force))
  {
    hide Told;
    hide Lawful;
    hide Quitting;
    hide Running;
    hide QuitFinished;
    hide DirtyFound;
    var c := m.confirmation.value;
    NotedKeeps(m.log, Accepted(c.id));
    var answered := Noted(m.(confirmation := None), Accepted(c.id));
    assert Asked(c) in Told(answered.log);
    assert force ==> ResidualAsked(answered.log, c.id);
    QuitKeeps(answered, force);
  }

  lemma ShutdownKeeps(m: Main)
    requires Consistent(m)
    ensures Consistent(WithShutdown(m)) && Told(m.log) <= Told(WithShutdown(m).log)
  {
    hide Told;
    hide Lawful;
    hide Quitting;
    hide Running;
    hide QuitFinished;
    hide DirtyFound;
    if !m.shutdownDone {
      NotedKeeps(m.log, RuntimeShutdown);
    }
  }

  /** The end of the quit, if none came before, and of its cleanup. */
  lemma EndKeeps(m: Main, quit: Quit, cause: Cause)
    requires Consistent(m) && m.cleanup == Some(quit)
    requires !m.isQuitting && cause.CleanedUp? ==>
               Found(quit, cause.findings) in Told(m.log) && (quit.force || Clean(cause.findings))
    ensures Consistent(Over(WithEnd(m, quit, cause), quit))
    ensures Told(m.log) <= Told(Over(WithEnd(m, quit, cause), quit).log)
  {
    hide Told;
    hide Lawful;
    hide Quitting;
    hide Running;
    hide QuitFinished;
    hide DirtyFound;
    if !m.isQuitting {
      ShutdownKeeps(m);
      NotedKeeps(WithShutdown(m).log, Finished(quit, cause));
    }
    NotedKeeps(WithEnd(m, quit, cause).log, Ended(quit));
  }

  lemma OverKeeps(m: Main, quit: Quit)
    requires Consistent(m) && m.cleanup == Some(quit)
    ensures Consistent(Over(m, quit))
  {
    hide Told;
    hide Lawful;
    hide Quitting;
    hide Running;
    hide QuitFinished;
    hide DirtyFound;
    NotedKeeps(m.log, Ended(quit));
  }

  lemma FoundKeeps(m: Main, quit: Quit, f: Findings)
    requires Consistent(m) && Began(quit) in Told(m.log)
    ensures Consistent(Noted(m, Found(quit, f)))
    ensures !quit.force && !Clean(f) ==> DirtyFound(Noted(m, Found(quit, f)).log)
  {
    hide Told;
    hide Lawful;
    hide Quitting;
    hide Running;
    hide QuitFinished;
    hide DirtyFound;
    NotedKeeps(m.log, Found(quit, f));
  }

  lemma CleanupEndKeeps(m: Main, found: Option<Findings>, window: Window)
    requires Consistent(m) && m.cleanup.Some?
    ensures Consistent(CleanupEnded(m, found, window))
  {
    hide Consistent;
    assert Began(m.cleanup.value) in Told(m.log) by {
      BegunIsLogged(m);
    }
    var quit := m.cleanup.value;
    if found.None? {
      EndKeeps(m, quit, CleanupThrew);
    } else {
      var told := Noted(m, Found(quit, found.value));
      FoundKeeps(m, quit, found.value);
      if !quit.force && !Clean(found.value) {
        CleanupQuestionKeeps(told, window);
        var asked := WithCleanupQuestion(told, window);
        if m.isQuitting {
          EndKeeps(asked, quit, CleanedUp(found.value));
        } else {
          OverKeeps(asked, quit);
        }
      } else {
        EndKeeps(told, quit, CleanedUp(found.value));
      }
    }
  }

  lemma BegunIsLogged(m: Main)
    requires Consistent(m) && m.cleanup.Some?
    ensures Began(m.cleanup.value) in Told(m.log)
  {
  }

  lemma BudgetEndKeeps(m: Main)
    requires Consistent(m) && m.cleanup.Some?
    ensures Consistent(BudgetEnded(m))
  {
    hide Told;
    hide Lawful;
    hide Quitting;
    hide Running;
    hide QuitFinished;
    hide DirtyFound;
    var quit := m.cleanup.value;
    EndKeeps(m, quit, BudgetElapsed);
    assert WithEnd(m, quit, BudgetElapsed).detached == m.detached;
  }

  lemma DetachedEndKeeps(m: Main, quit: Quit, found: Findings, window: Window)
    requires Consistent(m) && quit in m.detached
    ensures Consistent(DetachedEnded(m, quit, found, window))
  {
    hide Told;
    hide Lawful;
    hide Quitting;
    hide Running;
    hide QuitFinished;
    hide DirtyFound;
    var left := m.(detached := m.detached - {quit});
    FoundKeeps(left, quit, found);
    if !quit.force && !Clean(found) {
      CleanupQuestionKeeps(Noted(left, Found(quit, found)), window);
    }
  }

  lemma LatchKeeps(m: Main, e: Event)
    requires Consistent(m) && (e.Latched? || e.Released?)
    ensures Consistent(Noted(m, e).(isQuitting := e.Latched?))
    ensures Consistent(Noted(m, e).(isQuitting := e.Latched?, confirmation := None))
  {
    hide Told;
    hide Lawful;
    hide Quitting;
    hide Running;
    hide QuitFinished;
    hide DirtyFound;
    NotedKeeps(m.log, e);
  }

  /** A timer that still finds its question is a timer of a question of that mode. */
  lemma TimerKeeps(m: Main, id: nat, mode: Mode)
    requires Consistent(m) && Asked(Confirmation(id, mode, Renderer)) in Told(m.log)
    ensures Consistent(DeliveryTimedOut(m, id, mode))
  {
    hide Told;
    hide Lawful;
    hide Quitting;
    hide Running;
    hide QuitFinished;
    hide DirtyFound;
    if m.confirmation.Some? && m.confirmation.value.id == id {
      SameConfirmation(m.log, Confirmation(id, mode, Renderer), m.confirmation.value);
      var closed := m.(confirmation := None);
      if mode == Residual {
        if !m.isQuitting {
          QuestionKeeps(closed, Residual, Native);
        }
      } else {
        QuitKeeps(closed, false);
      }
    }
  }

  lemma StepKeeps(m: Main, c: Call)
    requires Consistent(m) && Enabled(m, c)
    ensures Consistent(Next(m, c))
  {
    hide Told;
    hide Lawful;
    hide Quitting;
    hide Running;
    hide QuitFinished;
    hide DirtyFound;
    match c
    case RequestQuit(window) =>
      if !m.isQuitting && m.cleanup.None? {
        if window == Usable && m.confirmation.None? {
          QuestionKeeps(m, Ordinary, Renderer);
        } else {
          QuitKeeps(m.(confirmation := None), false);
        }
      }
    case ConfirmQuit(id, decision) =>
      if m.confirmation.Some? && (decision == Retry || decision == Yes) {
        AnswerKeeps(m, decision == Yes && m.confirmation.value.mode == Residual);
      }
    case AnswerNative(id, force) =>
      if m.confirmation.Some? && m.confirmation.value.mode == Residual {
        AnswerKeeps(m, force);
      }
    case DeliveryTimesOut(id, mode) => TimerKeeps(m, id, mode);
    case CleanupEnds(found, window) => CleanupEndKeeps(m, found, window);
    case BudgetEnds => BudgetEndKeeps(m);
    case DetachedEnds(quit, findings, window) => DetachedEndKeeps(m, quit, findings, window);
    case ShutdownRuntime => ShutdownKeeps(m);
    case SessionEnds => LatchKeeps(m, Latched);
    case InstallerLatches => LatchKeeps(m, Latched);
    case InstallerFails => LatchKeeps(m, Released);
    case _ =>
  }

  // ----- What every run satisfies

  lemma {:induction false} EveryRunIsConsistent(run: seq<Call>)
    requires IsRun(run)
    ensures Consistent(After(run))
    decreases |run|
  {
    if run != [] {
      EveryRunIsConsistent(run[..|run| - 1]);
      StepKeeps(After(run[..|run| - 1]), run[|run| - 1]);
    }
  }

  lemma AskedOnce(log: Log, i: nat, k: nat)
    requires Lawful(log) && i < k < |log| && log[i].Asked? && log[k].Asked?
    ensures log[i].confirmation.id != log[k].confirmation.id
  {
    assert Justified(log[..k], log[k]);
    assert log[..k][i] == log[i];
    assert Asked(log[i].confirmation) in Told(log[..k]);
  }

  /** An identifier names one question. */
  lemma SameConfirmation(log: Log, c: Confirmation, d: Confirmation)
    requires Lawful(log) && Asked(c) in Told(log) && Asked(d) in Told(log) && c.id == d.id
    ensures c == d
  {
    hide Lawful;
    var i :| 0 <= i < |log| && log[i] == Asked(c);
    var k :| 0 <= k < |log| && log[k] == Asked(d);
    if i < k {
      AskedOnce(log, i, k);
    } else if k < i {
      AskedOnce(log, k, i);
    }
  }

  /** A running quit was begun and nothing ended or began since. */
  lemma {:induction false} RunningWasBegun(log: Log) returns (b: nat)
    requires Running(log).Some?
    ensures b < |log| && log[b] == Began(Running(log).value)
    ensures forall k :: b < k < |log| ==> !log[k].Ended? && !log[k].Began?
    decreases |log|
  {
    if log[|log| - 1].Began? {
      b := |log| - 1;
    } else {
      b := RunningWasBegun(log[..|log| - 1]);
    }
  }

  lemma BegunOnce(log: Log, i: nat, k: nat)
    requires Lawful(log) && i < k < |log| && log[i].Began? && log[k].Began?
    ensures log[i].quit.id != log[k].quit.id
  {
    assert Justified(log[..k], log[k]);
    assert log[..k][i] == log[i];
    var quit := log[i].quit;
    assert Began(Quit(quit.id, quit.force)) in Told(log[..k]);
  }

  lemma FoundAfterBegun(log: Log, begun: nat, k: nat)
    requires Lawful(log) && begun < |log| && k < |log| && log[k].Found? && log[begun] == Began(log[k].quit)
    ensures begun < k
  {
    assert Justified(log[..k], log[k]);
    hide Lawful;
    var b: int :| 0 <= b < k && log[..k][b] == Began(log[k].quit);
    BegunAt(log, b, begun);
  }

  lemma BegunAt(log: Log, i: int, k: int)
    requires Lawful(log) && 0 <= i < |log| && 0 <= k < |log|
    requires log[i].Began? && log[k].Began? && log[i].quit.id == log[k].quit.id
    ensures i == k
  {
    hide Lawful;
    if i < k {
      BegunOnce(log, i, k);
    } else if k < i {
      BegunOnce(log, k, i);
    }
  }

  lemma EndsOfLog(log: Log, n: nat) returns (begun: nat)
    requires Lawful(log) && n < |log| && log[n].Finished?
    ensures begun < n && log[begun] == Began(log[n].quit)
    ensures forall k :: begun < k < n ==> !log[k].Ended? && !log[k].Began?
    ensures log[n].cause.CleanedUp? ==> exists k :: begun < k < n && log[k] == Found(log[n].quit, log[n].cause.findings)
    ensures log[n].cause.CleanedUp? && !log[n].quit.force ==> Clean(log[n].cause.findings)
  {
    var quit := log[n].quit;
    assert Justified(log[..n], log[n]);
    begun := RunningWasBegun(log[..n]);
    assert forall k :: 0 <= k < n ==> log[..n][k] == log[k];
    if log[n].cause.CleanedUp? {
      var k :| 0 <= k < n && log[..n][k] == Found(quit, log[n].cause.findings);
      FoundAfterBegun(log, begun, k);
    }
  }

  lemma ResidueOfQuestion(log: Log, asked: nat) returns (found: nat)
    requires Lawful(log) && asked < |log| && log[asked].Asked? && log[asked].confirmation.mode == Residual
    ensures found < asked && log[found].Found? && !log[found].quit.force && !Clean(log[found].findings)
  {
    assert Justified(log[..asked], log[asked]);
    hide Lawful;
    hide IdAsked;
    hide Quitting;
    var quit: Quit, f: Findings :| !quit.force && !Clean(f) && Found(quit, f) in Told(log[..asked]);
    found :| 0 <= found < asked && log[..asked][found] == Found(quit, f);
  }

  lemma ResidualAt(log: Log, id: nat) returns (k: nat)
    requires ResidualAsked(log, id)
    ensures k < |log| && log[k].Asked? && log[k].confirmation.mode == Residual && log[k].confirmation.id == id
  {
    var c: Confirmation :| c.id == id && c.mode == Residual && Asked(c) in Told(log);
    k := ToldAt(log, Asked(c));
  }

  lemma QuestionOfForce(log: Log, begun: nat) returns (asked: nat)
    requires Lawful(log) && begun < |log| && log[begun].Began? && log[begun].quit.force
    ensures asked < begun - 1 && log[asked].Asked? && log[asked].confirmation.mode == Residual
    ensures log[begun - 1] == Accepted(log[asked].confirmation.id)
  {
    var before := log[..begun];
    assert Justified(before, log[begun]);
    hide *;
    assert |before| > 0 && before[begun - 1] == log[begun - 1];
    asked := ResidualAt(before, before[begun - 1].id);
    assert log[asked] == before[asked];
  }

  lemma ToldAt(log: Log, e: Event) returns (k: nat)
    requires e in Told(log)
    ensures k < |log| && log[k] == e
  {
    k :| 0 <= k < |log| && log[k] == e;
  }

  lemma ForcesOfLog(log: Log, begun: nat) returns (asked: nat, found: nat)
    requires Lawful(log) && begun < |log| && log[begun].Began? && log[begun].quit.force
    ensures found < asked < begun - 1
    ensures log[asked].Asked? && log[asked].confirmation.mode == Residual
    ensures log[begun - 1] == Accepted(log[asked].confirmation.id)
    ensures log[found].Found? && !log[found].quit.force && !Clean(log[found].findings)
  {
    hide *;
    asked := QuestionOfForce(log, begun);
    found := ResidueOfQuestion(log, asked);
  }

  lemma EndsAreDifferent(log: Log, i: nat, k: nat)
    requires Lawful(log) && i < k < |log| && log[i].Ended? && (log[k].Ended? || log[k].Finished?)
    ensures log[i].quit != log[k].quit
  {
    assert Justified(log[..i], log[i]);
    assert Justified(log[..k], log[k]);
    hide Lawful;
    var b := RunningWasBegun(log[..i]);
    var c := RunningWasBegun(log[..k]);
    assert log[..k][i] == log[i];
    BegunOnce(log, b, c);
  }

  /**
   * Every quit that reaches its end was begun before and did not end in between; unforced, it got there by a
   * clean cleanup of its own, a spent budget or a failed pipeline.
   */
  lemma UnforcedQuitsAreExcused(run: seq<Call>, n: nat) returns (begun: nat)
    requires IsRun(run) && n < |After(run).log| && After(run).log[n].Finished?
    ensures var log, end := After(run).log, After(run).log[n];
            && begun < n && log[begun] == Began(end.quit)
            && (forall k :: begun < k < n ==> !log[k].Ended? && !log[k].Began?)
            && (end.cause.CleanedUp? ==> exists k :: begun < k < n && log[k] == Found(end.quit, end.cause.findings))
            && (!log[begun].quit.force ==>
                  end.cause.BudgetElapsed? || end.cause.CleanupThrew? || Clean(end.cause.findings))
  {
    hide After;
    EveryRunIsConsistent(run);
    begun := EndsOfLog(After(run).log, n);
  }

  /** A forced quit is begun only by the accepted answer to a residual question that something unforced led to. */
  lemma ForcedQuitsWereAnswered(run: seq<Call>, begun: nat) returns (asked: nat, found: nat)
    requires IsRun(run) && begun < |After(run).log|
    requires After(run).log[begun].Began? && After(run).log[begun].quit.force
    ensures var log := After(run).log;
            && found < asked < begun - 1
            && log[asked].Asked? && log[asked].confirmation.mode == Residual
            && log[begun - 1] == Accepted(log[asked].confirmation.id)
            && log[found].Found? && !log[found].quit.force && !Clean(log[found].findings)
  {
    hide After;
    EveryRunIsConsistent(run);
    asked, found := ForcesOfLog(After(run).log, begun);
  }

  /**
   * A quit that goes on to its end although its own cleanup found something was begun by the accepted answer
   * to a residual question, and that was put only after an unforced cleanup had found something.
   */
  lemma DirtyQuitsWereAnswered(run: seq<Call>, n: nat) returns (begun: nat, asked: nat, found: nat)
    requires IsRun(run) && n < |After(run).log|
    requires var e := After(run).log[n]; e.Finished? && e.cause.CleanedUp? && !Clean(e.cause.findings)
    ensures var log := After(run).log;
            && found < asked < begun - 1 && begun < n && log[begun] == Began(log[n].quit)
            && log[asked].Asked? && log[asked].confirmation.mode == Residual
            && log[begun - 1] == Accepted(log[asked].confirmation.id)
            && log[found].Found? && !log[found].quit.force && !Clean(log[found].findings)
  {
    hide After;
    EveryRunIsConsistent(run);
    begun := EndsOfLog(After(run).log, n);
    asked, found := ForcesOfLog(After(run).log, begun);
  }

  lemma FinishesAreDifferent(log: Log, i: nat, k: nat)
    requires Lawful(log) && i < k < |log| && log[i].Finished? && log[k].Finished?
    ensures log[i].quit != log[k].quit
  {
    assert Justified(log[..k], log[k]);
    hide Lawful;
    assert log[..k][i] == log[i];
    assert Finished(log[i].quit, log[i].cause) in Told(log[..k]);
  }

  /** Each quit ends at most once, and reaches the end of the application at most once, and not after it ended. */
  lemma QuitsEndOnce(run: seq<Call>, i: nat, k: nat)
    requires IsRun(run) && i < k < |After(run).log|
    requires var log := After(run).log;
             || (log[i].Ended? && (log[k].Ended? || log[k].Finished?))
             || (log[i].Finished? && log[k].Finished?)
    ensures After(run).log[i].quit != After(run).log[k].quit
  {
    hide After;
    EveryRunIsConsistent(run);
    if After(run).log[i].Ended? {
      EndsAreDifferent(After(run).log, i, k);
    } else {
      FinishesAreDifferent(After(run).log, i, k);
    }
  }

  lemma {:induction false} LatchIsReset(log: Log, i: nat)
    requires i < |log| && (log[i].Latched? || log[i].Finished?) && !Quitting(log)
    ensures exists j :: i < j < |log| && log[j].Released?
    decreases |log|
  {
    var n := |log| - 1;
    if !log[n].Released? {
      LatchIsReset(log[..n], i);
      var j :| i < j < n && log[..n][j].Released?;
      assert log[j].Released?;
    }
  }

  lemma QuestionsOfLog(log: Log, i: nat, k: nat)
    requires Lawful(log) && i < k < |log| && log[k].Asked? && (log[i].Latched? || log[i].Finished?)
    ensures exists j :: i < j < k && log[j].Released?
  {
    assert Justified(log[..k], log[k]);
    LatchIsReset(log[..k], i);
    var j :| i < j < k && log[..k][j].Released?;
    assert log[j].Released?;
  }

  /** Once the application quits, no question is put until a failed installation takes the latch back. */
  lemma NoQuestionsWhileQuitting(run: seq<Call>, i: nat, k: nat)
    requires IsRun(run) && i < k < |After(run).log| && After(run).log[k].Asked?
    requires After(run).log[i].Latched? || After(run).log[i].Finished?
    ensures exists j :: i < j < k && After(run).log[j].Released?
  {
    hide After;
    EveryRunIsConsistent(run);
    QuestionsOfLog(After(run).log, i, k);
  }

  /** The runtimes are shut down at most once. */
  lemma ShutdownOnce(run: seq<Call>, i: nat, k: nat)
    requires IsRun(run) && i < k < |After(run).log| && After(run).log[i].RuntimeShutdown?
    ensures !After(run).log[k].RuntimeShutdown?
  {
    EveryRunIsConsistent(run);
    var log := After(run).log;
    assert Justified(log[..k], log[k]);
    assert log[..k][i] == log[i];
  }

  /** Whoever reaches the end of the application has shut the runtimes down before. */
  lemma QuitsShutDownFirst(run: seq<Call>, n: nat) returns (k: nat)
    requires IsRun(run) && n < |After(run).log| && After(run).log[n].Finished?
    ensures k < n && After(run).log[k] == RuntimeShutdown
  {
    EveryRunIsConsistent(run);
    var log := After(run).log;
    assert Justified(log[..n], log[n]);
    hide *;
    k := ToldAt(log[..n], RuntimeShutdown);
  }

  lemma {:induction false} IssuedGrows(run: seq<Call>, k: nat)
    requires IsRun(run) && k <= |run|
    ensures IsRun(run[..k]) && After(run[..k]).issued <= After(run).issued
    ensures After(run).confirmation.Some? && After(run).confirmation.value.id < After(run[..k]).issued ==>
              After(run).confirmation == After(run[..k]).confirmation
    decreases |run|
  {
    if k == |run| {
      assert run[..k] == run;
    } else {
      var front := run[..|run| - 1];
      assert front[..k] == run[..k];
      IssuedGrows(front, k);
      QuestionsAreNew(After(front), run[|run| - 1]);
    }
  }

  lemma QuestionsAreNew(m: Main, c: Call)
    requires Enabled(m, c)
    ensures m.issued <= Next(m, c).issued
    ensures Next(m, c).confirmation.Some? ==>
              Next(m, c).confirmation == m.confirmation || m.issued <= Next(m, c).confirmation.value.id
  {
    hide Clean;
    hide Told;
  }

  /** Once a question is superseded, a late answer or timer for it changes nothing, in any continuation of the run. */
  lemma SupersededNeverReturns(run: seq<Call>, k: nat, id: nat, decision: Decision, force: bool, mode: Mode)
    requires IsRun(run) && k <= |run| && IsRun(run[..k])
    requires id < After(run[..k]).issued
    requires After(run[..k]).confirmation.Some? ==> After(run[..k]).confirmation.value.id != id
    ensures QuitConfirmed(After(run), id, decision) == After(run)
    ensures NativeAnswered(After(run), id, force) == After(run) && NativeFailed(After(run), id) == After(run)
    ensures DeliveryTimedOut(After(run), id, mode) == After(run)
  {
    IssuedGrows(run, k);
    hide After;
    hide IsRun;
  }

  lemma RunExtends(run: seq<Call>, c: Call)
    requires IsRun(run) && Enabled(After(run), c)
    ensures IsRun(run + [c]) && After(run + [c]) == Next(After(run), c)
  {
    assert (run + [c])[..|run|] == run;
  }

  // ----- The controller

  lemma QuestionLogs(m: Main, window: Window)
    ensures m.log <= WithCleanupQuestion(m, window).log
  {
  }

  lemma EndLogs(m: Main, quit: Quit, cause: Cause)
    ensures m.log <= WithEnd(m, quit, cause).log
    ensures !m.isQuitting ==> Finished(quit, cause) in WithEnd(m, quit, cause).log
  {
  }

  lemma CleanupLogs(m: Main, found: Option<Findings>, window: Window)
    requires m.cleanup.Some?
    ensures var log, quit := CleanupEnded(m, found, window).log, m.cleanup.value;
            && (found.Some? ==> Found(quit, found.value) in log)
            && (!m.isQuitting && (found.None? || quit.force || Clean(found.value)) ==>
                  Finished(quit, if found.Some? then CleanedUp(found.value) else CleanupThrew) in log)
  {
    hide WithEnd;
    hide WithCleanupQuestion;
    var quit := m.cleanup.value;
    if found.None? {
      EndLogs(m, quit, CleanupThrew);
    } else {
      var told := Noted(m, Found(quit, found.value));
      assert told.log[|m.log|] == Found(quit, found.value);
      var asked := WithCleanupQuestion(told, window);
      QuestionLogs(told, window);
      EndLogs(told, quit, CleanedUp(found.value));
      EndLogs(asked, quit, CleanedUp(found.value));
      assert forall log: Log | told.log <= log :: log[|m.log|] == Found(quit, found.value);
    }
  }

  datatype GatewayEnd = Stopped | StillOwned | GatewayThrew

  class QuitController {
    var isQuitting: bool
    // The quit whose cleanup is in progress, and those whose cleanup goes on after their budget.
    var quitCleanup: Option<Quit>
    var detached: set<Quit>
    var quitConfirmation: Option<Confirmation>
    var runtimeShutdownForQuitDone: bool
    // Random request identifiers, which never repeat, and the quits begun so far.
    var issued: nat
    var begun: nat
    ghost var log: Log
    ghost var run: seq<Call>

    ghost function Now(): Main
      reads this
    {
      Main(isQuitting, quitCleanup, detached, quitConfirmation, runtimeShutdownForQuitDone, issued, begun, log)
    }

    /** The state is that of a run of calls, so the theorems over all runs speak about it. */
    ghost predicate Valid()
      reads this
    {
      IsRun(run) && After(run) == Now()
    }

    constructor ()
      ensures Valid() && run == []
    {
      isQuitting, quitCleanup, detached, quitConfirmation := false, None, {}, None;
      runtimeShutdownForQuitDone, issued, begun, log, run := false, 0, 0, [], [];
    }

    /** Notes the call whose effect is already there. */
    ghost method Made(c: Call, before: Main)
      requires IsRun(run) && After(run) == before && Enabled(before, c) && Now() == Next(before, c)
      modifies this`run
      ensures Valid() && run == old(run) + [c]
    {
      RunExtends(run, c);
      run := run + [c];
    }

    method Invalidate(expected: Option<nat>) returns (done: bool)
      modifies this`quitConfirmation
      ensures done <==>
                old(quitConfirmation).Some? && (expected.Some? ==> old(quitConfirmation).value.id == expected.value)
      ensures quitConfirmation == if done then None else old(quitConfirmation)
    {
      if quitConfirmation.None? || (expected.Some? && quitConfirmation.value.id != expected.value) {
        return false;
      }
      quitConfirmation := None;
      return true;
    }

    method CreateConfirmation(mode: Mode, owner: Owner)
      modifies this
      ensures Now() == WithQuestion(old(Now()), mode, owner) && run == old(run)
      ensures quitConfirmation == Some(Confirmation(old(issued), mode, owner))
    {
      quitConfirmation := Some(Confirmation(issued, mode, owner));
      issued := issued + 1;
      log := log + [Asked(quitConfirmation.value)];
    }

    method ShowNativeFallback() returns (asked: bool)
      modifies this
      ensures Now() == WithNativeFallback(old(Now())) && run == old(run)
      ensures asked <==> !old(isQuitting)
      ensures asked ==> quitConfirmation == Some(Confirmation(old(issued), Residual, Native))
    {
      if isQuitting {
        return false;
      }
      var _ := Invalidate(None);
      CreateConfirmation(Residual, Native);
      return true;
    }

    /** sendQuitCleanupConfirmation */
    method SendCleanupConfirmation(window: Window) returns (asked: bool)
      modifies this
      ensures Now() == WithCleanupQuestion(old(Now()), window) && run == old(run)
      ensures asked <==> !old(isQuitting)
      ensures asked ==> quitConfirmation == Some(Confirmation(old(issued), Residual,
                                                              if window == Usable then Renderer else Native))
    {
      if window == Usable && !isQuitting {
        CreateConfirmation(Residual, Renderer);
        return true;
      }
      if window == Failing {
        var _ := Invalidate(None);
      }
      asked := ShowNativeFallback();
    }

    /** runControlledQuitCleanup up to its findings. */
    method FindResidue(sessions: bool, registry: bool, cancelled: bool, closed: bool, rechecked: bool,
                       gateway: GatewayEnd, subscription: bool, terminated: bool, listed: bool, left: nat)
      returns (f: Findings)
      ensures Clean(f) <==> && sessions && registry && cancelled && closed && rechecked && gateway == Stopped
                            && subscription && terminated && listed && left == 0
      ensures f.conversationFailed <==> !(sessions && cancelled && closed && rechecked)
      ensures f.processFailed <==> !(registry && gateway == Stopped && subscription && terminated && listed)
      ensures f.residual == if registry && listed then left else 0
    {
      var conversationFailed, processFailed := !sessions, !registry;
      if !cancelled {
        conversationFailed := true;
      }
      if sessions && (!closed || !rechecked) {
        conversationFailed := true;
      }
      if gateway != Stopped {
        processFailed := true;
      }
      if !subscription {
        processFailed := true;
      }
      var residual := 0;
      if registry {
        if !terminated {
          processFailed := true;
        }
        if listed {
          residual := left;
        } else {
          processFailed := true;
        }
      }
      return Findings(conversationFailed, processFailed, residual);
    }

    method ShutDown()
      modifies this
      ensures Now() == WithShutdown(old(Now())) && run == old(run)
    {
      if runtimeShutdownForQuitDone {
        return;
      }
      runtimeShutdownForQuitDone := true;
      log := log + [RuntimeShutdown];
    }

    method ShutdownRuntime()
      requires Valid()
      modifies this
      ensures Valid() && run == old(run) + [Call.ShutdownRuntime]
    {
      ghost var before := Now();
      ShutDown();
      Made(Call.ShutdownRuntime, before);
    }

    /** finishControlledQuit */
    method Finish(quit: Quit, cause: Cause)
      modifies this
      ensures Now() == WithEnd(old(Now()), quit, cause) && run == old(run) && isQuitting
    {
      if isQuitting {
        return;
      }
      ShutDown();
      log := log + [Finished(quit, cause)];
      isQuitting := true;
    }

    /** beginControlledQuit up to its await; false when a quit or a cleanup is already under way. */
    method BeginControlledQuit(force: bool) returns (done: bool)
      modifies this
      ensures Now() == WithQuit(old(Now()), force) && run == old(run)
      ensures done <==> !old(isQuitting) && old(quitCleanup).None?
    {
      if isQuitting || quitCleanup.Some? {
        return false;
      }
      var _ := Invalidate(None);
      quitCleanup := Some(Quit(begun, force));
      log := log + [Began(quitCleanup.value)];
      begun := begun + 1;
      return true;
    }

    /** What the end of a cleanup does: ask about what it found, or let the quit go on. */
    method AskOrFinish(found: Option<Findings>, window: Window) returns (asked: bool)
      requires quitCleanup.Some?
      modifies this
      ensures Now() == CleanupEnded(old(Now()), found, window) && run == old(run)
      ensures asked <==> found.Some? && !old(quitCleanup).value.force && !Clean(found.value) && !old(isQuitting)
      ensures asked ==> quitConfirmation.Some? && quitConfirmation.value.mode == Residual
      ensures !asked ==> isQuitting
    {
      hide WithCleanupQuestion;
      hide WithEnd;
      var quit := quitCleanup.value;
      asked := false;
      if found.Some? {
        log := log + [Found(quit, found.value)];
        if !quit.force
           && (found.value.conversationFailed || found.value.processFailed || found.value.residual > 0) {
          asked := SendCleanupConfirmation(window);
        }
      }
      if !asked {
        Finish(quit, if found.Some? then CleanedUp(found.value) else CleanupThrew);
      }
      log := log + [Ended(quit)];
      quitCleanup := None;
    }

    /** The end of a cleanup that is still awaited: it asks about what it found, or the quit goes on. */
    method CleanupEnds(found: Option<Findings>, window: Window) returns (asked: bool)
      requires Valid() && quitCleanup.Some?
      modifies this
      ensures Valid() && run == old(run) + [Call.CleanupEnds(found, window)]
      ensures quitCleanup == None
      ensures asked <==> found.Some? && !old(quitCleanup).value.force && !Clean(found.value) && !old(isQuitting)
      ensures asked ==> quitConfirmation.Some? && quitConfirmation.value.mode == Residual
      ensures !asked ==> isQuitting
      ensures !asked && !old(isQuitting) ==>
                Finished(old(quitCleanup).value, if found.Some? then CleanedUp(found.value) else CleanupThrew) in log
      ensures found.Some? ==> Found(old(quitCleanup).value, found.value) in log
    {
      hide After;
      hide IsRun;
      hide WithCleanupQuestion;
      hide WithEnd;
      ghost var before := Now();
      CleanupLogs(before, found, window);
      asked := AskOrFinish(found, window);
      Made(Call.CleanupEnds(found, window), before);
    }

    /** The budget ran out first. The cleanup goes on detached. */
    method BudgetEnds()
      requires Valid() && quitCleanup.Some?
      modifies this
      ensures Valid() && run == old(run) + [Call.BudgetEnds]
      ensures isQuitting && quitCleanup == None && detached == old(detached) + {old(quitCleanup).value}
      ensures !old(isQuitting) ==> Finished(old(quitCleanup).value, BudgetElapsed) in log
      ensures quitConfirmation == old(quitConfirmation)
    {
      ghost var before := Now();
      var quit := quitCleanup.value;
      Finish(quit, BudgetElapsed);
      log := log + [Ended(quit)];
      quitCleanup := None;
      detached := detached + {quit};
      Made(Call.BudgetEnds, before);
    }

    /** The end of a cleanup that outlived its budget: while the application quits it asks nothing. */
    method DetachedCleanupEnds(quit: Quit, found: Findings, window: Window)
      requires Valid() && quit in detached
      modifies this
      ensures Valid() && run == old(run) + [Call.DetachedEnds(quit, found, window)]
      ensures isQuitting == old(isQuitting) && detached == old(detached) - {quit} && quitCleanup == old(quitCleanup)
      ensures isQuitting ==> quitConfirmation in {None, old(quitConfirmation)}
      ensures !isQuitting ==>
                if quit.force || Clean(found) then quitConfirmation == old(quitConfirmation)
                else quitConfirmation.Some? && quitConfirmation.value.mode == Residual
                     && quitConfirmation.value.id == old(issued)
    {
      hide After;
      hide IsRun;
      ghost var before := Now();
      detached := detached - {quit};
      log := log + [Found(quit, found)];
      if !quit.force && (found.conversationFailed || found.processFailed || found.residual > 0) {
        var _ := SendCleanupConfirmation(window);
      }
      Made(Call.DetachedEnds(quit, found, window), before);
    }

    /** requestQuit; a second request supersedes the question and goes on to the cleanup. */
    method RequestQuit(window: Window)
      requires Valid()
      modifies this
      ensures Valid() && run == old(run) + [Call.RequestQuit(window)]
      ensures old(isQuitting) || old(quitCleanup).Some? ==> Now() == old(Now())
      ensures !old(isQuitting) && old(quitCleanup).None? ==>
                if window == Usable && old(quitConfirmation).None? then
                  quitConfirmation == Some(Confirmation(old(issued), Ordinary, Renderer)) && quitCleanup.None?
                else
                  quitConfirmation.None? && quitCleanup == Some(Quit(old(begun), false))
    {
      ghost var before := Now();
      if !isQuitting && quitCleanup.None? {
        if window == Usable && quitConfirmation.None? {
          CreateConfirmation(Ordinary, Renderer);
        } else {
          var _ := Invalidate(None);
          var _ := BeginControlledQuit(false);
        }
      }
      Made(Call.RequestQuit(window), before);
    }

    /** A decision of the window counts if it echoes the current question and is one of its answers. */
    static predicate Counts(confirmation: Option<Confirmation>, requestId: nat, decision: Decision) {
      && confirmation.Some? && confirmation.value.owner == Renderer && confirmation.value.id == requestId
      && decision in if confirmation.value.mode == Ordinary then {Yes, No, Minimize} else {Yes, Retry}
    }

    /** The decision that the window sends for a confirmation: only Yes to a residual question forces the quit. */
    method ConfirmQuit(requestId: nat, decision: Decision)
      requires Valid()
      modifies this
      ensures Valid() && run == old(run) + [Call.ConfirmQuit(requestId, decision)]
      ensures !Counts(old(quitConfirmation), requestId, decision) ==> Now() == old(Now())
      ensures Counts(old(quitConfirmation), requestId, decision) ==>
                && quitConfirmation == None
                && var force := decision == Yes && old(quitConfirmation).value.mode == Residual;
                   quitCleanup == if decision in {Yes, Retry} && !old(isQuitting) && old(quitCleanup).None?
                                  then Some(Quit(old(begun), force)) else old(quitCleanup)
    {
      hide After;
      hide IsRun;
      hide Told;
      ghost var before := Now();
      if !(quitConfirmation.None? || quitConfirmation.value.owner != Renderer || quitConfirmation.value.id != requestId
           || (quitConfirmation.value.mode == Ordinary && decision == Retry)
           || (quitConfirmation.value.mode == Residual && (decision == No || decision == Minimize))) {
        var mode := quitConfirmation.value.mode;
        quitConfirmation := None;
        if decision == Retry || decision == Yes {
          log := log + [Accepted(requestId)];
          var _ := BeginControlledQuit(decision == Yes && mode == Residual);
        }
      }
      Made(Call.ConfirmQuit(requestId, decision), before);
    }

    /** The answer to a confirmation that the system showed. */
    method AnswerNative(id: nat, force: bool)
      requires Valid()
      modifies this
      ensures Valid() && run == old(run) + [Call.AnswerNative(id, force)]
      ensures old(isQuitting) || old(quitConfirmation) != Some(Confirmation(id, Residual, Native)) ==>
                Now() == old(Now())
      ensures !old(isQuitting) && old(quitConfirmation) == Some(Confirmation(id, Residual, Native)) ==>
                && quitConfirmation == None
                && quitCleanup == if old(quitCleanup).None? then Some(Quit(old(begun), force)) else old(quitCleanup)
    {
      ghost var before := Now();
      if !(isQuitting || quitConfirmation.None? || quitConfirmation.value.id != id
           || quitConfirmation.value.owner != Native || quitConfirmation.value.mode != Residual) {
        quitConfirmation := None;
        log := log + [Accepted(id)];
        var _ := BeginControlledQuit(force);
      }
      Made(Call.AnswerNative(id, force), before);
    }

    /** The timer of a question that the window did not acknowledge. */
    method DeliveryTimesOut(id: nat, mode: Mode)
      requires Valid() && Asked(Confirmation(id, mode, Renderer)) in Told(log)
      modifies this
      ensures Valid() && run == old(run) + [Call.DeliveryTimesOut(id, mode)]
      ensures old(quitConfirmation).None? || old(quitConfirmation).value.id != id ==> Now() == old(Now())
      ensures old(quitConfirmation).Some? && old(quitConfirmation).value.id == id ==>
                if mode == Residual then
                  && quitConfirmation == (if old(isQuitting) then None
                                          else Some(Confirmation(old(issued), Residual, Native)))
                  && quitCleanup == old(quitCleanup)
                else
                  && quitConfirmation == None
                  && quitCleanup == if !old(isQuitting) && old(quitCleanup).None? then Some(Quit(old(begun), false))
                                    else old(quitCleanup)
    {
      ghost var before := Now();
      var mine := Invalidate(Some(id));
      if mine {
        if mode == Residual {
          var _ := ShowNativeFallback();
        } else {
          var _ := BeginControlledQuit(false);
        }
      }
      Made(Call.DeliveryTimesOut(id, mode), before);
    }

    /** The system dialog cannot be shown. */
    method NativeFails(id: nat)
      requires Valid()
      modifies this
      ensures Valid() && run == old(run) + [Call.NativeFails(id)]
      ensures quitConfirmation == if old(quitConfirmation).Some? && old(quitConfirmation).value.id == id then None
                                  else old(quitConfirmation)
      ensures log == old(log) && quitCleanup == old(quitCleanup) && isQuitting == old(isQuitting)
    {
      ghost var before := Now();
      var _ := Invalidate(Some(id));
      Made(Call.NativeFails(id), before);
    }

    /** The window is gone: its question is withdrawn. */
    method RendererGone()
      requires Valid()
      modifies this
      ensures Valid() && run == old(run) + [Call.RendererGone]
      ensures quitConfirmation == if old(quitConfirmation).Some? && old(quitConfirmation).value.owner == Renderer
                                  then None else old(quitConfirmation)
    {
      ghost var before := Now();
      if quitConfirmation.Some? && quitConfirmation.value.owner == Renderer {
        quitConfirmation := None;
      }
      Made(Call.RendererGone, before);
    }

    method SessionEnds()
      requires Valid()
      modifies this
      ensures Valid() && run == old(run) + [Call.SessionEnds]
      ensures isQuitting && quitConfirmation == None
    {
      ghost var before := Now();
      isQuitting, quitConfirmation, log := true, None, log + [Latched];
      Made(Call.SessionEnds, before);
    }

    /** The installation of an update sets the latch before its cleanup. */
    method InstallerLatches()
      requires Valid()
      modifies this
      ensures Valid() && run == old(run) + [Call.InstallerLatches] && isQuitting
    {
      ghost var before := Now();
      isQuitting, log := true, log + [Latched];
      Made(Call.InstallerLatches, before);
    }

    method InstallerFails()
      requires Valid()
      modifies this
      ensures Valid() && run == old(run) + [Call.InstallerFails] && !isQuitting
    {
      ghost var before := Now();
      isQuitting, log := false, log + [Released];
      Made(Call.InstallerFails, before);
    }
  }
}
