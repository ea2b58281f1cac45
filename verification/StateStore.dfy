/**
 * The gateway's state file. It is replaced by way of one temporary file, from which a complete process
 * record is recovered after a crash.
 */
module StateStore {
  import opened Common
  import opened GatewayState

  /** A file that is missing, does not parse, or holds a state. */
  datatype File = Missing | Unreadable | Holds(state: GatewayState)

  datatype Disk = Disk(current: File, temporary: File)

  function LoadAt(f: File): Option<GatewayState> {
    if f.Holds? then Some(f.state) else None
  }

  /** The temporary file carries a process record that is still to be recovered. */
  predicate Recoverable(d: Disk) {
    d.temporary.Holds? && d.temporary.state.process.Some?
  }

  /** The state that a load answers with. */
  function Effective(d: Disk): Option<GatewayState> {
    if Recoverable(d) then Some(d.temporary.state) else LoadAt(d.current)
  }

  function Renamed(d: Disk): Disk {
    Disk(d.temporary, Missing)
  }

  function Loaded(d: Disk, renameFails: bool): Disk {
    if Recoverable(d) && !renameFails then Renamed(d) else d
  }

  function Written(d: Disk, s: GatewayState): Disk {
    d.(temporary := Holds(s))
  }

  function Torn(d: Disk): Disk {
    d.(temporary := Unreadable)
  }

  /** How far a replacement comes before it throws or the process ends. */
  datatype Fault = Nothing | WriteFails | WriteTorn | RenameFails

  function Persisted(d: Disk, s: GatewayState, fault: Fault): Disk {
    match fault
    case Nothing => Renamed(Written(d, s))
    case WriteFails => d
    case WriteTorn => Torn(d)
    case RenameFails => Written(d, s)
  }

  // ----- Runs

  /** A completed load or replacement, or one that a crash cut short; a crash ends the incarnation. */
  datatype Action = Load | Persist(state: GatewayState) | Crash | CrashIn(state: GatewayState, fault: Fault)

  function Next(d: Disk, a: Action): Disk {
    match a
    case Load => Loaded(d, false)
    case Persist(s) => Persisted(d, s, Nothing)
    case Crash => d
    case CrashIn(s, fault) => Persisted(d, s, fault)
  }

  function After(d: Disk, run: seq<Action>): Disk {
    if run == [] then d else Next(After(d, run[..|run| - 1]), run[|run| - 1])
  }

  predicate HasLoaded(run: seq<Action>) {
    run != [] && (match run[|run| - 1]
                  case Load => true
                  case Persist(_) => HasLoaded(run[..|run| - 1])
                  case _ => false)
  }

  /** Every incarnation loads before it replaces the state. */
  predicate LoadsFirst(run: seq<Action>) {
    forall n :: 0 <= n < |run| && (run[n].Persist? || run[n].CrashIn?) ==> HasLoaded(run[..n])
  }

  /** The last state that was renamed into place, or written completely and carrying a process record. */
  function LastKept(first: Option<GatewayState>, run: seq<Action>): Option<GatewayState> {
    if run == [] then first
    else
      var before := LastKept(first, run[..|run| - 1]);
      match run[|run| - 1]
      case Persist(s) => Some(s)
      case CrashIn(s, Nothing) => Some(s)
      case CrashIn(s, RenameFails) => if s.process.Some? then Some(s) else before
      case _ => before
  }

  lemma {:induction false} LoadedRunsAreSettled(d: Disk, run: seq<Action>)
    requires HasLoaded(run)
    ensures !Recoverable(After(d, run))
    decreases |run|
  {
    if run[|run| - 1].Persist? {
      LoadedRunsAreSettled(d, run[..|run| - 1]);
    }
  }

  /**
   * Whatever crashes happen, a load answers with the last state kept. So a complete process record is
   * forgotten only for another one or for a state renamed into place.
   */
  lemma {:induction false} LoadAnswersLastKept(d: Disk, run: seq<Action>)
    requires LoadsFirst(run)
    ensures Effective(After(d, run)) == LastKept(Effective(d), run)
    ensures Effective(Next(After(d, run), Load)) == LastKept(Effective(d), run)
    decreases |run|
  {
    if run != [] {
      var before, last := run[..|run| - 1], run[|run| - 1];
      forall n | 0 <= n < |before| && (before[n].Persist? || before[n].CrashIn?) ensures HasLoaded(before[..n]) {
        assert before[..n] == run[..n];
      }
      LoadAnswersLastKept(d, before);
      if last.Persist? || last.CrashIn? {
        LoadedRunsAreSettled(d, before);
      }
    }
  }

  /** A record lives from the run that kept it on, until something else is kept. */
  lemma {:induction false} RecordsAreNotForgotten(d: Disk, run: seq<Action>, more: seq<Action>, s: GatewayState)
    requires LoadsFirst(run + more) && Effective(After(d, run)) == Some(s)
    requires forall n :: 0 <= n < |more| ==>
               more[n] in {Load, Crash} || (more[n].CrashIn? && (more[n].fault.WriteFails? || more[n].fault.WriteTorn?))
    ensures Effective(After(d, run + more)) == Some(s)
    decreases |more|
  {
    LoadAnswersLastKept(d, run + more);
    if more == [] {
      assert run + more == run;
    } else {
      var k := |more| - 1;
      assert (run + more)[..|run| + k] == run + more[..k];
      forall n | 0 <= n < |run| + k && ((run + more[..k])[n].Persist? || (run + more[..k])[n].CrashIn?)
        ensures HasLoaded((run + more[..k])[..n])
      {
        assert (run + more[..k])[..n] == (run + more)[..n];
      }
      RecordsAreNotForgotten(d, run, more[..k], s);
      LoadAnswersLastKept(d, run + more[..k]);
    }
  }

  /**
   * A torn write keeps what a load answers if and only if nothing was left to be recovered, or the state in
   * place is the same. A load whose rename fails leaves the record to be recovered, so a torn write after it
   * forgets the record.
   */
  lemma TornWritesForget(d: Disk)
    ensures Effective(Torn(d)) == Effective(d) <==> !Recoverable(d) || LoadAt(d.current) == Some(d.temporary.state)
    ensures Recoverable(d) && LoadAt(d.current) != Some(d.temporary.state) ==>
              Effective(Torn(Loaded(d, true))) != Effective(d) && Effective(Torn(Loaded(d, false))) == Effective(d)
  {
  }

  class ManagedGatewayStateStore {
    var current: File
    var temporary: File

    function Files(): Disk
      reads this
    {
      Disk(current, temporary)
    }

    constructor (files: Disk)
      ensures Files() == files
    {
      current, temporary := files.current, files.temporary;
    }

    method Load(renameFails: bool) returns (r: Option<GatewayState>)
      modifies this
      ensures r == Effective(old(Files()))
      ensures Files() == Loaded(old(Files()), renameFails) && Effective(Files()) == r
      ensures !renameFails ==> !Recoverable(Files())
    {
      var state := LoadAt(current);
      var recovery := LoadAt(temporary);
      if recovery.None? || recovery.value.process.None? {
        return state;
      }
      if !renameFails {
        current, temporary := temporary, Missing;
      }
      return recovery;
    }

    method Persist(state: GatewayState, fault: Fault) returns (r: Outcome)
      modifies this
      ensures Files() == Persisted(old(Files()), state, fault)
      ensures r == Pass <==> fault == Nothing
      ensures r == Pass ==> Effective(Files()) == Some(state)
    {
      if fault == WriteFails {
        return Fail;
      }
      if fault == WriteTorn {
        temporary := Unreadable;
        return Fail;
      }
      temporary := Holds(state);
      if fault == RenameFails {
        return Fail;
      }
      current, temporary := temporary, Missing;
      return Pass;
    }
  }
}
