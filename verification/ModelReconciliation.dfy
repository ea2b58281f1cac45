/**
 * The cache of model lists of the managed gateway. Every `await` is a point where any other segment may
 * run, so a run is any sequence of segments (`Action`s) that respects which continuation follows which.
 */
module ModelReconciliation {
  import opened Common
  import opened GatewayState

  type Models = seq<string>

  datatype Ownership = Ownership(child: Option<Child>, processId: nat, state: GatewayState)

  function Capture(state: GatewayState, processId: nat, child: Option<Child>): Ownership {
    Ownership(if child.Some? && child.value.pid == Some(processId) then child else None, processId, state)
  }

  /** The fields that identify a process; the account and the management key do not. */
  function Essence(state: GatewayState): GatewayState {
    state.(authorization := None, encryptedManagementKey := None)
  }

  /** managedGatewayProcessOwnershipMatches */
  predicate Matches(left: Ownership, right: Ownership): (b: bool)
    ensures b <==> left.child == right.child && left.processId == right.processId
                   && Essence(left.state) == Essence(right.state)
  {
    && left.child == right.child
    && left.processId == right.processId
    && left.state.encryptedClientKey == right.state.encryptedClientKey
    && left.state.executableRelativePath == right.state.executableRelativePath
    && left.state.executableSha256 == right.state.executableSha256
    && left.state.installedVersion == right.state.installedVersion
    && left.state.port == right.state.port
    && left.state.process == right.state.process
    && left.state.releaseDigest == right.state.releaseDigest
  }

  /** persistedGatewayStateMatchesOwnership */
  predicate StateMatches(state: Option<GatewayState>, o: Ownership): (b: bool)
    ensures b <==> && state.Some? && Essence(state.value) == Essence(o.state)
                   && o.state.process.Some? && o.state.process.value.processId == o.processId
  {
    && state.Some?
    && o.state.process.Some? && o.state.process.value.processId == o.processId
    && state.value.process.Some? && state.value.process.value.processId == o.processId
    && state.value.encryptedClientKey == o.state.encryptedClientKey
    && state.value.executableRelativePath == o.state.executableRelativePath
    && state.value.executableSha256 == o.state.executableSha256
    && state.value.installedVersion == o.state.installedVersion
    && state.value.port == o.state.port
    && state.value.process == o.state.process
    && state.value.releaseDigest == o.state.releaseDigest
  }

  predicate SnapshotIsCurrent(o: Ownership, view: View) {
    && StateMatches(view.state, o)
    && if o.child.Some? then view.child == o.child && !view.exited else view.child.None?
  }

  /** The last segment of managedGatewayProcessOwnershipIsCurrent, after the process id was looked up. */
  predicate FinalCheck(o: Ownership, current: bool, answer: Option<nat>, view: View): (b: bool)
    ensures b <==> answer == Some(o.processId) && current && SnapshotIsCurrent(o, view)
    ensures b ==> StateMatches(view.state, o) && view.child == o.child && (view.child.Some? ==> !view.exited)
  {
    if o.child.Some? then
      && answer == Some(o.processId) && current
      && view.child == o.child && !view.exited
      && StateMatches(view.state, o)
    else
      answer == Some(o.processId) && current && view.child.None? && StateMatches(view.state, o)
  }

  // ----- The store and its runs

  datatype Cache = Cache(models: Models, generation: nat, ownership: Ownership)

  datatype Probe = Probe(id: nat, generation: nat, ownership: Ownership)

  datatype Store = Store(cache: Option<Cache>, generation: nat, probe: Option<Probe>)

  function Cleared(s: Store): Store {
    Store(None, s.generation + 1, None)
  }

  function Remembered(s: Store, o: Ownership, models: Models): Store {
    Store(Some(Cache(models, s.generation + 1, o)), s.generation + 1, None)
  }

  function Invalidated(s: Store, o: Ownership): Store {
    var cacheMatches := s.cache.Some? && Matches(s.cache.value.ownership, o);
    var probeMatches := s.probe.Some? && Matches(s.probe.value.ownership, o);
    if !cacheMatches && !probeMatches then s
    else Store(if cacheMatches then None else s.cache, s.generation + 1, if probeMatches then None else s.probe)
  }

  /** What the continuations of a probe or a configuration read hold on to; `id` is the segment that began it. */
  datatype Task = Task(id: nat, generation: nat, ownership: Ownership)

  /** One segment between two awaits, with the position of the earlier segment that it continues. */
  datatype Action =
    | Clear
    | BeginProbe(ownership: Ownership)
    | BeginConfiguration(ownership: Ownership)
    | BeginReading(ownership: Ownership)
    | Arrive(task: Task, models: Models)
    | Tell(task: Task, arrival: nat, models: Models, view: View)
    | Verify(task: Task, arrival: nat, models: Models, asked: bool, answer: Option<nat>, view: View, owned: bool)
    | SettleProbe(task: Task, verdict: nat, models: Models, owned: bool)
    | ReleaseProbe(task: Task)
    | Conclude(task: Task, verdict: nat, models: Models, owned: bool)

  type Log = seq<Action>

  function Step(s: Store, n: nat, a: Action): Store {
    match a
    case Clear => Cleared(s)
    case Tell(t, _, models, _) => Remembered(s, t.ownership, models)
    case BeginProbe(o) => Cleared(s).(probe := Some(Probe(n, s.generation + 1, o)))
    case SettleProbe(t, _, models, owned) =>
      if models != [] && owned && t.generation == s.generation then Remembered(s, t.ownership, models) else s
    case ReleaseProbe(t) => if s.probe.Some? && s.probe.value.id == t.id then s.(probe := None) else s
    case Conclude(t, _, models, owned) =>
      if !owned then Invalidated(s, t.ownership)
      else if t.generation == s.generation then Remembered(s, t.ownership, models)
      else s
    case _ => s
  }

  function Run(log: Log): Store {
    if log == [] then Store(None, 0, None)
    else
      var n := |log| - 1;
      Step(Run(log[..n]), n, log[n])
  }

  /** A task was begun earlier, and captured its ownership and the generation of that moment. */
  predicate Begun(log: Log, n: nat, t: Task)
    requires n <= |log|
  {
    && t.id < n
    && log[t.id] in {BeginProbe(t.ownership), BeginConfiguration(t.ownership), BeginReading(t.ownership)}
    && t.generation == Run(log[..t.id + 1]).generation
  }

  /** The owned child is the current one, has not exited, and is the process that the state records. */
  predicate IsLiveChild(o: Ownership, view: View) {
    && o.child.Some? && o.child.value.pid == Some(o.processId) && view.child == o.child && !view.exited
    && o.state.process.Some? && o.state.process.value.processId == o.processId
  }

  /** Each continuation follows the segment that left it behind, with the values of that segment. */
  predicate Follows(log: Log, n: nat)
    requires n < |log|
  {
    match log[n]
    case Arrive(t, _) => Begun(log, n, t)
    case Tell(t, r, models, view) =>
      && Begun(log, n, t) && log[t.id].BeginReading? && t.id < r < n && log[r] == Arrive(t, models)
      && IsLiveChild(t.ownership, view)
    case Verify(t, r, models, asked, answer, view, owned) =>
      && Begun(log, n, t) && t.id < r < n && log[r] == Arrive(t, models)
      && (owned <==> asked && FinalCheck(t.ownership, Run(log[..n]).generation == t.generation, answer, view))
    case SettleProbe(t, c, models, owned) =>
      && Begun(log, n, t) && log[t.id].BeginProbe? && IsVerdict(log, n, c, t, models, owned)
    case Conclude(t, c, models, owned) =>
      && Begun(log, n, t) && log[t.id].BeginConfiguration? && IsVerdict(log, n, c, t, models, owned)
    case ReleaseProbe(t) => Begun(log, n, t) && log[t.id].BeginProbe?
    case _ => true
  }

  predicate IsVerdict(log: Log, n: nat, c: nat, t: Task, models: Models, owned: bool)
    requires n <= |log|
  {
    t.id < c < n && log[c].Verify? && log[c].task == t && log[c].models == models && log[c].owned == owned
  }

  predicate Legal(log: Log) {
    forall n :: 0 <= n < |log| ==> Follows(log, n)
  }

  // ----- Which segments start a new generation

  /** The segment writes the cache. */
  predicate Writes(log: Log, n: nat)
    requires n < |log|
  {
    var g := Run(log[..n]).generation;
    match log[n]
    case Tell(_, _, _, _) => true
    case SettleProbe(t, _, models, owned) => models != [] && owned && t.generation == g
    case Conclude(t, _, _, owned) => owned && t.generation == g
    case _ => false
  }

  /** The segment clears the store, writes the cache, or invalidates an ownership that is cached or probed. */
  predicate Changes(log: Log, n: nat)
    requires n < |log|
  {
    || log[n].Clear? || log[n].BeginProbe? || Writes(log, n)
    || (log[n].Conclude? && !log[n].owned && Invalidated(Run(log[..n]), log[n].task.ownership) != Run(log[..n]))
  }

  predicate Untouched(log: Log, i: nat, k: nat)
    requires i <= k <= |log|
  {
    forall j :: i <= j < k ==> !Changes(log, j)
  }

  lemma OneStep(log: Log, n: nat)
    requires n < |log|
    ensures Run(log[..n + 1]) == Step(Run(log[..n]), n, log[n])
  {
    assert log[..n + 1][..n] == log[..n];
  }

  /** A generation ends exactly at the changes. */
  lemma ChangesStartGenerations(log: Log, n: nat)
    requires n < |log|
    ensures Run(log[..n + 1]).generation == Run(log[..n]).generation + (if Changes(log, n) then 1 else 0)
  {
    OneStep(log, n);
  }

  lemma {:induction false} GenerationsGrow(log: Log, i: nat, k: nat)
    requires i <= k <= |log|
    ensures Run(log[..i]).generation <= Run(log[..k]).generation
    ensures Run(log[..i]).generation == Run(log[..k]).generation <==> Untouched(log, i, k)
    decreases k
  {
    if i < k {
      GenerationsGrow(log, i, k - 1);
      ChangesStartGenerations(log, k - 1);
    }
  }

  /**
   * In every run the store holds at most one of a cache and a probe, and what it holds is of the current
   * generation, although an invalidation drops only what matches.
   */
  lemma {:induction false} OneOfCurrentGeneration(log: Log)
    ensures var s := Run(log);
            && (s.cache.None? || s.probe.None?)
            && (s.cache.Some? ==> s.cache.value.generation == s.generation)
            && (s.probe.Some? ==> s.probe.value.generation == s.generation)
    decreases |log|
  {
    if log != [] {
      OneOfCurrentGeneration(log[..|log| - 1]);
    }
  }

  // ----- Where cached models come from

  function WrittenFor(a: Action): Ownership
    requires a.Tell? || a.SettleProbe? || a.Conclude?
  {
    a.task.ownership
  }

  lemma PrefixChanges(log: Log, n: nat, j: nat)
    requires j < n <= |log|
    ensures Changes(log[..n], j) == Changes(log, j) && Writes(log[..n], j) == Writes(log, j)
  {
    assert log[..n][..j] == log[..j];
  }

  /** The cache is what the latest change wrote. */
  lemma {:induction false} CacheWasWritten(log: Log) returns (w: nat)
    requires Run(log).cache.Some?
    ensures w < |log| && Writes(log, w) && Untouched(log, w + 1, |log|)
    ensures WrittenFor(log[w]) == Run(log).cache.value.ownership && log[w].models == Run(log).cache.value.models
    decreases |log|
  {
    var n := |log| - 1;
    OneOfCurrentGeneration(log[..n]);
    if Writes(log, n) {
      w := n;
    } else {
      w := CacheWasWritten(log[..n]);
      forall j | w <= j < n ensures Changes(log[..n], j) == Changes(log, j) && Writes(log[..n], j) == Writes(log, j) {
        PrefixChanges(log, n, j);
      }
    }
  }

  /** The probe in flight was begun by the latest change. */
  lemma {:induction false} ProbeWasBegun(log: Log)
    requires Run(log).probe.Some?
    ensures var p := Run(log).probe.value;
            p.id < |log| && log[p.id] == BeginProbe(p.ownership) && Untouched(log, p.id + 1, |log|)
    decreases |log|
  {
    var n := |log| - 1;
    OneOfCurrentGeneration(log[..n]);
    if !log[n].BeginProbe? {
      ProbeWasBegun(log[..n]);
      var id := Run(log).probe.value.id;
      forall j | id < j < n ensures Changes(log[..n], j) == Changes(log, j) {
        PrefixChanges(log, n, j);
      }
    }
  }

  /** What a segment wrote stays cached, and is served, until the next change. */
  lemma {:induction false} WrittenStays(log: Log, w: nat)
    requires w < |log| && Writes(log, w) && Untouched(log, w + 1, |log|)
    ensures Run(log).cache == Some(Cache(log[w].models, Run(log).generation, WrittenFor(log[w])))
    ensures Run(log).probe.None?
    decreases |log|
  {
    var n := |log| - 1;
    if w == n {
      assert Writes(log, n);
    } else {
      forall j | w <= j < n ensures Changes(log[..n], j) == Changes(log, j) && Writes(log[..n], j) == Writes(log, j) {
        PrefixChanges(log, n, j);
      }
      WrittenStays(log[..n], w);
      assert !Changes(log, n);
    }
  }

  /** A probe that was begun stays in flight, and is joined, until the next change or its own end. */
  lemma {:induction false} BegunStays(log: Log, b: nat)
    requires b < |log| && log[b].BeginProbe? && Untouched(log, b + 1, |log|)
    requires forall j :: b < j < |log| && log[j].ReleaseProbe? ==> log[j].task.id != b
    ensures Run(log).probe == Some(Probe(b, Run(log).generation, log[b].ownership)) && Run(log).cache.None?
    decreases |log|
  {
    var n := |log| - 1;
    if b < n {
      forall j | b <= j < n ensures Changes(log[..n], j) == Changes(log, j) {
        PrefixChanges(log, n, j);
      }
      BegunStays(log[..n], b);
      assert !Changes(log, n);
    }
  }

  /** Right at its capture an ownership is current exactly if the state is and no other or dead child is owned. */
  lemma CapturedIsCurrent(state: GatewayState, processId: nat, view: View)
    ensures SnapshotIsCurrent(Capture(state, processId, view.child), view)
            <==> && view.state.Some? && Essence(view.state.value) == Essence(state)
                 && state.process.Some? && state.process.value.processId == processId
                 && (view.child.Some? ==> view.child.value.pid == Some(processId) && !view.exited)
  {
  }

  /** A task writes the cache only in the generation it began in. */
  lemma WritersAreUntouched(log: Log, w: nat)
    requires Legal(log) && w < |log| && Writes(log, w) && !log[w].Tell?
    ensures var t := log[w].task; t.id < w && Untouched(log, t.id + 1, w)
  {
    var t := log[w].task;
    assert Follows(log, w);
    GenerationsGrow(log, t.id + 1, w);
  }

  predicate Hit(s: Store, asked: Ownership) {
    s.cache.Some? && s.cache.value.generation == s.generation
    && Matches(s.cache.value.ownership, asked) && s.cache.value.models != []
  }

  predicate Joins(s: Store, asked: Ownership) {
    s.probe.Some? && s.probe.value.generation == s.generation && Matches(s.probe.value.ownership, asked)
  }

  /**
   * What stands behind a write: the models came in for a task that was begun for exactly this ownership. The
   * start of a child told them while the child was alive and current; everybody else verified the process
   * after the reading, and nothing changed since the task began.
   */
  predicate Sound(log: Log, w: nat)
    requires w < |log| && (log[w].Tell? || log[w].SettleProbe? || log[w].Conclude?)
  {
    var t := log[w].task;
    && t.id < w && log[t.id] in {BeginProbe(t.ownership), BeginConfiguration(t.ownership), BeginReading(t.ownership)}
    && if log[w].Tell? then
         && t.id < log[w].arrival < w && log[log[w].arrival] == Arrive(t, log[w].models)
         && IsLiveChild(t.ownership, log[w].view)
       else
         var c := log[w].verdict;
         && t.id < c < w && log[c].Verify? && t.id < log[c].arrival < c
         && log[log[c].arrival] == Arrive(t, log[w].models)
         && log[c].answer == Some(t.ownership.processId) && SnapshotIsCurrent(t.ownership, log[c].view)
         && Untouched(log, t.id + 1, w)
  }

  /**
   * In every run, models served from the cache were read by a task begun for the ownership asked about, whose
   * process was alive and current after the reading, and no clear, invalidation or write came since they were
   * written; unless the start of the child told them, none came since the task began either.
   */
  lemma ServedModelsAreFresh(log: Log, asked: Ownership) returns (w: nat)
    requires Legal(log) && Hit(Run(log), asked)
    ensures w < |log| && Writes(log, w) && Untouched(log, w + 1, |log|)
    ensures Matches(WrittenFor(log[w]), asked) && log[w].models == Run(log).cache.value.models
    ensures Sound(log, w)
  {
    w := CacheWasWritten(log);
    assert Follows(log, w);
    if !log[w].Tell? {
      WritersAreUntouched(log, w);
      assert Follows(log, log[w].verdict);
    }
  }

  /** A caller joins only a probe for its own ownership that nothing has touched since it began. */
  lemma JoinedProbeIsFresh(log: Log, asked: Ownership)
    requires Joins(Run(log), asked)
    ensures var p := Run(log).probe.value;
            && p.id < |log| && log[p.id].BeginProbe? && Matches(log[p.id].ownership, asked)
            && Untouched(log, p.id + 1, |log|)
  {
    ProbeWasBegun(log);
  }

  /** After any change, whatever an older task still does leaves a newer cache and a newer probe alone. */
  lemma OlderTasksAreInert(log: Log, t: Task, verdict: nat, models: Models, owned: bool)
    requires Begun(log, |log|, t) && !Untouched(log, t.id + 1, |log|)
    ensures Step(Run(log), |log|, SettleProbe(t, verdict, models, owned)) == Run(log)
    ensures Step(Run(log), |log|, ReleaseProbe(t)) == Run(log)
    ensures Step(Run(log), |log|, Conclude(t, verdict, models, true)) == Run(log)
  {
    assert log[..|log|] == log;
    GenerationsGrow(log, t.id + 1, |log|);
    if Run(log).probe.Some? {
      ProbeWasBegun(log);
    }
  }

  /** An invalidation empties the store exactly of what it names, and leaves the rest untouched. */
  lemma InvalidationIsExact(log: Log, o: Ownership)
    ensures var s, after := Run(log), Invalidated(Run(log), o);
            && !(after.cache.Some? && Matches(after.cache.value.ownership, o))
            && !(after.probe.Some? && Matches(after.probe.value.ownership, o))
            && (after.generation != s.generation ==> after.cache.None? && after.probe.None?)
            && (after == s <==>
                  && !(s.cache.Some? && Matches(s.cache.value.ownership, o))
                  && !(s.probe.Some? && Matches(s.probe.value.ownership, o)))
            && (after.generation == s.generation ==> after == s)
  {
    OneOfCurrentGeneration(log);
  }

  /** What a continuation needs is there however many other segments run before it. */
  lemma ContinuationsStay(log: Log, more: Log, a: Action)
    requires Follows(log + [a], |log|) && !a.Verify?
    ensures Follows(log + more + [a], |log + more|)
  {
    var later := log + more + [a];
    forall t: Task | Begun(log + [a], |log|, t) ensures Begun(later, |log + more|, t) {
      assert (log + [a])[..t.id + 1] == later[..t.id + 1];
    }
    forall k | 0 <= k < |log| ensures (log + [a])[k] == later[k] {
    }
  }

  lemma FollowsInLonger(log: Log, longer: Log, n: nat)
    requires n < |log| <= |longer| && longer[..|log|] == log && Follows(log, n)
    ensures Follows(longer, n)
  {
    assert longer[..n] == log[..n] && longer[n] == log[n];
    forall t: Task | Begun(log, n, t) ensures Begun(longer, n, t) {
      assert longer[..t.id + 1] == log[..t.id + 1];
    }
    forall k | 0 <= k < n ensures longer[k] == log[k] {
    }
    hide Run;
  }

  lemma RunMore(log: Log, a: Action)
    ensures (log + [a])[..|log|] == log && Run(log + [a]) == Step(Run(log), |log|, a)
  {
    assert (log + [a])[..|log|] == log;
    hide Step;
  }

  lemma Extended(log: Log, a: Action)
    requires Legal(log) && Follows(log + [a], |log|)
    ensures Legal(log + [a]) && Run(log + [a]) == Step(Run(log), |log|, a)
  {
    hide Run;
    hide Follows;
    hide Step;
    RunMore(log, a);
    var longer := log + [a];
    forall n | 0 <= n < |log| ensures Follows(longer, n) {
      FollowsInLonger(log, longer, n);
    }
  }

  // ----- The class

  datatype Answer = Served(models: Models) | Joined(id: nat) | NotOwned | Started(task: Task)

  class ManagedGatewayModelReconciliation {
    var cache: Option<Cache>
    var generation: nat
    var probeInFlight: Option<Probe>
    // Segments run so far; a probe is named after the segment that created it.
    var segments: nat
    ghost var log: Log

    ghost predicate Valid()
      reads this
    {
      segments == |log| && Legal(log) && Run(log) == Store(cache, generation, probeInFlight)
    }

    constructor ()
      ensures Valid() && log == []
    {
      cache, generation, probeInFlight, segments, log := None, 0, None, 0, [];
    }

    /** Notes the segment that just ran. */
    ghost method Note(a: Action)
      requires Legal(log) && Follows(log + [a], |log|)
      modifies this`log
      ensures log == old(log) + [a] && Legal(log) && Run(log) == Step(Run(old(log)), |old(log)|, a)
    {
      Extended(log, a);
      log := log + [a];
    }

    method Clear()
      requires Valid()
      modifies this
      ensures Valid() && log == old(log) + [Action.Clear]
      ensures cache == None && probeInFlight == None
    {
      generation := generation + 1;
      cache := None;
      probeInFlight := None;
      segments := segments + 1;
      Note(Action.Clear);
    }

    /**
     * modelsForOwnedProcess up to the first await: serves the cache, joins a probe, refuses an ownership
     * that is not current, or starts a probe of its own.
     */
    method ModelsForOwnedProcess(state: GatewayState, processId: nat, view: View) returns (answer: Answer)
      requires Valid()
      modifies this
      ensures Valid()
      ensures var o := Capture(state, processId, view.child);
              && (answer.Served? <==> old(Hit(Run(log), o)))
              && (answer.Joined? <==> old(!Hit(Run(log), o) && Joins(Run(log), o)))
              && (answer.Started? <==> old(!Hit(Run(log), o) && !Joins(Run(log), o)) && SnapshotIsCurrent(o, view))
              && (answer.Served? ==> cache.Some? && answer.models == cache.value.models)
              && (answer.Joined? ==> probeInFlight.Some? && answer.id == probeInFlight.value.id)
              && (answer.Started? ==> log == old(log) + [BeginProbe(o)] && answer.task.ownership == o
                                      && Begun(log, |log|, answer.task))
      ensures !answer.Started? ==> log == old(log)
    {
      var ownership := Capture(state, processId, view.child);
      if cache.Some? && cache.value.generation == generation
         && Matches(cache.value.ownership, ownership) && cache.value.models != [] {
        return Served(cache.value.models);
      }
      if probeInFlight.Some? && probeInFlight.value.generation == generation
         && Matches(probeInFlight.value.ownership, ownership) {
        return Joined(probeInFlight.value.id);
      }
      if !SnapshotIsCurrent(ownership, view) {
        return NotOwned;
      }
      generation := generation + 1;
      cache := None;
      probeInFlight := Some(Probe(segments, generation, ownership));
      answer := Started(Task(segments, generation, ownership));
      segments := segments + 1;
      Note(BeginProbe(ownership));
      assert log[..|log|] == log;
    }

    /** projectConfigurationInternal up to the request: captures the ownership and the generation. */
    method CaptureForConfiguration(state: GatewayState, processId: nat, view: View) returns (task: Task)
      requires Valid()
      modifies this
      ensures Valid() && log == old(log) + [BeginConfiguration(Capture(state, processId, view.child))]
      ensures task.ownership == Capture(state, processId, view.child) && Begun(log, |log|, task)
      ensures Run(log) == old(Run(log))
    {
      task := Task(segments, generation, Capture(state, processId, view.child));
      segments := segments + 1;
      Note(BeginConfiguration(task.ownership));
      assert log[..|log|] == log;
    }

    /** A task continues with the models that came in, none when the key cannot be decrypted. */
    method ModelsArrive(task: Task, models: Models)
      requires Valid() && Follows(log + [Arrive(task, models)], |log|)
      modifies this
      ensures Valid() && log == old(log) + [Arrive(task, models)] && Run(log) == old(Run(log))
    {
      segments := segments + 1;
      Note(Arrive(task, models));
    }

    /** The end of managedGatewayProcessOwnershipIsCurrent; it asks nothing when the first check already failed. */
    method VerifyOwnership(task: Task, models: Models, asked: bool, answer: Option<nat>, view: View, ghost arrival: nat)
      returns (owned: bool)
      requires Valid() && Begun(log, |log|, task)
      requires task.id < arrival < |log| && log[arrival] == Arrive(task, models)
      modifies this
      ensures Valid() && log == old(log) + [Verify(task, arrival, models, asked, answer, view, owned)]
      ensures Run(log) == old(Run(log))
      ensures owned <==>
                && asked && answer == Some(task.ownership.processId) && SnapshotIsCurrent(task.ownership, view)
                && old(generation) == task.generation
    {
      owned := asked && FinalCheck(task.ownership, generation == task.generation, answer, view);
      segments := segments + 1;
      ghost var a := Verify(task, arrival, models, asked, answer, view, owned);
      assert Follows(log + [a], |log|) by {
        assert (log + [a])[..|log|] == log;
        assert (log + [a])[..task.id + 1] == log[..task.id + 1];
      }
      Note(a);
    }

    method Remember(ownership: Ownership, models: Models, expected: Option<nat>) returns (remembered: bool)
      modifies this
      ensures remembered <==> expected.None? || expected.value == old(generation)
      ensures var before := old(Store(cache, generation, probeInFlight));
              Store(cache, generation, probeInFlight)
              == if remembered then Remembered(before, ownership, models) else before
      ensures segments == old(segments) && log == old(log)
    {
      if expected.Some? && expected.value != generation {
        return false;
      }
      generation := generation + 1;
      cache := Some(Cache(models, generation, ownership));
      probeInFlight := None;
      return true;
    }

    method InvalidateOwnership(ownership: Ownership)
      modifies this
      ensures Store(cache, generation, probeInFlight)
           == Invalidated(old(Store(cache, generation, probeInFlight)), ownership)
      ensures segments == old(segments) && log == old(log)
    {
      var cacheMatches := cache.Some? && Matches(cache.value.ownership, ownership);
      var probeMatches := probeInFlight.Some? && Matches(probeInFlight.value.ownership, ownership);
      if !cacheMatches && !probeMatches {
        return;
      }
      generation := generation + 1;
      if cacheMatches {
        cache := None;
      }
      if probeMatches {
        probeInFlight := None;
      }
    }

    /** The end of a probe. Everybody who joined it gets its answer: models only if nothing changed meanwhile. */
    method SettleProbe(task: Task, models: Models, owned: bool, ghost verdict: nat)
      returns (available: Models, processOwned: bool)
      requires Valid() && Follows(log + [Action.SettleProbe(task, verdict, models, owned)], |log|)
      modifies this
      ensures Valid() && log == old(log) + [Action.SettleProbe(task, verdict, models, owned)]
      ensures available == if owned && Untouched(old(log), task.id + 1, |old(log)|) then models else []
      ensures processOwned <==> owned && (models == [] || Untouched(old(log), task.id + 1, |old(log)|))
      ensures available != [] <==> Writes(log, |old(log)|)
      ensures available != [] ==> cache == Some(Cache(models, generation, task.ownership))
    {
      ghost var a := Action.SettleProbe(task, verdict, models, owned);
      segments := segments + 1;
      assert (log + [a])[..|log|] == log && log[..|log|] == log;
      assert (log + [a])[..task.id + 1] == log[..task.id + 1];
      GenerationsGrow(log, task.id + 1, |log|);
      available, processOwned := [], owned;
      if models != [] && owned {
        if generation != task.generation {
          processOwned := false;
        } else {
          var _ := Remember(task.ownership, models, Some(task.generation));
          available, processOwned := models, true;
        }
      }
      Note(a);
    }

    /** What a probe does last, whether it succeeded or not. */
    method ReleaseProbe(task: Task)
      requires Valid() && Follows(log + [Action.ReleaseProbe(task)], |log|)
      modifies this
      ensures Valid() && log == old(log) + [Action.ReleaseProbe(task)]
      ensures cache == old(cache) && generation == old(generation)
      ensures !Untouched(old(log), task.id + 1, |old(log)|) ==> probeInFlight == old(probeInFlight)
      ensures Untouched(old(log), task.id + 1, |old(log)|) ==> probeInFlight == None
    {
      ghost var a := Action.ReleaseProbe(task);
      segments := segments + 1;
      assert (log + [a])[..|log|] == log && log[..|log|] == log;
      assert (log + [a])[..task.id + 1] == log[..task.id + 1];
      if probeInFlight.Some? {
        ProbeWasBegun(log);
        assert Changes(log, probeInFlight.value.id) && Changes(log, task.id);
      }
      if probeInFlight.Some? && probeInFlight.value.id == task.id {
        probeInFlight := None;
      }
      Note(a);
    }

    /** The end of projectConfigurationInternal: an error, or models that are now the cached ones. */
    method Conclude(task: Task, models: Models, owned: bool, ghost verdict: nat) returns (ok: bool)
      requires Valid() && Follows(log + [Action.Conclude(task, verdict, models, owned)], |log|)
      modifies this
      ensures Valid() && log == old(log) + [Action.Conclude(task, verdict, models, owned)]
      ensures ok <==> owned && Untouched(old(log), task.id + 1, |old(log)|)
      ensures ok ==> cache.Some? && cache.value.models == models && cache.value.ownership == task.ownership
      ensures owned && !ok ==> Run(log) == old(Run(log))
    {
      ghost var a := Action.Conclude(task, verdict, models, owned);
      segments := segments + 1;
      assert (log + [a])[..|log|] == log && log[..|log|] == log;
      assert (log + [a])[..task.id + 1] == log[..task.id + 1];
      GenerationsGrow(log, task.id + 1, |log|);
      if !owned {
        InvalidateOwnership(task.ownership);
        ok := false;
      } else {
        ok := Remember(task.ownership, models, Some(task.generation));
      }
      Note(a);
    }

    /** The readiness probe of a start, up to the request: it is for the child that was spawned. */
    method BeginReading(state: GatewayState, processId: nat, child: Child) returns (task: Task)
      requires Valid()
      modifies this
      ensures Valid() && log == old(log) + [Action.BeginReading(Ownership(Some(child), processId, state))]
      ensures task.ownership == Ownership(Some(child), processId, state) && Begun(log, |log|, task)
      ensures Run(log) == old(Run(log))
    {
      task := Task(segments, generation, Ownership(Some(child), processId, state));
      segments := segments + 1;
      Note(Action.BeginReading(task.ownership));
      assert log[..|log|] == log;
    }

    /**
     * rememberModelsForChild: the models that the start of a child read are kept exactly if that child is still
     * the live one of the state.
     */
    method RememberModelsForChild(task: Task, models: Models, view: View, ghost arrival: nat) returns (ok: bool)
      requires Valid() && Begun(log, |log|, task) && log[task.id].BeginReading? && task.ownership.child.Some?
      requires task.id < arrival < |log| && log[arrival] == Arrive(task, models)
      modifies this
      ensures Valid()
      ensures ok <==> IsLiveChild(task.ownership, view)
      ensures ok ==>
                && view.child == task.ownership.child && !view.exited
                && view.child.value.pid == Some(task.ownership.processId)
                && task.ownership.state.process.Some?
                && task.ownership.state.process.value.processId == task.ownership.processId
      ensures log == if ok then old(log) + [Tell(task, arrival, models, view)] else old(log)
      ensures ok ==> cache.Some? && cache.value.models == models && cache.value.ownership == task.ownership
    {
      var state, processId, expected := task.ownership.state, task.ownership.processId, task.ownership.child.value;
      if view.child != Some(expected) || expected.pid != Some(processId) || view.exited
         || state.process.None? || state.process.value.processId != processId {
        return false;
      }
      ghost var a := Tell(task, arrival, models, view);
      assert Follows(log + [a], |log|) by {
        assert (log + [a])[..|log|] == log;
        assert (log + [a])[..task.id + 1] == log[..task.id + 1];
      }
      segments := segments + 1;
      ok := Remember(Capture(state, processId, view.child), models, None);
      Note(a);
    }
  }
}
