/**
 * Resuming and permanently deleting conversations. A deletion supersedes the resumes that could reach its
 * conversation, blocks new ones, and closes the owning sessions before the transcript is unlinked.
 */
module ConversationLifecycle {
  import opened Common

  /** A resolved directory in lower case. No path holds a NUL. */
  type Directory = s: string | '\0' !in s witness ""

  type Session = nat

  function LowerChar(c: char): char {
    if 'A' <= c <= 'Z' then c + ' ' else c
  }

  /** toLowerCase on the letters that identifiers are made of. */
  function Folded(id: string): string {
    seq(|id|, i requires 0 <= i < |id| => LowerChar(id[i]))
  }

  /** Two identifiers are folded to the same one exactly if they differ in the case of letters at most. */
  lemma FoldedExactly(a: string, b: string)
    ensures Folded(a) == Folded(b) <==>
              && |a| == |b|
              && forall i :: 0 <= i < |a| ==>
                   || a[i] == b[i]
                   || ('A' <= a[i] <= 'Z' && b[i] as int == a[i] as int + 32)
                   || ('A' <= b[i] <= 'Z' && a[i] as int == b[i] as int + 32)
  {
    if Folded(a) == Folded(b) {
      assert |Folded(a)| == |a| && |Folded(b)| == |b|;
      forall i | 0 <= i < |a| ensures LowerChar(a[i]) == LowerChar(b[i]) {
        assert Folded(a)[i] == Folded(b)[i];
      }
    }
  }

  function ConversationKey(cwdKey: Directory, id: string): string {
    cwdKey + "\0" + Folded(id)
  }

  lemma KeySplits(dir: Directory, id: string)
    ensures var key := ConversationKey(dir, id);
            && |key| > |dir| && key[|dir|] == '\0' && (forall i :: 0 <= i < |dir| ==> key[i] != '\0')
            && key[..|dir|] == dir && key[|dir| + 1..] == Folded(id)
  {
  }

  /** A key names one directory and one conversation. */
  lemma KeyIsInjective(dir1: Directory, id1: string, dir2: Directory, id2: string)
    requires ConversationKey(dir1, id1) == ConversationKey(dir2, id2)
    ensures dir1 == dir2 && Folded(id1) == Folded(id2)
  {
    KeySplits(dir1, id1);
    KeySplits(dir2, id2);
  }

  /** An intent is the object of its generation. */
  datatype Resume = Resume(conversationId: Option<string>, cwdKey: Directory, generation: nat, sessionId: Session)

  datatype Deletion = Deletion(conversationId: string, cwdKey: Directory, generation: nat, key: string,
                               pendingResumeSessionIds: set<Session>)

  /** The indexes, and the generations of the intents that are marked finished or superseded. */
  datatype State = State(
    deletions: map<string, Deletion>,
    deletionsByDirectory: map<Directory, set<Deletion>>,
    nextGeneration: nat,
    resumesByDirectory: map<Directory, set<Resume>>,
    finished: set<nat>,
    superseded: set<nat>)

  function At<T>(index: map<Directory, set<T>>, cwdKey: Directory): set<T> {
    if cwdKey in index then index[cwdKey] else {}
  }

  ghost predicate NoneEmpty<T>(index: map<Directory, set<T>>) {
    forall dir | dir in index :: index[dir] != {}
  }

  function With<T(==)>(index: map<Directory, set<T>>, cwdKey: Directory, x: T): (r: map<Directory, set<T>>)
    ensures forall dir: Directory :: At(r, dir) == if dir == cwdKey then At(index, cwdKey) + {x} else At(index, dir)
    ensures NoneEmpty(index) ==> NoneEmpty(r)
  {
    index[cwdKey := At(index, cwdKey) + {x}]
  }

  /** Deletes an element, and with the last element of a directory the directory. */
  function Without<T(==)>(index: map<Directory, set<T>>, cwdKey: Directory, x: T): (r: map<Directory, set<T>>)
    ensures forall dir: Directory :: At(r, dir) == if dir == cwdKey then At(index, cwdKey) - {x} else At(index, dir)
    ensures NoneEmpty(index) ==> NoneEmpty(r)
  {
    if cwdKey !in index then index
    else if index[cwdKey] - {x} == {} then index - {cwdKey}
    else index[cwdKey := index[cwdKey] - {x}]
  }

  predicate OwnsDeletion(s: State, d: Deletion) {
    d.generation !in s.finished && d.key in s.deletions && s.deletions[d.key] == d
  }

  predicate OwnsResume(s: State, r: Resume) {
    r.generation !in s.finished && r.generation !in s.superseded && r in At(s.resumesByDirectory, r.cwdKey)
  }

  /** Whether assertLaunchAllowed throws for a continued or resumed launch. An empty identifier counts as none. */
  predicate Blocked(s: State, cwdKey: Directory, id: Option<string>) {
    if id.Some? && id.value != "" then ConversationKey(cwdKey, id.value) in s.deletions
    else At(s.deletionsByDirectory, cwdKey) != {}
  }

  /** The resumes a deletion supersedes: those without an identifier and those with the same one. */
  predicate Targets(r: Resume, id: string) {
    r.conversationId.None? || Folded(r.conversationId.value) == Folded(id)
  }

  function Superseding(resumes: set<Resume>, id: string): set<Resume> {
    set r | r in resumes && Targets(r, id)
  }

  function SessionsOf(resumes: set<Resume>): set<Session> {
    set r | r in resumes :: r.sessionId
  }

  function GenerationsOf(resumes: set<Resume>): set<nat> {
    set r | r in resumes :: r.generation
  }

  function DeletionOf(s: State, cwdKey: Directory, id: string): Deletion {
    Deletion(id, cwdKey, s.nextGeneration + 1, ConversationKey(cwdKey, id),
             SessionsOf(Superseding(At(s.resumesByDirectory, cwdKey), id)))
  }

  function DeletionReserved(s: State, cwdKey: Directory, id: string): State {
    var d := DeletionOf(s, cwdKey, id);
    s.(deletions := s.deletions[d.key := d],
       deletionsByDirectory := With(s.deletionsByDirectory, cwdKey, d),
       nextGeneration := s.nextGeneration + 1,
       superseded := s.superseded + GenerationsOf(Superseding(At(s.resumesByDirectory, cwdKey), id)))
  }

  function DeletionFinished(s: State, d: Deletion): State {
    if d.generation in s.finished then s else
      s.(finished := s.finished + {d.generation},
         deletions := if d.key in s.deletions && s.deletions[d.key] == d then s.deletions - {d.key} else s.deletions,
         deletionsByDirectory := Without(s.deletionsByDirectory, d.cwdKey, d))
  }

  function ResumeOf(s: State, cwdKey: Directory, id: Option<string>, sessionId: Session): Resume {
    Resume(id, cwdKey, s.nextGeneration + 1, sessionId)
  }

  function ResumeReserved(s: State, cwdKey: Directory, id: Option<string>, sessionId: Session): State {
    s.(nextGeneration := s.nextGeneration + 1,
       resumesByDirectory := With(s.resumesByDirectory, cwdKey, ResumeOf(s, cwdKey, id, sessionId)))
  }

  function ResumeFinished(s: State, r: Resume): State {
    if r.generation in s.finished then s else
      s.(finished := s.finished + {r.generation},
         resumesByDirectory := Without(s.resumesByDirectory, r.cwdKey, r))
  }

  // ----- What every operation keeps

  /** Both deletion indexes hold the same unfinished deletions. */
  ghost predicate DeletionsAgree(s: State) {
    && NoneEmpty(s.deletionsByDirectory)
    && (forall k | k in s.deletions :: s.deletions[k].key == k && Active(s, s.deletions[k]))
    && (forall dir, d | d in At(s.deletionsByDirectory, dir) :: d.cwdKey == dir && Active(s, d))
  }

  ghost predicate Active(s: State, d: Deletion) {
    && d.key in s.deletions && s.deletions[d.key] == d
    && d in At(s.deletionsByDirectory, d.cwdKey)
    && d.key == ConversationKey(d.cwdKey, d.conversationId)
    && d.generation !in s.finished && d.generation <= s.nextGeneration
  }

  predicate Pending(s: State, r: Resume) {
    r in At(s.resumesByDirectory, r.cwdKey)
  }

  ghost predicate ResumesAgree(s: State) {
    && NoneEmpty(s.resumesByDirectory)
    && (forall dir, r | r in At(s.resumesByDirectory, dir) :: r.cwdKey == dir)
    && (forall r | Pending(s, r) :: r.generation !in s.finished && r.generation <= s.nextGeneration)
  }

  /** No current resume could reach a conversation that is being deleted. */
  ghost predicate DeletionsAbsorb(s: State) {
    forall k, r | k in s.deletions && Pending(s, r) ::
      s.deletions[k].cwdKey == r.cwdKey && Targets(r, s.deletions[k].conversationId) ==> r.generation in s.superseded
  }

  /** The intents of the indexes have generations of their own. */
  ghost predicate GenerationsDiffer(s: State) {
    && (forall g | g in s.finished :: g <= s.nextGeneration)
    && (forall g | g in s.superseded :: g <= s.nextGeneration)
    && (forall k1, k2 | k1 in s.deletions && k2 in s.deletions ::
          s.deletions[k1].generation == s.deletions[k2].generation ==> k1 == k2)
    && (forall r1, r2 | Pending(s, r1) && Pending(s, r2) :: r1.generation == r2.generation ==> r1 == r2)
    && (forall k, r | k in s.deletions && Pending(s, r) :: s.deletions[k].generation != r.generation)
  }

  ghost predicate Coherent(s: State) {
    DeletionsAgree(s) && ResumesAgree(s) && DeletionsAbsorb(s) && GenerationsDiffer(s)
  }

  lemma ReservingADeletionAgrees(s: State, cwdKey: Directory, id: string)
    requires DeletionsAgree(s) && ResumesAgree(s) && GenerationsDiffer(s)
    requires ConversationKey(cwdKey, id) !in s.deletions
    ensures DeletionsAgree(DeletionReserved(s, cwdKey, id)) && ResumesAgree(DeletionReserved(s, cwdKey, id))
    ensures OwnsDeletion(DeletionReserved(s, cwdKey, id), DeletionOf(s, cwdKey, id))
  {
    hide ConversationKey;
    hide Folded;
    hide With;
    hide At;
    hide NoneEmpty;
    hide Superseding;
    hide SessionsOf;
    hide GenerationsOf;
  }

  lemma ReservingADeletionKeeps(s: State, cwdKey: Directory, id: string)
    requires Coherent(s) && ConversationKey(cwdKey, id) !in s.deletions
    ensures Coherent(DeletionReserved(s, cwdKey, id))
    ensures OwnsDeletion(DeletionReserved(s, cwdKey, id), DeletionOf(s, cwdKey, id))
  {
    ReservingADeletionAgrees(s, cwdKey, id);
    hide ConversationKey;
    hide Folded;
    hide With;
    hide At;
    hide NoneEmpty;
    assert forall k | k in s.deletions :: s.deletions[k].generation <= s.nextGeneration;
    hide DeletionsAgree;
  }

  /** A deletion takes their ownership from the resumes it targets in its directory, and from no other. */
  lemma ReservingADeletionSupersedes(s: State, cwdKey: Directory, id: string, q: Resume)
    requires Coherent(s) && ConversationKey(cwdKey, id) !in s.deletions
    ensures OwnsResume(DeletionReserved(s, cwdKey, id), q)
            <==> && OwnsResume(s, q)
                 && !(q.cwdKey == cwdKey
                      && (q.conversationId.None? || Folded(q.conversationId.value) == Folded(id)))
  {
    hide ConversationKey;
    hide Folded;
    hide With;
    hide At;
    hide NoneEmpty;
    hide DeletionsAgree;
    hide DeletionsAbsorb;
    if OwnsResume(s, q) && q.cwdKey == cwdKey && Targets(q, id) {
      assert q in Superseding(At(s.resumesByDirectory, cwdKey), id);
    }
  }

  /** The sessions it will close are exactly those of the pending resumes that it targets. */
  lemma SessionsOfTargets(resumes: set<Resume>, id: string, session: Session)
    ensures session in SessionsOf(Superseding(resumes, id))
            <==> exists q :: q in resumes && q.sessionId == session
                             && (q.conversationId.None? || Folded(q.conversationId.value) == Folded(id))
  {
    hide Folded;
    if q :| q in resumes && q.sessionId == session && Targets(q, id) {
      assert q in Superseding(resumes, id);
    }
  }

  /** A launch is refused exactly while some conversation that it could reach is being deleted. */
  lemma BlockedExactly(s: State, cwdKey: Directory, id: Option<string>)
    requires Coherent(s)
    ensures Blocked(s, cwdKey, id)
            <==> exists k :: k in s.deletions && s.deletions[k].cwdKey == cwdKey
                             && (id.None? || id.value == ""
                                 || Folded(id.value) == Folded(s.deletions[k].conversationId))
  {
    hide Folded;
    if id.Some? && id.value != "" {
      var key := ConversationKey(cwdKey, id.value);
      if key in s.deletions {
        var d := s.deletions[key];
        assert Active(s, d);
        KeyIsInjective(d.cwdKey, d.conversationId, cwdKey, id.value);
      }
      if k :| k in s.deletions && s.deletions[k].cwdKey == cwdKey
              && Folded(id.value) == Folded(s.deletions[k].conversationId) {
        assert Active(s, s.deletions[k]);
        assert k == key;
      }
    } else {
      if At(s.deletionsByDirectory, cwdKey) != {} {
        var d :| d in At(s.deletionsByDirectory, cwdKey);
        assert Active(s, d) && d.cwdKey == cwdKey;
      }
    }
  }

  lemma FinishingADeletionAgrees(s: State, d: Deletion)
    requires DeletionsAgree(s) && ResumesAgree(s) && GenerationsDiffer(s) && OwnsDeletion(s, d)
    ensures DeletionsAgree(DeletionFinished(s, d)) && ResumesAgree(DeletionFinished(s, d))
  {
    hide ConversationKey;
    hide Without;
    hide At;
    hide NoneEmpty;
  }

  lemma FinishingADeletionKeeps(s: State, d: Deletion)
    requires Coherent(s) && (OwnsDeletion(s, d) || d.generation in s.finished)
    ensures Coherent(DeletionFinished(s, d))
  {
    if OwnsDeletion(s, d) {
      FinishingADeletionAgrees(s, d);
      hide ConversationKey;
      hide Without;
      hide At;
      hide NoneEmpty;
      hide Targets;
      hide ResumesAgree;
      assert d.generation <= s.nextGeneration;
      hide DeletionsAgree;
    }
  }

  lemma ReservingAResumeKeeps(s: State, cwdKey: Directory, id: Option<string>, sessionId: Session)
    requires Coherent(s) && !Blocked(s, cwdKey, id)
    ensures Coherent(ResumeReserved(s, cwdKey, id, sessionId))
    ensures OwnsResume(ResumeReserved(s, cwdKey, id, sessionId), ResumeOf(s, cwdKey, id, sessionId))
  {
    hide Folded;
    hide With;
    hide At;
    hide NoneEmpty;
  }

  lemma FinishingAResumeKeeps(s: State, r: Resume)
    requires Coherent(s) && (Pending(s, r) || r.generation in s.finished)
    ensures Coherent(ResumeFinished(s, r))
  {
    hide ConversationKey;
    hide Folded;
    hide Without;
    hide At;
    hide NoneEmpty;
  }

  // ----- Sessions and runs

  /** A session owns the conversation of a key. */
  datatype Owner = Owner(sessionId: Session, key: string)

  /** `waiting` holds, for each deletion begun, the candidate sessions it has not closed yet. */
  datatype World = World(state: State, owners: set<Owner>, waiting: map<Deletion, set<Session>>)

  datatype Action =
    | BeginDeletion(cwdKey: Directory, id: string)
    | CloseCandidate(deletion: Deletion, sessionId: Session)
    | Unlink(deletion: Deletion)
    | FinishDeletion(deletion: Deletion)
    | BeginResume(cwdKey: Directory, conversationId: Option<string>, sessionId: Session)
    | FinishResume(resume: Resume)
    | Gain(resume: Resume, id: string)
    | StartNew(cwdKey: Directory, id: string, sessionId: Session)
    | Leave(sessionId: Session)

  /** A resume can attach its session to the conversation it names, or to any when it names none. */
  predicate MayGain(r: Resume, id: string) {
    r.conversationId.None? || r.conversationId.value == "" || Folded(r.conversationId.value) == Folded(id)
  }

  function OwnersOf(w: World, key: string): set<Session> {
    set o | o in w.owners && o.key == key :: o.sessionId
  }

  predicate HexOnly(s: string) {
    forall c | c in s :: '0' <= c <= '9' || 'a' <= c <= 'f' || 'A' <= c <= 'F'
  }

  /** The identifiers that the launch handler lets through. */
  predicate IsSessionIdentifier(id: string) {
    && |id| == 36 && id[8] == id[13] == id[18] == id[23] == '-'
    && HexOnly(id[..8] + id[9..13] + id[14..18] + id[19..23] + id[24..])
  }

  /** A session gains a conversation only by a current resume, or by starting one that is not being deleted. */
  predicate Enabled(w: World, a: Action) {
    match a
    case BeginDeletion(cwdKey, id) => ConversationKey(cwdKey, id) !in w.state.deletions
    case CloseCandidate(d, session) => d in w.waiting && session in w.waiting[d] && OwnsDeletion(w.state, d)
    case Unlink(d) => d in w.waiting && w.waiting[d] == {} && OwnsDeletion(w.state, d)
    case FinishDeletion(d) => d in w.waiting
    case BeginResume(cwdKey, id, _) =>
      !Blocked(w.state, cwdKey, id) && (id.Some? ==> IsSessionIdentifier(id.value))
    case FinishResume(r) => Pending(w.state, r) || r.generation in w.state.finished
    case Gain(r, id) => OwnsResume(w.state, r) && MayGain(r, id)
    case StartNew(cwdKey, id, _) => ConversationKey(cwdKey, id) !in w.state.deletions
    case Leave(_) => true
  }

  function Next(w: World, a: Action): World {
    match a
    case BeginDeletion(cwdKey, id) =>
      var d := DeletionOf(w.state, cwdKey, id);
      w.(state := DeletionReserved(w.state, cwdKey, id),
         waiting := w.waiting[d := d.pendingResumeSessionIds + OwnersOf(w, d.key)])
    case CloseCandidate(d, session) =>
      w.(owners := if Owner(session, d.key) in w.owners then Left(w.owners, session) else w.owners,
         waiting := if d in w.waiting then w.waiting[d := w.waiting[d] - {session}] else w.waiting)
    case Unlink(_) => w
    case FinishDeletion(d) => w.(state := DeletionFinished(w.state, d))
    case BeginResume(cwdKey, id, session) => w.(state := ResumeReserved(w.state, cwdKey, id, session))
    case FinishResume(r) => w.(state := ResumeFinished(w.state, r))
    case Gain(r, id) => w.(owners := w.owners + {Owner(r.sessionId, ConversationKey(r.cwdKey, id))})
    case StartNew(cwdKey, id, session) => w.(owners := w.owners + {Owner(session, ConversationKey(cwdKey, id))})
    case Leave(session) => w.(owners := Left(w.owners, session))
  }

  /** A session is closed. */
  function Left(owners: set<Owner>, session: Session): set<Owner> {
    set o | o in owners && o.sessionId != session
  }

  const EMPTY: State := State(map[], map[], 0, map[], {}, {})

  function After(run: seq<Action>): World {
    if run == [] then World(EMPTY, {}, map[]) else Next(After(run[..|run| - 1]), run[|run| - 1])
  }

  predicate IsRun(run: seq<Action>) {
    forall n :: 0 <= n < |run| ==> Enabled(After(run[..n]), run[n])
  }

  /** No pending resume has an empty identifier. */
  ghost predicate Named(s: State) {
    forall r | Pending(s, r) :: r.conversationId != Some("")
  }

  ghost predicate Begun(w: World, d: Deletion) {
    OwnsDeletion(w.state, d) || d.generation in w.state.finished
  }

  /** Whoever owns a conversation that is being deleted is still to be closed. */
  ghost predicate OwnersWait(w: World) {
    forall d | d in w.waiting && OwnsDeletion(w.state, d) :: OwnersOf(w, d.key) <= w.waiting[d]
  }

  ghost predicate Guarded(w: World) {
    && Coherent(w.state)
    && (forall d | d in w.waiting :: Begun(w, d))
    && (forall k | k in w.state.deletions :: w.state.deletions[k] in w.waiting)
  }

  lemma StepKeepsGuarded(w: World, a: Action)
    requires Guarded(w) && Enabled(w, a)
    ensures Guarded(Next(w, a))
  {
    hide Coherent;
    hide ConversationKey;
    hide Superseding;
    match a
    case BeginDeletion(cwdKey, id) => ReservingADeletionKeeps(w.state, cwdKey, id);
    case FinishDeletion(d) => FinishingADeletionKeeps(w.state, d);
    case BeginResume(cwdKey, id, session) => ReservingAResumeKeeps(w.state, cwdKey, id, session);
    case FinishResume(r) => FinishingAResumeKeeps(w.state, r);
    case _ =>
  }

  lemma StepKeepsNamed(w: World, a: Action)
    requires Named(w.state) && Enabled(w, a)
    ensures Named(Next(w, a).state)
  {
    hide Superseding;
    hide ConversationKey;
  }

  /** A resume that may gain a conversation being deleted is not current, unless its identifier is empty. */
  lemma GainsAvoidDeletions(s: State, r: Resume, id: string)
    requires Coherent(s) && OwnsResume(s, r) && MayGain(r, id) && r.conversationId != Some("")
    ensures ConversationKey(r.cwdKey, id) !in s.deletions
  {
    var key := ConversationKey(r.cwdKey, id);
    assert Pending(s, r);
    if key in s.deletions {
      var d := s.deletions[key];
      assert Active(s, d);
      KeyIsInjective(r.cwdKey, id, d.cwdKey, d.conversationId);
    }
  }

  lemma StepKeepsOwnersWaiting(w: World, a: Action)
    requires Guarded(w) && Named(w.state) && OwnersWait(w) && Enabled(w, a)
    ensures OwnersWait(Next(w, a))
  {
    if a.Gain? {
      GainsAvoidDeletions(w.state, a.resume, a.id);
    }
    hide ConversationKey;
    hide Coherent;
    hide Named;
    hide Begun;
    var after := Next(w, a);
    forall d | d in after.waiting && OwnsDeletion(after.state, d) ensures OwnersOf(after, d.key) <= after.waiting[d] {
      if !(a.BeginDeletion? && d == DeletionOf(w.state, a.cwdKey, a.id)) {
        assert d in w.waiting && OwnsDeletion(w.state, d);
        forall session | session in OwnersOf(after, d.key) ensures session in after.waiting[d] {
          assert Owner(session, d.key) in after.owners;
          assert Owner(session, d.key) in w.owners ==> session in OwnersOf(w, d.key);
        }
      }
    }
  }

  lemma AfterStep(run: seq<Action>, n: nat)
    requires n < |run|
    ensures After(run[..n + 1]) == Next(After(run[..n]), run[n])
  {
    assert run[..n + 1][..n] == run[..n];
  }

  lemma RunPrefix(run: seq<Action>)
    requires IsRun(run) && run != []
    ensures var n := |run| - 1;
            IsRun(run[..n]) && Enabled(After(run[..n]), run[n]) && After(run) == Next(After(run[..n]), run[n])
  {
    var n := |run| - 1;
    hide After;
    hide Enabled;
    forall k | 0 <= k < n ensures Enabled(After(run[..n][..k]), run[..n][k]) {
      assert run[..n][..k] == run[..k];
      assert Enabled(After(run[..k]), run[k]);
    }
    AfterStep(run, n);
    assert run[..n + 1] == run;
  }

  /** In every run the indexes agree and every deletion is absorbing. */
  lemma {:induction false} EveryRunIsGuarded(run: seq<Action>)
    requires IsRun(run)
    ensures Guarded(After(run))
    decreases |run|
  {
    if run != [] {
      RunPrefix(run);
      hide *;
      EveryRunIsGuarded(run[..|run| - 1]);
      StepKeepsGuarded(After(run[..|run| - 1]), run[|run| - 1]);
    }
  }

  lemma {:induction false} EveryRunWaits(run: seq<Action>)
    requires IsRun(run)
    ensures Named(After(run).state) && OwnersWait(After(run))
    decreases |run|
  {
    if run != [] {
      var before, last := run[..|run| - 1], run[|run| - 1];
      RunPrefix(run);
      hide *;
      EveryRunWaits(before);
      EveryRunIsGuarded(before);
      StepKeepsNamed(After(before), last);
      StepKeepsOwnersWaiting(After(before), last);
    }
  }

  /** In every run, while a deletion is active, no current resume of its directory names its conversation or none. */
  lemma ActiveDeletionsAreUnreachable(run: seq<Action>, d: Deletion, r: Resume)
    requires IsRun(run) && OwnsDeletion(After(run).state, d)
    requires OwnsResume(After(run).state, r) && r.cwdKey == d.cwdKey
    ensures !MayGain(r, d.conversationId)
  {
    EveryRunIsGuarded(run);
    EveryRunWaits(run);
    var s := After(run).state;
    assert Active(s, d) && Pending(s, r);
    if MayGain(r, d.conversationId) {
      GainsAvoidDeletions(s, r, d.conversationId);
    }
  }

  /** In every run no session owns a conversation when its transcript is unlinked. */
  lemma UnlinkedIsUnowned(run: seq<Action>, d: Deletion)
    requires IsRun(run) && Enabled(After(run), Unlink(d))
    ensures OwnersOf(After(run), d.key) == {}
  {
    EveryRunWaits(run);
  }

  lemma StepKeepsResumeLost(w: World, a: Action, r: Resume)
    requires Guarded(w) && Enabled(w, a) && r.generation <= w.state.nextGeneration && !OwnsResume(w.state, r)
    ensures !OwnsResume(Next(w, a).state, r) && r.generation <= Next(w, a).state.nextGeneration
  {
    hide ConversationKey;
    hide Superseding;
  }

  /** A resume that lost its ownership never gets it back, in any continuation of the run. */
  lemma {:induction false} LostResumesStayLost(run: seq<Action>, more: seq<Action>, r: Resume)
    requires IsRun(run + more) && r.generation <= After(run).state.nextGeneration && !OwnsResume(After(run).state, r)
    ensures !OwnsResume(After(run + more).state, r) && r.generation <= After(run + more).state.nextGeneration
    decreases |more|
  {
    hide *;
    if more == [] {
      assert run + more == run;
    } else {
      var front := more[..|more| - 1];
      assert (run + more)[..|run + more| - 1] == run + front;
      RunPrefix(run + more);
      EveryRunIsGuarded(run + front);
      LostResumesStayLost(run, front, r);
      StepKeepsResumeLost(After(run + front), more[|more| - 1], r);
    }
  }

  lemma StepLosesResume(w: World, a: Action, r: Resume)
    requires Guarded(w) && Enabled(w, a) && OwnsResume(w.state, r)
    ensures !OwnsResume(Next(w, a).state, r)
            <==> || a == FinishResume(r)
                 || (a.BeginDeletion? && a.cwdKey == r.cwdKey
                     && (r.conversationId.None? || Folded(r.conversationId.value) == Folded(a.id)))
  {
    if a.BeginDeletion? {
      ReservingADeletionSupersedes(w.state, a.cwdKey, a.id, r);
      hide DeletionReserved;
      hide Coherent;
    } else {
      hide ConversationKey;
      hide Superseding;
      hide DeletionsAgree;
      hide DeletionsAbsorb;
      hide NoneEmpty;
    }
    hide Folded;
  }

  /** In every run, a current resume is lost exactly by its own end, or by a deletion that targets it. */
  lemma ResumesAreLostExactly(run: seq<Action>, a: Action, r: Resume)
    requires IsRun(run + [a]) && OwnsResume(After(run).state, r)
    ensures !OwnsResume(After(run + [a]).state, r)
            <==> || a == FinishResume(r)
                 || (a.BeginDeletion? && a.cwdKey == r.cwdKey
                     && (r.conversationId.None? || Folded(r.conversationId.value) == Folded(a.id)))
  {
    hide *;
    RunPrefix(run + [a]);
    assert (run + [a])[..|run + [a]| - 1] == run;
    EveryRunIsGuarded(run);
    StepLosesResume(After(run), a, r);
  }

  lemma StepKeepsDeletion(w: World, a: Action, d: Deletion)
    requires Guarded(w) && Enabled(w, a) && OwnsDeletion(w.state, d) && a != FinishDeletion(d)
    ensures OwnsDeletion(Next(w, a).state, d)
    ensures a.BeginDeletion? ==> ConversationKey(a.cwdKey, a.id) != d.key
  {
    hide ConversationKey;
    hide Superseding;
    hide DeletionsAbsorb;
    hide ResumesAgree;
    hide NoneEmpty;
    hide At;
    if a.FinishDeletion? && OwnsDeletion(w.state, a.deletion) {
      assert a.deletion.key != d.key;
    }
  }

  /**
   * A deletion keeps its ownership in every continuation of the run until it finishes, and until then no other
   * deletion of the same conversation begins.
   */
  lemma {:induction false} DeletionsHold(run: seq<Action>, more: seq<Action>, d: Deletion)
    requires IsRun(run + more) && OwnsDeletion(After(run).state, d) && FinishDeletion(d) !in more
    ensures OwnsDeletion(After(run + more).state, d)
    ensures forall k :: 0 <= k < |more| && more[k].BeginDeletion? ==>
              ConversationKey(more[k].cwdKey, more[k].id) != d.key
    decreases |more|
  {
    hide *;
    if more == [] {
      assert run + more == run;
    } else {
      var front := more[..|more| - 1];
      assert (run + more)[..|run + more| - 1] == run + front;
      RunPrefix(run + more);
      EveryRunIsGuarded(run + front);
      DeletionsHold(run, front, d);
      StepKeepsDeletion(After(run + front), more[|more| - 1], d);
    }
  }

  /**
   * The coordinator itself judges an empty identifier like none when it checks a launch, but not when a deletion
   * supersedes resumes: of all resumes begun before a deletion, exactly those with an empty identifier stay
   * current and could reach its conversation. The launch handler rejects them.
   */
  lemma EmptyIdentifierEscapes(s: State, cwdKey: Directory, id: Option<string>, session: Session, deleted: string)
    requires Coherent(s) && !Blocked(s, cwdKey, id) && ConversationKey(cwdKey, deleted) !in s.deletions
    ensures var r := ResumeOf(s, cwdKey, id, session);
            var after := DeletionReserved(ResumeReserved(s, cwdKey, id, session), cwdKey, deleted);
            OwnsResume(after, r) && MayGain(r, deleted) <==> id == Some("") && deleted != ""
  {
    ReservingAResumeKeeps(s, cwdKey, id, session);
    var r := ResumeOf(s, cwdKey, id, session);
    var reserved := ResumeReserved(s, cwdKey, id, session);
    assert r in At(reserved.resumesByDirectory, cwdKey);
    assert |Folded("")| == 0 && |Folded(deleted)| == |deleted|;
    assert r in Superseding(At(reserved.resumesByDirectory, cwdKey), deleted) <==> Targets(r, deleted);
    assert forall q | q in Superseding(At(reserved.resumesByDirectory, cwdKey), deleted) ::
        Pending(reserved, q) && (q.generation == r.generation ==> q == r);
    hide ConversationKey;
    hide Folded;
    hide Coherent;
  }

  // ----- The coordinator

  class ClaudeConversationLifecycleCoordinator {
    var deletions: map<string, Deletion>
    var deletionsByDirectory: map<Directory, set<Deletion>>
    var nextGeneration: nat
    var resumesByDirectory: map<Directory, set<Resume>>
    // The marks on the intents, which both indexes share.
    var finished: set<nat>
    var superseded: set<nat>

    function Now(): State
      reads this
    {
      State(deletions, deletionsByDirectory, nextGeneration, resumesByDirectory, finished, superseded)
    }

    ghost predicate Valid()
      reads this
    {
      Coherent(Now())
    }

    constructor ()
      ensures Valid() && Now() == EMPTY
    {
      deletions, deletionsByDirectory, nextGeneration := map[], map[], 0;
      resumesByDirectory, finished, superseded := map[], {}, {};
    }

    /** assertLaunchAllowed for a mode other than `new`; Err is the thrown error. */
    method AssertLaunchAllowed(cwdKey: Directory, id: Option<string>) returns (r: Outcome)
      ensures r == if Blocked(Now(), cwdKey, id) then Fail else Pass
    {
      var blocked;
      if id.Some? && id.value != "" {
        blocked := ConversationKey(cwdKey, id.value) in deletions;
      } else {
        blocked := cwdKey in deletionsByDirectory && |deletionsByDirectory[cwdKey]| > 0;
      }
      return if blocked then Fail else Pass;
    }

    method ReserveResume(cwdKey: Directory, id: Option<string>, sessionId: Session) returns (r: Result<Resume>)
      requires Valid()
      modifies this
      ensures Valid()
      ensures r.Err? <==> old(Blocked(Now(), cwdKey, id))
      ensures r.Err? ==> Now() == old(Now())
      ensures r.Ok? ==> Now() == ResumeReserved(old(Now()), cwdKey, id, sessionId)
                        && r.value == ResumeOf(old(Now()), cwdKey, id, sessionId) && OwnsResume(Now(), r.value)
    {
      var allowed := AssertLaunchAllowed(cwdKey, id);
      if allowed == Fail {
        return Err;
      }
      ReservingAResumeKeeps(Now(), cwdKey, id, sessionId);
      nextGeneration := nextGeneration + 1;
      var intent := Resume(id, cwdKey, nextGeneration, sessionId);
      var resumes := if cwdKey in resumesByDirectory then resumesByDirectory[cwdKey] else {};
      resumesByDirectory := resumesByDirectory[cwdKey := resumes + {intent}];
      return Ok(intent);
    }

    /** Marks the pending resumes that a deletion cancels, and collects their sessions. */
    method SupersedeResumes(cwdKey: Directory, id: string) returns (pending: set<Session>)
      modifies this`superseded
      ensures pending == SessionsOf(Superseding(At(resumesByDirectory, cwdKey), id))
      ensures superseded == old(superseded) + GenerationsOf(Superseding(At(resumesByDirectory, cwdKey), id))
      ensures forall session :: session in pending
                                <==> exists q :: q in At(resumesByDirectory, cwdKey)
                                                 && q.sessionId == session && Targets(q, id)
    {
      pending := {};
      var all := if cwdKey in resumesByDirectory then resumesByDirectory[cwdKey] else {};
      var rest := all;
      while rest != {}
        invariant rest <= all
        invariant pending == SessionsOf(Superseding(all - rest, id))
        invariant superseded == old(superseded) + GenerationsOf(Superseding(all - rest, id))
      {
        var resume :| resume in rest;
        ghost var done := all - rest;
        rest := rest - {resume};
        assert all - rest == done + {resume};
        if resume.conversationId.None? || Folded(resume.conversationId.value) == Folded(id) {
          superseded := superseded + {resume.generation};
          pending := pending + {resume.sessionId};
          assert Superseding(done + {resume}, id) == Superseding(done, id) + {resume};
        } else {
          assert Superseding(done + {resume}, id) == Superseding(done, id);
        }
      }
      assert all - rest == all;
      forall session ensures session in pending
                             <==> exists q :: q in all && q.sessionId == session && Targets(q, id) {
        SessionsOfTargets(all, id, session);
      }
    }

    method ReserveDeletion(cwdKey: Directory, id: string) returns (r: Result<Deletion>)
      requires Valid()
      modifies this
      ensures Valid()
      ensures r.Err? <==> ConversationKey(cwdKey, id) in old(deletions)
      ensures r.Err? ==> Now() == old(Now())
      ensures r.Ok? ==> Now() == DeletionReserved(old(Now()), cwdKey, id)
                        && r.value == DeletionOf(old(Now()), cwdKey, id) && OwnsDeletion(Now(), r.value)
      ensures r.Ok? ==>
                forall q :: OwnsResume(Now(), q)
                            <==> OwnsResume(old(Now()), q) && !(q.cwdKey == cwdKey && Targets(q, id))
      ensures r.Ok? ==>
                forall session :: session in r.value.pendingResumeSessionIds
                                  <==> exists q :: q in At(old(resumesByDirectory), cwdKey)
                                                   && q.sessionId == session && Targets(q, id)
    {
      hide Coherent;
      hide Superseding;
      hide ConversationKey;
      var key := ConversationKey(cwdKey, id);
      if key in deletions {
        return Err;
      }
      ReservingADeletionKeeps(Now(), cwdKey, id);
      forall q ensures OwnsResume(DeletionReserved(Now(), cwdKey, id), q)
                       <==> OwnsResume(Now(), q) && !(q.cwdKey == cwdKey && Targets(q, id)) {
        ReservingADeletionSupersedes(Now(), cwdKey, id, q);
      }
      var pending := SupersedeResumes(cwdKey, id);
      nextGeneration := nextGeneration + 1;
      var intent := Deletion(id, cwdKey, nextGeneration, key, pending);
      deletions := deletions[key := intent];
      var directoryDeletions := if cwdKey in deletionsByDirectory then deletionsByDirectory[cwdKey] else {};
      deletionsByDirectory := deletionsByDirectory[cwdKey := directoryDeletions + {intent}];
      return Ok(intent);
    }

    method FinishDeletion(intent: Deletion)
      requires Valid() && (OwnsDeletion(Now(), intent) || intent.generation in finished)
      modifies this
      ensures Valid() && Now() == DeletionFinished(old(Now()), intent)
      ensures !OwnsDeletion(Now(), intent)
    {
      hide Coherent;
      if intent.generation in finished {
        return;
      }
      FinishingADeletionKeeps(Now(), intent);
      finished := finished + {intent.generation};
      if intent.key in deletions && deletions[intent.key] == intent {
        deletions := deletions - {intent.key};
      }
      if intent.cwdKey in deletionsByDirectory {
        var directoryDeletions := deletionsByDirectory[intent.cwdKey] - {intent};
        deletionsByDirectory := if |directoryDeletions| == 0 then deletionsByDirectory - {intent.cwdKey}
                                else deletionsByDirectory[intent.cwdKey := directoryDeletions];
      }
    }

    method FinishResume(intent: Resume)
      requires Valid() && (Pending(Now(), intent) || intent.generation in finished)
      modifies this
      ensures Valid() && Now() == ResumeFinished(old(Now()), intent)
      ensures !OwnsResume(Now(), intent)
    {
      hide Coherent;
      if intent.generation in finished {
        return;
      }
      FinishingAResumeKeeps(Now(), intent);
      finished := finished + {intent.generation};
      if intent.cwdKey in resumesByDirectory {
        var resumes := resumesByDirectory[intent.cwdKey] - {intent};
        resumesByDirectory := if |resumes| == 0 then resumesByDirectory - {intent.cwdKey}
                              else resumesByDirectory[intent.cwdKey := resumes];
      }
    }
  }
}
