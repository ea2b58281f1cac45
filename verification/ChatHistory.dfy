/**
 * The chat history file and the attachment directories beside it. A crash may come after any disk
 * operation, so every operation notes the disk after each of its steps.
 */
module ChatHistory {
  import opened Common

  const MAX_CONVERSATIONS := 50

  type AttachmentId = string

  /** A stored conversation, of which only the local attachments that its messages mention matter here. */
  datatype Conversation = Conversation(id: string, updatedAt: int, attachments: set<AttachmentId>)

  type History = seq<Conversation>

  /** What is on disk: the history file and the attachment directories. */
  datatype Disk = Disk(file: History, attachments: set<AttachmentId>)

  /** chatAttachmentIds of the messages of some conversations. */
  function Refs(history: History): set<AttachmentId> {
    set c, a | c in history && a in c.attachments :: a
  }

  lemma RefsOfParts(left: History, right: History)
    ensures Refs(left + right) == Refs(left) + Refs(right)
  {
  }

  lemma RefsOfSame(left: History, right: History)
    requires forall c :: c in left <==> c in right
    ensures Refs(left) == Refs(right)
  {
  }

  predicate UniqueIds(history: History) {
    forall i, k :: 0 <= i < k < |history| ==> history[i].id != history[k].id
  }

  lemma UniqueFront(c: Conversation, rest: History)
    ensures UniqueIds([c] + rest) <==> UniqueIds(rest) && forall d | d in rest :: d.id != c.id
  {
    var all := [c] + rest;
    assert all[1..] == rest;
    if UniqueIds(all) {
      forall i, k | 0 <= i < k < |rest| ensures rest[i].id != rest[k].id {
        assert all[i + 1].id != all[k + 1].id;
      }
      forall k | 0 <= k < |rest| ensures rest[k].id != c.id {
        assert all[0].id != all[k + 1].id;
      }
    }
  }

  // ----- Reading the file

  function Inserted(c: Conversation, sorted: History): History {
    if sorted == [] || c.updatedAt >= sorted[0].updatedAt then [c] + sorted
    else [sorted[0]] + Inserted(c, sorted[1..])
  }

  /** The stable sort by descending time. */
  function Newest(file: History): History {
    if file == [] then [] else Inserted(file[0], Newest(file[1..]))
  }

  function Limited(history: History): History {
    if |history| <= MAX_CONVERSATIONS then history else history[..MAX_CONVERSATIONS]
  }

  /** The conversations that a load answers with. */
  function Loaded(file: History): History {
    Limited(Newest(file))
  }

  predicate Descending(history: History) {
    forall i, k :: 0 <= i < k < |history| ==> history[i].updatedAt >= history[k].updatedAt
  }

  lemma DescendingFront(c: Conversation, rest: History)
    ensures Descending([c] + rest) <==> Descending(rest) && forall d | d in rest :: c.updatedAt >= d.updatedAt
  {
    var all := [c] + rest;
    assert all[1..] == rest;
    if Descending(all) {
      forall i, k | 0 <= i < k < |rest| ensures rest[i].updatedAt >= rest[k].updatedAt {
        assert all[i + 1].updatedAt >= all[k + 1].updatedAt;
      }
      forall k | 0 <= k < |rest| ensures c.updatedAt >= rest[k].updatedAt {
        assert all[0].updatedAt >= all[k + 1].updatedAt;
      }
    }
  }

  lemma {:induction false} InsertionKeeps(c: Conversation, sorted: History)
    requires Descending(sorted) && UniqueIds([c] + sorted)
    ensures var r := Inserted(c, sorted);
            Descending(r) && UniqueIds(r) && |r| == |sorted| + 1 && forall d :: d in r <==> d == c || d in sorted
  {
    hide UniqueIds;
    hide Descending;
    UniqueFront(c, sorted);
    if sorted == [] {
      DescendingFront(c, sorted);
    } else {
      var first, others := sorted[0], sorted[1..];
      assert sorted == [first] + others;
      UniqueFront(first, others);
      DescendingFront(first, others);
      if c.updatedAt >= first.updatedAt {
        DescendingFront(c, sorted);
      } else {
        UniqueFront(c, others);
        InsertionKeeps(c, others);
        UniqueFront(first, Inserted(c, others));
        DescendingFront(first, Inserted(c, others));
      }
    }
  }

  lemma {:induction false} NewestKeeps(file: History)
    requires UniqueIds(file)
    ensures var r := Newest(file);
            Descending(r) && UniqueIds(r) && |r| == |file| && forall d :: d in r <==> d in file
  {
    if file != [] {
      var first, others := file[0], file[1..];
      assert file == [first] + others;
      UniqueFront(first, others);
      NewestKeeps(others);
      UniqueFront(first, Newest(others));
      InsertionKeeps(first, Newest(others));
    }
  }

  /** A load of a file within the limit forgets no reference. */
  lemma LoadKeeps(file: History)
    requires UniqueIds(file)
    ensures UniqueIds(Loaded(file)) && |Loaded(file)| <= MAX_CONVERSATIONS
    ensures Refs(Loaded(file)) <= Refs(file)
    ensures |file| <= MAX_CONVERSATIONS ==>
              Refs(Loaded(file)) == Refs(file) && forall c :: c in Loaded(file) <==> c in file
  {
    NewestKeeps(file);
    RefsOfSame(Newest(file), file);
    hide Newest;
  }

  // ----- Saving and deleting

  function Without(history: History, id: string): (r: History)
    ensures forall c :: c in r <==> c in history && c.id != id
    ensures |r| <= |history|
  {
    if history == [] then []
    else (if history[0].id == id then [] else [history[0]]) + Without(history[1..], id)
  }

  lemma {:induction false} WithoutIsUnique(history: History, id: string)
    requires UniqueIds(history)
    ensures UniqueIds(Without(history, id))
  {
    if history != [] {
      var first, others := history[0], history[1..];
      assert history == [first] + others;
      UniqueFront(first, others);
      WithoutIsUnique(others, id);
      UniqueFront(first, Without(others, id));
      assert [] + Without(others, id) == Without(others, id);
    }
  }

  predicate Occurs(history: History, id: string) {
    exists j :: 0 <= j < |history| && history[j].id == id
  }

  /** The place of another conversation once the one with this identifier is gone. */
  function PlaceWithout(history: History, id: string, i: nat): int
    requires i <= |history|
  {
    if Occurs(history[..i], id) then i - 1 else i
  }

  predicate HoldsAt(history: History, k: int, c: Conversation) {
    0 <= k < |history| && history[k] == c
  }

  lemma HoldsBehind(first: Conversation, others: History, k: int, c: Conversation)
    requires HoldsAt(others, k, c)
    ensures HoldsAt([first] + others, k + 1, c)
  {
  }

  /** The others keep their order. */
  lemma {:induction false} WithoutAt(history: History, id: string, i: nat)
    requires UniqueIds(history) && i < |history| && history[i].id != id
    ensures HoldsAt(Without(history, id), PlaceWithout(history, id, i), history[i])
    decreases |history|
  {
    var first, others, c := history[0], history[1..], history[i];
    assert history == [first] + others && (i > 0 ==> others[i - 1] == c);
    UniqueFront(first, others);
    PlaceStep(first, others, id, i);
    WithoutStep(first, others, id);
    assert i == 0 ==> HoldsAt([first] + Without(others, id), 0, c);
    assert i > 0 ==> HoldsAt(others, i - 1, c);
    hide *;
    if first.id == id {
      NothingWithout(others, id);
    } else if i > 0 {
      WithoutAt(others, id, i - 1);
      HoldsBehind(first, Without(others, id), PlaceWithout(others, id, i - 1), c);
    }
  }

  lemma WithoutStep(first: Conversation, others: History, id: string)
    ensures Without([first] + others, id)
         == if first.id == id then Without(others, id) else [first] + Without(others, id)
  {
    assert ([first] + others)[1..] == others;
  }

  lemma PlaceStep(first: Conversation, others: History, id: string, i: nat)
    requires i <= |others| + 1
    ensures PlaceWithout([first] + others, id, i)
         == if i == 0 then 0 else if first.id == id then i - 1 else PlaceWithout(others, id, i - 1) + 1
  {
    if i > 0 {
      assert ([first] + others)[..i] == [first] + others[..i - 1];
      if first.id == id {
        assert ([first] + others[..i - 1])[0].id == id;
      } else {
        OccursBehind(first, others[..i - 1], id);
      }
    }
  }

  lemma OccursBehind(first: Conversation, others: History, id: string)
    requires first.id != id
    ensures Occurs([first] + others, id) <==> Occurs(others, id)
  {
    if Occurs(others, id) {
      var j :| 0 <= j < |others| && others[j].id == id;
      assert ([first] + others)[j + 1].id == id;
    }
  }

  lemma {:induction false} NothingWithout(history: History, id: string)
    requires forall d | d in history :: d.id != id
    ensures Without(history, id) == history
    decreases |history|
  {
    if history != [] {
      NothingWithout(history[1..], id);
      assert [history[0]] + history[1..] == history;
    }
  }

  lemma {:induction false} WithoutSize(history: History, id: string)
    requires UniqueIds(history)
    ensures |Without(history, id)| == PlaceWithout(history, id, |history|)
    decreases |history|
  {
    assert history[..|history|] == history;
    if history != [] {
      var first, others := history[0], history[1..];
      assert history == [first] + others;
      UniqueFront(first, others);
      if first.id == id {
        NothingWithout(others, id);
      } else {
        WithoutSize(others, id);
        assert others[..|others|] == others;
        OccursBehind(first, others, id);
      }
    }
  }

  /** The conversation of an identifier, if there is one. */
  function Found(history: History, id: string): (r: Option<Conversation>)
    ensures r.Some? ==> r.value in history && r.value.id == id
    ensures r.None? ==> forall c | c in history :: c.id != id
  {
    if history == [] then None else if history[0].id == id then Some(history[0]) else Found(history[1..], id)
  }

  lemma UniqueFound(history: History, c: Conversation)
    requires UniqueIds(history) && c in history
    ensures Found(history, c.id) == Some(c)
  {
  }

  function AsHistory(c: Option<Conversation>): History {
    if c.Some? then [c.value] else []
  }

  lemma RefsSplit(history: History, id: string)
    requires UniqueIds(history)
    ensures Refs(history) == Refs(AsHistory(Found(history, id))) + Refs(Without(history, id))
  {
    forall c | c in history ensures c in AsHistory(Found(history, id)) || c in Without(history, id) {
      UniqueFound(history, c);
    }
  }

  function Next(history: History, c: Conversation): History {
    Limited([c] + Without(history, c.id))
  }

  /** The replaced version and the conversations beyond the limit. */
  function Removed(history: History, c: Conversation): History {
    var without := Without(history, c.id);
    AsHistory(Found(history, c.id)) + (if |without| < MAX_CONVERSATIONS then [] else without[MAX_CONVERSATIONS - 1..])
  }

  /**
   * The new history has unique identifiers and starts with the new version; behind it come the others in their
   * order, up to the limit and all of them within it.
   */
  lemma NextIsHistory(history: History, c: Conversation)
    requires UniqueIds(history)
    ensures var next := Next(history, c);
            && UniqueIds(next) && 0 < |next| <= MAX_CONVERSATIONS && next[0] == c
            && (forall d | d in next :: d == c || (d in history && d.id != c.id))
            && (forall i :: 0 <= i < |history| && history[i].id != c.id ==>
                  (history[i] in next <==> PlaceWithout(history, c.id, i) < MAX_CONVERSATIONS - 1))
            && (forall i :: 0 <= i < |history| && history[i].id != c.id && history[i] in next ==>
                  HoldsAt(next, PlaceWithout(history, c.id, i) + 1, history[i]))
  {
    var without := Without(history, c.id);
    WithoutIsUnique(history, c.id);
    UniqueFront(c, without);
    var next := Next(history, c);
    forall i | 0 <= i < |history| && history[i].id != c.id
      ensures history[i] in next <==> PlaceWithout(history, c.id, i) < MAX_CONVERSATIONS - 1
      ensures history[i] in next ==> HoldsAt(next, PlaceWithout(history, c.id, i) + 1, history[i])
    {
      KeptByPlace(history, c, i);
    }
    hide Without;
    hide PlaceWithout;
  }

  lemma KeptByPlace(history: History, c: Conversation, i: nat)
    requires UniqueIds(history) && i < |history| && history[i].id != c.id
    ensures var next := Next(history, c);
            && PlaceWithout(history, c.id, i) >= 0
            && (history[i] in next <==> PlaceWithout(history, c.id, i) < MAX_CONVERSATIONS - 1)
            && (history[i] in next ==> HoldsAt(next, PlaceWithout(history, c.id, i) + 1, history[i]))
  {
    WithoutAt(history, c.id, i);
    WithoutIsUnique(history, c.id);
    var without, place := Without(history, c.id), PlaceWithout(history, c.id, i);
    hide Without;
    hide PlaceWithout;
    var next := Next(history, c);
    assert forall k :: 0 < k < |next| ==> next[k] == without[k - 1];
    if place < MAX_CONVERSATIONS - 1 {
      assert next[place + 1] == history[i];
    } else {
      forall k | 0 <= k < |next| ensures next[k] != history[i] {
        if k > 0 {
          assert without[k - 1].id != without[place].id;
        }
      }
    }
  }

  lemma SetsBalance(all: set<AttachmentId>, replaced: set<AttachmentId>, others: set<AttachmentId>,
                    new_: set<AttachmentId>, next: set<AttachmentId>, evicted: set<AttachmentId>)
    requires all == replaced + others && new_ + others == next + evicted && new_ <= next && evicted <= others
    ensures all + new_ == next + (replaced + evicted) && replaced + evicted <= all
    ensures (replaced + evicted) - next == all - next
  {
  }

  lemma KeptAndEvicted(c: Conversation, without: History)
    ensures var evicted := if |without| < MAX_CONVERSATIONS then [] else without[MAX_CONVERSATIONS - 1..];
            [c] + without == Limited([c] + without) + evicted && c in Limited([c] + without)
  {
    assert Limited([c] + without)[0] == c;
  }

  /** Every reference of the old history and of the new version is retained or handed to the cleanup, and no other. */
  lemma SaveConservesReferences(history: History, c: Conversation)
    requires UniqueIds(history)
    ensures Refs(history) + c.attachments == Refs(Next(history, c)) + Refs(Removed(history, c))
    ensures Refs(Removed(history, c)) - Refs(Next(history, c)) == Refs(history) - Refs(Next(history, c))
    ensures Refs(Removed(history, c)) <= Refs(history)
  {
    var without, replaced := Without(history, c.id), AsHistory(Found(history, c.id));
    var evicted := if |without| < MAX_CONVERSATIONS then [] else without[MAX_CONVERSATIONS - 1..];
    var next := Next(history, c);
    assert Removed(history, c) == replaced + evicted;
    KeptAndEvicted(c, without);
    assert Refs([c]) == c.attachments && c.attachments <= Refs(next) && Refs(evicted) <= Refs(without);
    RefsSplit(history, c.id);
    hide *;
    RefsOfParts(next, evicted);
    RefsOfParts([c], without);
    RefsOfParts(replaced, evicted);
    SetsBalance(Refs(history), Refs(replaced), Refs(without), c.attachments, Refs(next), Refs(evicted));
  }

  /** A deleted conversation hands exactly its own references to the cleanup. */
  lemma DeleteConservesReferences(history: History, c: Conversation)
    requires UniqueIds(history) && c in history
    ensures Refs(history) == Refs(Without(history, c.id)) + Refs([c])
    ensures Refs([c]) - Refs(Without(history, c.id)) == Refs(history) - Refs(Without(history, c.id))
    ensures UniqueIds(Without(history, c.id))
  {
    UniqueFound(history, c);
    RefsSplit(history, c.id);
    WithoutIsUnique(history, c.id);
  }

  // ----- The stores

  /** Of the attachments that existed, those that the history on disk mentions still exist. */
  ghost predicate Intact(existing: set<AttachmentId>, now: Disk) {
    Refs(now.file) * existing <= now.attachments
  }

  /** What an entry of the attachment folder is by its name: an attachment, one being imported, or neither. */
  datatype EntryName = Stored(id: AttachmentId) | Import(id: AttachmentId) | Foreign

  datatype Existing = Existing(name: EntryName, directory: bool, age: int)

  class ChatHistoryStore {
    var file: History
    var attachments: set<AttachmentId>
    // The attachments whose import has not been renamed into place.
    var imports: set<AttachmentId>
    // The disk after each step, at any of which a crash may come.
    ghost var points: seq<Disk>

    /** Every point noted after the first ones is intact. */
    ghost predicate IntactSince(before: seq<Disk>, existing: set<AttachmentId>)
      reads this
    {
      && |before| <= |points| && points[..|before|] == before
      && (forall k :: |before| <= k < |points| ==> Intact(existing, points[k]))
      && Intact(existing, Disk(file, attachments))
    }

    /** Deletes the candidates that are not retained, until one cannot be deleted. */
    method DeleteUnreferenced(candidates: set<AttachmentId>, retained: set<AttachmentId>, locked: set<AttachmentId>)
      returns (r: Outcome)
      requires Refs(file) <= retained
      modifies this`attachments, this`points
      ensures old(attachments) - (candidates - retained) <= attachments <= old(attachments)
      ensures r == Pass ==> attachments == old(attachments) - (candidates - retained)
      ensures r == Pass <==> (candidates - retained) * old(attachments) !! locked
      ensures IntactSince(old(points), old(attachments))
    {
      hide Refs;
      var rest := candidates;
      while rest != {}
        invariant rest <= candidates
        invariant attachments == old(attachments) - ((candidates - rest) - retained)
        invariant (candidates - rest - retained) * old(attachments) !! locked
        invariant IntactSince(old(points), old(attachments))
      {
        var attachmentId :| attachmentId in rest;
        rest := rest - {attachmentId};
        if attachmentId !in retained {
          if attachmentId in locked && attachmentId in attachments {
            return Fail;
          }
          attachments := attachments - {attachmentId};
          points := points + [Disk(file, attachments)];
        }
      }
      return Pass;
    }

    method CleanupAttachments(removed: History, retained: History, locked: set<AttachmentId>)
      requires Refs(file) <= Refs(retained)
      modifies this`attachments, this`points
      ensures old(attachments) - (Refs(removed) - Refs(retained)) <= attachments <= old(attachments)
      ensures (Refs(removed) - Refs(retained)) * old(attachments) !! locked ==>
                attachments == old(attachments) - (Refs(removed) - Refs(retained))
      ensures IntactSince(old(points), old(attachments))
    {
      // Failures are swallowed: the startup sweep reclaims what is left.
      var _ := DeleteUnreferenced(Refs(removed), Refs(retained), locked);
    }

    /** The history, unless its file is unusable. Other damage than a repeated identifier is not modelled. */
    method Load() returns (r: Result<History>)
      ensures r == if UniqueIds(file) then Ok(Loaded(file)) else Err
    {
      if !UniqueIds(file) {
        return Err;
      }
      return Ok(Loaded(file));
    }

    /**
     * save, `c` being the version to store. At every point, including a crash between the new file and the
     * cleanup, what the file mentions and existed before exists; a completed cleanup deletes exactly what
     * the loaded history mentioned and the new one does not.
     */
    method Save(c: Conversation, persistFails: bool, locked: set<AttachmentId>) returns (r: Outcome)
      modifies this
      ensures r == Pass <==> UniqueIds(old(file)) && !persistFails
      ensures r == Fail ==> file == old(file) && attachments == old(attachments)
      ensures r == Pass ==> file == Next(Loaded(old(file)), c) && UniqueIds(file) && |file| <= MAX_CONVERSATIONS
      ensures var forgotten := Refs(Loaded(old(file))) - Refs(file);
              r == Pass ==>
                && |points| > |old(points)| && points[|old(points)|] == Disk(file, old(attachments))
                && old(attachments) - forgotten <= attachments <= old(attachments)
                && (forgotten * old(attachments) !! locked ==> attachments == old(attachments) - forgotten)
      ensures IntactSince(old(points), old(attachments))
    {
      hide Refs;
      hide Loaded;
      hide Next;
      hide Removed;
      hide UniqueIds;
      var loaded := Load();
      if loaded.Err? {
        return Fail;
      }
      var history := loaded.value;
      LoadKeeps(file);
      NextIsHistory(history, c);
      SaveConservesReferences(history, c);
      if persistFails {
        return Fail;
      }
      var next, removed := Next(history, c), Removed(history, c);
      file := next;
      points := points + [Disk(file, attachments)];
      CleanupAttachments(removed, next, locked);
      return Pass;
    }

    /** delete */
    method Delete(id: string, persistFails: bool, locked: set<AttachmentId>) returns (r: Result<bool>)
      modifies this
      ensures r == Ok(false) <==> UniqueIds(old(file)) && forall c | c in Loaded(old(file)) :: c.id != id
      ensures r == Ok(true) ==> UniqueIds(file) && |file| <= MAX_CONVERSATIONS
      ensures r == Ok(true) ==> forall c :: c in file <==> c in Loaded(old(file)) && c.id != id
      ensures r == Ok(true) ==> file == Without(Loaded(old(file)), id)
      ensures var forgotten := Refs(Loaded(old(file))) - Refs(file);
              r == Ok(true) ==>
                && |points| > |old(points)| && points[|old(points)|] == Disk(file, old(attachments))
                && old(attachments) - forgotten <= attachments <= old(attachments)
                && (forgotten * old(attachments) !! locked ==> attachments == old(attachments) - forgotten)
      ensures r != Ok(true) ==> file == old(file) && attachments == old(attachments)
      ensures r.Err? <==> || !UniqueIds(old(file))
                          || (persistFails && exists c :: c in Loaded(old(file)) && c.id == id)
      ensures IntactSince(old(points), old(attachments))
    {
      hide Refs;
      hide Loaded;
      hide UniqueIds;
      hide Found;
      hide Without;
      var loaded := Load();
      if loaded.Err? {
        return Err;
      }
      var history := loaded.value;
      LoadKeeps(file);
      var found := Found(history, id);
      if found.None? {
        return Ok(false);
      }
      DeleteConservesReferences(history, found.value);
      if persistFails {
        return Err;
      }
      file := Without(history, id);
      points := points + [Disk(file, attachments)];
      CleanupAttachments([found.value], file, locked);
      return Ok(true);
    }

    /**
     * The startup sweep: of what it finds in the folder it deletes what is old enough and either not mentioned
     * by the loaded history or an interrupted import, and passes over what cannot be deleted. A file within the
     * limit loses nothing by it.
     */
    method CollectOrphans(listing: Option<seq<Existing>>, minimumAge: nat, locked: set<EntryName>)
      modifies this`attachments, this`imports, this`points
      ensures !UniqueIds(file) || listing.None? ==> attachments == old(attachments) && imports == old(imports)
      ensures UniqueIds(file) && listing.Some? ==>
                var swept := Sweepable(listing.value, Refs(Loaded(file)), minimumAge) - locked;
                && attachments == old(attachments) - (set e | e in swept && e.Stored? :: e.id)
                && imports == old(imports) - (set e | e in swept && e.Import? :: e.id)
      ensures |file| <= MAX_CONVERSATIONS ==> IntactSince(old(points), old(attachments))
    {
      hide Refs;
      hide Loaded;
      hide UniqueIds;
      var loaded := Load();
      if loaded.Err? || listing.None? {
        return;
      }
      LoadKeeps(file);
      var entries := listing.value;
      var retained := Refs(loaded.value);
      for i := 0 to |entries|
        invariant attachments
               == old(attachments)
                  - (set e | e in Sweepable(entries[..i], retained, minimumAge) - locked && e.Stored? :: e.id)
        invariant imports
               == old(imports)
                  - (set e | e in Sweepable(entries[..i], retained, minimumAge) - locked && e.Import? :: e.id)
        invariant |file| <= MAX_CONVERSATIONS ==> IntactSince(old(points), old(attachments))
      {
        var entry := entries[i];
        assert entries[..i + 1] == entries[..i] + [entry];
        if IsSweepable(entry, retained, minimumAge) && entry.name !in locked {
          if entry.name.Stored? {
            attachments := attachments - {entry.name.id};
          } else {
            imports := imports - {entry.name.id};
          }
          points := points + [Disk(file, attachments)];
        }
      }
      assert entries[..|entries|] == entries;
    }
  }

  predicate IsSweepable(e: Existing, retained: set<AttachmentId>, minimumAge: nat) {
    && e.directory && e.age >= minimumAge
    && (e.name.Import? || (e.name.Stored? && e.name.id !in retained))
  }

  /** What a sweep wants deleted. */
  function Sweepable(entries: seq<Existing>, retained: set<AttachmentId>, minimumAge: nat): set<EntryName> {
    set e | e in entries && IsSweepable(e, retained, minimumAge) :: e.name
  }

  /** It wants the old directories deleted of attachments that are not retained, and of interrupted imports. */
  lemma SweepableExactly(entries: seq<Existing>, retained: set<AttachmentId>, minimumAge: nat, id: AttachmentId)
    ensures Stored(id) in Sweepable(entries, retained, minimumAge)
            <==> && id !in retained
                 && exists e :: e in entries && e.name == Stored(id) && e.directory && e.age >= minimumAge
    ensures Import(id) in Sweepable(entries, retained, minimumAge)
            <==> exists e :: e in entries && e.name == Import(id) && e.directory && e.age >= minimumAge
    ensures Foreign !in Sweepable(entries, retained, minimumAge)
  {
    if e :| e in entries && e.name == Stored(id) && e.directory && e.age >= minimumAge {
      assert id !in retained ==> IsSweepable(e, retained, minimumAge);
    }
    if e :| e in entries && e.name == Import(id) && e.directory && e.age >= minimumAge {
      assert IsSweepable(e, retained, minimumAge);
    }
  }

  // ----- What a load over the limit forgets

  function Newer(history: History, time: int): (n: nat)
    ensures n <= |history|
  {
    if history == [] then 0 else (if history[0].updatedAt > time then 1 else 0) + Newer(history[1..], time)
  }

  function NotOlder(history: History, time: int): nat {
    if history == [] then 0 else (if history[0].updatedAt >= time then 1 else 0) + NotOlder(history[1..], time)
  }

  /** How many conversations of the file go before the i-th: the newer ones, and of equal time the earlier ones. */
  function Rank(file: History, i: nat): nat
    requires i < |file|
  {
    NotOlder(file[..i], file[i].updatedAt) + Newer(file[i + 1..], file[i].updatedAt)
  }

  /** Inserting puts the conversation behind exactly the newer ones. */
  lemma {:induction false} InsertedAt(c: Conversation, sorted: History)
    requires Descending(sorted)
    ensures |Inserted(c, sorted)| == |sorted| + 1 && Inserted(c, sorted)[Newer(sorted, c.updatedAt)] == c
    decreases |sorted|
  {
    if sorted == [] {
    } else if c.updatedAt >= sorted[0].updatedAt {
      NoneNewer(sorted, c.updatedAt);
    } else {
      var first, others := sorted[0], sorted[1..];
      assert sorted == [first] + others;
      DescendingFront(first, others);
      hide Descending;
      InsertedAt(c, others);
    }
  }

  /** It moves by one place exactly those that are not newer. */
  lemma {:induction false} InsertingMoves(c: Conversation, sorted: History, k: nat)
    requires Descending(sorted) && k < |sorted|
    ensures |Inserted(c, sorted)| == |sorted| + 1
    ensures Inserted(c, sorted)[if c.updatedAt >= sorted[k].updatedAt then k + 1 else k] == sorted[k]
    decreases |sorted|
  {
    var first, others := sorted[0], sorted[1..];
    assert sorted == [first] + others;
    DescendingFront(first, others);
    assert sorted[k] == first || sorted[k] in others;
    hide Descending;
    InsertedLength(c, sorted);
    if c.updatedAt < first.updatedAt && k > 0 {
      InsertingMoves(c, others, k - 1);
    }
  }

  lemma InsertedLength(c: Conversation, sorted: History)
    ensures |Inserted(c, sorted)| == |sorted| + 1
  {
  }

  lemma {:induction false} NoneNewer(history: History, time: int)
    requires forall k :: 0 <= k < |history| ==> history[k].updatedAt <= time
    ensures Newer(history, time) == 0
  {
    if history != [] {
      NoneNewer(history[1..], time);
    }
  }

  lemma {:induction false} InsertingCounts(c: Conversation, sorted: History, time: int)
    ensures Newer(Inserted(c, sorted), time) == Newer([c], time) + Newer(sorted, time)
    decreases |sorted|
  {
    if sorted == [] || c.updatedAt >= sorted[0].updatedAt {
      assert ([c] + sorted)[1..] == sorted && [c][1..] == [];
    } else {
      InsertingCounts(c, sorted[1..], time);
      assert ([sorted[0]] + Inserted(c, sorted[1..]))[1..] == Inserted(c, sorted[1..]);
    }
  }

  lemma {:induction false} SortingCounts(file: History, time: int)
    ensures Newer(Newest(file), time) == Newer(file, time)
    decreases |file|
  {
    if file != [] {
      SortingCounts(file[1..], time);
      InsertingCounts(file[0], Newest(file[1..]), time);
      assert [file[0]][1..] == [];
    }
  }

  lemma RankStep(file: History, i: nat)
    requires i < |file|
    ensures Rank(file, i)
         == if i == 0 then Newer(file[1..], file[0].updatedAt)
            else (if file[0].updatedAt >= file[i].updatedAt then 1 else 0) + Rank(file[1..], i - 1)
  {
    var first, others := file[0], file[1..];
    if i == 0 {
      assert file[..0] == [];
    } else {
      assert file[..i] == [first] + others[..i - 1] && file[i + 1..] == others[i..];
      assert ([first] + others[..i - 1])[1..] == others[..i - 1];
    }
  }

  /** The sort takes every conversation to the place that its rank names. */
  lemma {:induction false} SortedByRank(file: History, i: nat)
    requires UniqueIds(file) && i < |file|
    ensures Rank(file, i) < |Newest(file)| && Newest(file)[Rank(file, i)] == file[i]
    decreases |file|
  {
    var first, others := file[0], file[1..];
    assert file == [first] + others;
    UniqueFront(first, others);
    NewestKeeps(others);
    RankStep(file, i);
    assert Newest(file) == Inserted(first, Newest(others));
    hide *;
    InsertedLength(first, Newest(others));
    if i == 0 {
      SortingCounts(others, first.updatedAt);
      InsertedAt(first, Newest(others));
    } else {
      SortedByRank(others, i - 1);
      InsertingMoves(first, Newest(others), Rank(others, i - 1));
    }
  }

  /** One of the fifty newest conversations mentions `a`. */
  predicate MentionedByNewest(file: History, a: AttachmentId) {
    exists i :: 0 <= i < |file| && a in file[i].attachments && Rank(file, i) < MAX_CONVERSATIONS
  }

  /**
   * A load answers with exactly the fifty newest conversations, so of the references of a file it forgets exactly
   * those mentioned only beyond them.
   */
  lemma LongFilesForget(file: History, a: AttachmentId)
    requires UniqueIds(file)
    ensures forall i :: 0 <= i < |file| ==> (file[i] in Loaded(file) <==> Rank(file, i) < MAX_CONVERSATIONS)
    ensures a in Refs(Loaded(file)) <==> MentionedByNewest(file, a)
  {
    forall i | 0 <= i < |file| ensures file[i] in Loaded(file) <==> Rank(file, i) < MAX_CONVERSATIONS {
      RankDecides(file, i);
    }
    LoadKeeps(file);
    NewestKeeps(file);
    LoadedFromFile(file);
    hide Rank;
    hide Loaded;
    hide Newest;
  }

  lemma LoadedFromFile(file: History)
    requires UniqueIds(file)
    ensures forall c | c in Loaded(file) :: c in file
  {
    NewestKeeps(file);
    hide Newest;
  }

  lemma RankDecides(file: History, i: nat)
    requires UniqueIds(file) && i < |file|
    ensures file[i] in Loaded(file) <==> Rank(file, i) < MAX_CONVERSATIONS
  {
    SortedByRank(file, i);
    NewestKeeps(file);
    var sorted := Newest(file);
    hide Newest;
    hide Rank;
    if Rank(file, i) < MAX_CONVERSATIONS {
      assert Loaded(file)[Rank(file, i)] == file[i];
    } else {
      forall k | 0 <= k < |Loaded(file)| ensures Loaded(file)[k] != file[i] {
        assert Loaded(file)[k] == sorted[k];
        assert sorted[k].id != sorted[Rank(file, i)].id;
      }
    }
  }
}
