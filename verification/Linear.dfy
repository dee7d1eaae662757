/**
  No lost updates: although every writer reads long before it commits, the
  messages, threads, send states and idempotency keys of any run are exactly
  what performing the committed requests one at a time, atomically and in
  commit order, would leave.
 */
module Linear {
  import opened Effects
  import opened Plan
  import opened Records
  import opened Runs
  import opened Sends
  import opened Threads

  // ---------------------------------------------------------------------
  // Rows that were read
  // ---------------------------------------------------------------------

  lemma SeenRowIsTyped(events: seq<Event>, k: Key, row: Row)
    requires ValidRun(events) && Seen(events, k, Some(row))
    ensures KeyOf(row) == k
  {
    var n :| 0 <= n <= |events| && Lookup(After(events[..n]), k) == Some(row);
    PrefixValid(events, n);
    RunGrows(events[..n], 0);
  }

  /** The state a committed claim produced was stored. */
  lemma ClaimWasStored(events: seq<Event>, i: nat)
    requires ValidRun(events) && i < |events| && events[i].ClaimEvent?
    ensures var claimed := ClaimedState(events[i].before, events[i].now);
            && Lookup(After(events[..i + 1]), StateKey(claimed.messageId)) == Some(StateRow(claimed))
            && Seen(events, StateKey(claimed.messageId), Some(StateRow(claimed)))
  {
    StepAt(events, i);
    RunGrows(events[..i], 0);
    CommitEffect(After(events[..i]), events[i]);
    var k := StateKey(events[i].before.messageId);
    assert Lookup(After(events[..i + 1]), k) == Lookup(After(events[..i]) + Written(After(events[..i]), events[i]), k);
  }

  // ---------------------------------------------------------------------
  // What a committing writer read is what is stored
  // ---------------------------------------------------------------------

  /** The rows `e` was planned from are the ones in `db`. */
  ghost predicate Current(db: Db, e: Event) {
    match e
    case InsertEvent(msg, candidates, found, thread) =>
      var m := Resolved(msg, candidates, found);
      Lookup(db, ThreadKey(m.inboxId, m.threadId)) == ThreadRowOf(thread)
    case EnqueueEvent(msg, _, _, thread, _, _) =>
      Lookup(db, ThreadKey(msg.inboxId, msg.threadId)) == ThreadRowOf(thread)
    case ClaimEvent(before, _) =>
      Lookup(db, StateKey(before.messageId)) == Some(StateRow(before))
    case NoteEvent(claimed, _) =>
      Lookup(db, StateKey(claimed.messageId)) == Some(StateRow(claimed))
    case MarkEvent(s, _, msg, thread, _, _) =>
      && msg.inboxId == s.inboxId && msg.messageId == s.messageId
      && Lookup(db, StateKey(s.messageId)) == Some(StateRow(s))
      && Lookup(db, MessageKey(msg.inboxId, msg.messageId)) == Some(MessageRow(msg))
      && (thread.Some? ==> && Lookup(db, ThreadKey(msg.inboxId, msg.threadId)) == ThreadRowOf(thread)
                           && thread.value.inboxId == msg.inboxId && thread.value.threadId == msg.threadId)
    case PatchEvent(msg, _, _, t, _) =>
      && t.inboxId == msg.inboxId && t.threadId == msg.threadId
      && Lookup(db, MessageKey(msg.inboxId, msg.messageId)) == Some(MessageRow(msg))
      && Lookup(db, ThreadKey(msg.inboxId, msg.threadId)) == Some(ThreadRow(t))
  }

  lemma SeenIsStored(events: seq<Event>, k: Key, row: Row)
    requires ValidRun(events) && Seen(events, k, Some(row))
    requires VersionOf(row).Some? && VersionCheck(After(events), k, VersionOf(row).value)
    ensures Lookup(After(events), k) == Some(row)
  {
    StaleReadIsFresh(events, k, row);
  }

  lemma SeenThreadIsStored(events: seq<Event>, k: Key, thread: Option<ThreadState>)
    requires ValidRun(events) && Seen(events, k, ThreadRowOf(thread))
    requires ThreadCheck(After(events), k, thread)
    ensures Lookup(After(events), k) == ThreadRowOf(thread)
  {
    if thread.Some? {
      StaleReadIsFresh(events, k, ThreadRow(thread.value));
    }
  }

  lemma JoinedThreadKey(events: seq<Event>, m: Message, thread: Option<ThreadState>)
    requires ValidRun(events) && Seen(events, ThreadKey(m.inboxId, m.threadId), ThreadRowOf(thread))
    ensures var t := ThreadFor(m, thread); ThreadKey(t.inboxId, t.threadId) == ThreadKey(m.inboxId, m.threadId)
  {
    if thread.Some? {
      SeenRowIsTyped(events, ThreadKey(m.inboxId, m.threadId), ThreadRow(thread.value));
    }
  }

  lemma MarkReadsAreCurrent(events: seq<Event>, e: Event)
    requires e.MarkEvent? && ValidRun(events) && CanCommit(events, e)
    ensures Current(After(events), e)
  {
    ReadyNow(events, e);
    CommitChecks(After(events), e);
    var mk := MessageKey(e.state.inboxId, e.state.messageId);
    SeenRowIsTyped(events, mk, MessageRow(e.msg));
    SeenIsStored(events, mk, MessageRow(e.msg));
    SeenIsStored(events, StateKey(e.state.messageId), StateRow(e.state));
    if e.thread.Some? {
      var tk := ThreadKey(e.msg.inboxId, e.msg.threadId);
      SeenRowIsTyped(events, tk, ThreadRow(e.thread.value));
      SeenIsStored(events, tk, ThreadRow(e.thread.value));
    }
  }

  lemma PatchReadsAreCurrent(events: seq<Event>, e: Event)
    requires e.PatchEvent? && ValidRun(events) && CanCommit(events, e)
    ensures Current(After(events), e)
  {
    ReadyNow(events, e);
    CommitChecks(After(events), e);
    var mk := MessageKey(e.msg.inboxId, e.msg.messageId);
    var tk := ThreadKey(e.msg.inboxId, e.msg.threadId);
    SeenIsStored(events, mk, MessageRow(e.msg));
    SeenRowIsTyped(events, tk, ThreadRow(e.threadRead));
    SeenIsStored(events, tk, ThreadRow(e.threadRead));
  }

  /**
    Whenever a writer read the message, thread and state rows it names, if it
    commits they are what is stored. What an insert's alias lookup found may have
    moved on by then: `Aliases.LookupAtCommit` says how far.
   */
  lemma ReadsAreCurrent(events: seq<Event>, e: Event)
    requires ValidRun(events) && CanCommit(events, e)
    ensures Current(After(events), e)
  {
    ReadyNow(events, e);
    CommitChecks(After(events), e);
    match e
    case InsertEvent(msg, candidates, found, thread) =>
      var m := Resolved(msg, candidates, found);
      JoinedThreadKey(events, m, thread);
      SeenThreadIsStored(events, ThreadKey(m.inboxId, m.threadId), thread);
    case EnqueueEvent(msg, _, _, thread, _, _) =>
      JoinedThreadKey(events, msg, thread);
      SeenThreadIsStored(events, ThreadKey(msg.inboxId, msg.threadId), thread);
    case ClaimEvent(before, _) =>
      SeenIsStored(events, StateKey(before.messageId), StateRow(before));
    case NoteEvent(claimed, _) =>
      var i :| 0 <= i < |events| && events[i].ClaimEvent? && claimed == ClaimedState(events[i].before, events[i].now);
      ClaimWasStored(events, i);
      SeenIsStored(events, StateKey(claimed.messageId), StateRow(claimed));
    case MarkEvent(_, _, _, _, _, _) => MarkReadsAreCurrent(events, e);
    case PatchEvent(_, _, _, _, _) => PatchReadsAreCurrent(events, e);
  }

  /** Everything the invariants need to know about one step. */
  lemma Step(events: seq<Event>, e: Event)
    requires ValidRun(events) && CanCommit(events, e)
    ensures Typed(After(events)) && ChecksPass(After(events), e) && Current(After(events), e)
    ensures SameCore(Commit(After(events), e), After(events) + Written(After(events), e))
    ensures Typed(Commit(After(events), e)) && Grows(After(events), Commit(After(events), e))
  {
    RunGrows(events, 0);
    CommitChecks(After(events), e);
    ReadsAreCurrent(events, e);
    CommitEffect(After(events), e);
    CommitGrows(After(events), e);
  }

  // ---------------------------------------------------------------------
  // The atomic reading of a run
  // ---------------------------------------------------------------------

  /** What a caller asked for, without anything that was read on its behalf. */
  datatype Request =
    | DoInsert(msg: Message)
    | DoEnqueue(msg: Message, state: SendState, key: Option<SendKey>)
    | DoClaim(messageId: string, now: string)
    | DoNote(messageId: string, now: string)
    | DoMark(inboxId: string, messageId: string, outcome: MarkOutcome, now: string)
    | DoPatch(inboxId: string, messageId: string, add: seq<string>, remove: seq<string>, now: string)

  /** An insert's request names the thread its aliases resolved to. */
  function RequestOf(e: Event): Request {
    match e
    case InsertEvent(msg, candidates, found, _) => DoInsert(Resolved(msg, candidates, found))
    case EnqueueEvent(msg, s, key, _, _, _) => DoEnqueue(msg, s, key)
    case ClaimEvent(before, now) => DoClaim(before.messageId, now)
    case NoteEvent(claimed, now) => DoNote(claimed.messageId, now)
    case MarkEvent(s, outcome, _, _, now, _) => DoMark(s.inboxId, s.messageId, outcome, now)
    case PatchEvent(msg, add, remove, _, now) => DoPatch(msg.inboxId, msg.messageId, add, remove, now)
  }

  function ThreadAt(db: Db, inboxId: string, threadId: string): Option<ThreadState> {
    var k := ThreadKey(inboxId, threadId);
    if k in db && db[k].ThreadRow? then Some(db[k].thread) else None
  }

  /** One request carried out on its own: it reads and writes `db` in one go. */
  function Perform(db: Db, r: Request): Db {
    match r
    case DoInsert(msg) =>
      var t := ThreadFor(msg, ThreadAt(db, msg.inboxId, msg.threadId));
      db[MessageKey(msg.inboxId, msg.messageId) := MessageRow(StoredMessage(msg, t))]
        [ThreadKey(msg.inboxId, msg.threadId) := ThreadRow(t)]
    case DoEnqueue(msg, s, key) =>
      var t := ThreadFor(msg, ThreadAt(db, msg.inboxId, msg.threadId));
      (db + KeyRows(key))
        [MessageKey(msg.inboxId, msg.messageId) := MessageRow(StoredMessage(msg, t))]
        [StateKey(s.messageId) := StateRow(s)]
        [ThreadKey(msg.inboxId, msg.threadId) := ThreadRow(t)]
    case DoClaim(id, now) =>
      if StateKey(id) in db && db[StateKey(id)].StateRow?
      then db[StateKey(id) := StateRow(ClaimedState(db[StateKey(id)].state, now))] else db
    case DoNote(id, now) =>
      if StateKey(id) in db && db[StateKey(id)].StateRow?
      then db[StateKey(id) := StateRow(CallingState(db[StateKey(id)].state, now))] else db
    case DoMark(inboxId, id, outcome, now) =>
      var mk := MessageKey(inboxId, id);
      if StateKey(id) in db && db[StateKey(id)].StateRow? && mk in db && db[mk].MessageRow? then
        var s, msg := db[StateKey(id)].state, db[mk].msg;
        var thread := if MarkMovesLabels(msg, outcome) then ThreadAt(db, inboxId, msg.threadId) else None;
        db + MarkRows(MarkedState(s, msg, outcome, now), mk, Amended(msg, MarkPatch(s, msg, outcome, now)),
                      MarkChange(thread, msg, outcome, now))
      else db
    case DoPatch(inboxId, id, add, remove, now) =>
      var mk := MessageKey(inboxId, id);
      if mk in db && db[mk].MessageRow? then
        var msg := db[mk].msg;
        var thread := ThreadAt(db, inboxId, msg.threadId);
        var change := if thread.None? then None
                      else Some(ThreadChange(thread.value, PatchedThread(thread.value, msg, add, remove, now)));
        db + (map[mk := MessageRow(Amended(msg, LabelPatchOf(msg, add, remove, now)))] + ThreadRows(change))
      else db
  }

  function Replay(requests: seq<Request>): Db {
    if requests == [] then map[] else Perform(Replay(requests[..|requests| - 1]), requests[|requests| - 1])
  }

  function Requests(events: seq<Event>): (r: seq<Request>)
    ensures |r| == |events|
  {
    if events == [] then [] else Requests(events[..|events| - 1]) + [RequestOf(events[|events| - 1])]
  }

  lemma MarkIsAtomic(db: Db, e: Event)
    requires e.MarkEvent? && Current(db, e) && Typed(db)
    requires e.thread.Some? <==> MarkMovesLabels(e.msg, e.outcome)
    ensures db + Written(db, e) == Perform(db, RequestOf(e))
  {
  }

  lemma PatchIsAtomic(db: Db, e: Event)
    requires e.PatchEvent? && Current(db, e) && Typed(db)
    ensures db + Written(db, e) == Perform(db, RequestOf(e))
  {
  }

  lemma EnqueueIsAtomic(db: Db, e: Event)
    requires e.EnqueueEvent? && Current(db, e) && Typed(db)
    ensures db + Written(db, e) == Perform(db, RequestOf(e))
  {
    var t := ThreadFor(e.msg, e.thread);
    MergeThree(db, KeyRows(e.key), MessageKey(e.msg.inboxId, e.msg.messageId), MessageRow(StoredMessage(e.msg, t)),
               StateKey(e.state.messageId), StateRow(e.state), ThreadKey(t.inboxId, t.threadId), ThreadRow(t));
  }

  /** A commit whose reads are current writes what performing its request writes. */
  lemma CommitIsAtomic(db: Db, e: Event)
    requires Current(db, e) && Typed(db)
    requires e.MarkEvent? ==> (e.thread.Some? <==> MarkMovesLabels(e.msg, e.outcome))
    ensures db + Written(db, e) == Perform(db, RequestOf(e))
  {
    match e
    case InsertEvent(msg, candidates, found, thread) =>
      var m := Resolved(msg, candidates, found);
      var t := ThreadFor(m, thread);
      MergeTwo(db, MessageKey(m.inboxId, m.messageId), MessageRow(StoredMessage(m, t)), ThreadKey(t.inboxId, t.threadId), ThreadRow(t));
    case EnqueueEvent(_, _, _, _, _, _) => EnqueueIsAtomic(db, e);
    case ClaimEvent(_, _) =>
    case NoteEvent(_, _) =>
    case MarkEvent(_, _, _, _, _, _) => MarkIsAtomic(db, e);
    case PatchEvent(_, _, _, _, _) => PatchIsAtomic(db, e);
  }

  // ---------------------------------------------------------------------
  // No lost updates
  // ---------------------------------------------------------------------

  lemma SameRow(a: Db, b: Db, k: Key)
    requires SameCore(a, b) && IsCore(k)
    ensures Lookup(a, k) == Lookup(b, k)
    ensures k in a <==> k in b
    ensures k in a ==> a[k] == b[k]
  {
  }

  lemma MarkReadsCore(a: Db, b: Db, r: Request)
    requires SameCore(a, b) && r.DoMark?
    ensures SameCore(Perform(a, r), Perform(b, r))
  {
    var mk := MessageKey(r.inboxId, r.messageId);
    SameRow(a, b, StateKey(r.messageId));
    SameRow(a, b, mk);
    if mk in a && a[mk].MessageRow? {
      SameRow(a, b, ThreadKey(r.inboxId, a[mk].msg.threadId));
    }
  }

  /** Performing a request looks at core rows only. */
  lemma PerformReadsCore(a: Db, b: Db, r: Request)
    requires SameCore(a, b)
    ensures SameCore(Perform(a, r), Perform(b, r))
  {
    match r
    case DoInsert(msg) => SameRow(a, b, ThreadKey(msg.inboxId, msg.threadId));
    case DoEnqueue(msg, _, _) => SameRow(a, b, ThreadKey(msg.inboxId, msg.threadId));
    case DoClaim(id, _) => SameRow(a, b, StateKey(id));
    case DoNote(id, _) => SameRow(a, b, StateKey(id));
    case DoMark(_, _, _, _) => MarkReadsCore(a, b, r);
    case DoPatch(inboxId, id, _, _, _) =>
      SameRow(a, b, MessageKey(inboxId, id));
      if MessageKey(inboxId, id) in a && a[MessageKey(inboxId, id)].MessageRow? {
        SameRow(a, b, ThreadKey(inboxId, a[MessageKey(inboxId, id)].msg.threadId));
      }
  }

  lemma SameCoreTransitive(a: Db, b: Db, c: Db)
    requires SameCore(a, b) && SameCore(b, c)
    ensures SameCore(a, c)
  {
    forall k | IsCore(k) ensures Lookup(a, k) == Lookup(c, k) {
      assert Lookup(a, k) == Lookup(b, k);
    }
  }

  /**
    Every run equals the atomic replay of its requests in commit order,
    however stale the reads behind each commit were.
   */
  lemma {:induction false} RunsAreLinearizable(events: seq<Event>)
    requires ValidRun(events)
    ensures SameCore(After(events), Replay(Requests(events)))
  {
    if events != [] {
      var init, e := events[..|events| - 1], events[|events| - 1];
      LastStep(events);
      ReadyNow(init, e);
      RunsAreLinearizable(init);
      Step(init, e);
      CommitIsAtomic(After(init), e);
      PerformReadsCore(After(init), Replay(Requests(init)), RequestOf(e));
      assert Requests(events)[..|events| - 1] == Requests(init);
      SameCoreTransitive(After(events), Perform(After(init), RequestOf(e)), Replay(Requests(events)));
    }
  }

  // ---------------------------------------------------------------------
  // Each version has one writer
  // ---------------------------------------------------------------------

  /** The event at `i` left version `version` of the row at `k`. */
  ghost predicate WritesVersion(events: seq<Event>, i: nat, k: Key, version: nat) {
    && i < |events|
    && k in Written(After(events[..i]), events[i])
    && VersionOf(Written(After(events[..i]), events[i])[k]) == Some(version)
  }

  lemma WriteIsStored(events: seq<Event>, i: nat, k: Key, version: nat)
    requires ValidRun(events) && WritesVersion(events, i, k, version) && IsCore(k)
    ensures VersionCheck(After(events[..i + 1]), k, version)
    ensures k in After(events[..i]) && VersionOf(After(events[..i])[k]).Some? ==> VersionOf(After(events[..i])[k]).value < version
  {
    StepAt(events, i);
    Step(events[..i], events[i]);
    OverwriteAdvances(After(events[..i]), events[i]);
    assert Lookup(After(events[..i + 1]), k) == Lookup(After(events[..i]) + Written(After(events[..i]), events[i]), k);
  }

  /** No version of a message, thread or send-state row is ever written twice. */
  lemma OneWriterPerVersion(events: seq<Event>, i: nat, j: nat, k: Key, version: nat)
    requires ValidRun(events) && IsCore(k)
    requires WritesVersion(events, i, k, version) && WritesVersion(events, j, k, version)
    ensures i == j
  {
    if i < j {
      PrefixValid(events, j);
      assert events[..j][..i + 1] == events[..i + 1];
      RunGrows(events[..j], i + 1);
      WriteIsStored(events, i, k, version);
      WriteIsStored(events, j, k, version);
    } else if j < i {
      OneWriterPerVersion(events, j, i, k, version);
    }
  }

  /** A row written where there was none starts at version 0. */
  lemma NewRowsStartAtZero(db: Db, e: Event, k: Key)
    requires ChecksPass(db, e) && (e.InsertEvent? ==> e.msg.version == 0)
    requires e.EnqueueEvent? ==> e.msg.version == 0 && e.state.version == 0
    requires k in Written(db, e) && k !in db
    ensures VersionOf(Written(db, e)[k]).Some? ==> VersionOf(Written(db, e)[k]) == Some(0)
  {
    if e.InsertEvent? || e.EnqueueEvent? {
      AddedRowsStartAtZero(db, e, k);
    } else {
      ReplacedRowsWereThere(db, e, k);
    }
  }

  lemma ReplacedRowsWereThere(db: Db, e: Event, k: Key)
    requires ChecksPass(db, e) && !e.InsertEvent? && !e.EnqueueEvent? && k in Written(db, e)
    ensures k in db
  {
    match e
    case ClaimEvent(_, _) =>
    case NoteEvent(_, _) =>
    case MarkEvent(_, _, _, _, _, _) =>
    case PatchEvent(_, _, _, _, _) =>
  }

  lemma AddedRowsStartAtZero(db: Db, e: Event, k: Key)
    requires ChecksPass(db, e) && (e.InsertEvent? || e.EnqueueEvent?) && e.msg.version == 0
    requires e.EnqueueEvent? ==> e.state.version == 0
    requires k in Written(db, e) && k !in db
    ensures VersionOf(Written(db, e)[k]).Some? ==> VersionOf(Written(db, e)[k]) == Some(0)
  {
  }

  lemma VersionBefore(db: Db, written: map<Key, Row>, next: Db, k: Key, stored: nat)
    requires Typed(db) && Typed(next) && SameCore(next, db + written) && Advances(db, written) && IsCore(k)
    requires VersionCheck(next, k, stored)
    requires k in written && k !in db && VersionOf(written[k]).Some? ==> VersionOf(written[k]) == Some(0)
    ensures k !in written ==> VersionCheck(db, k, stored)
    ensures k in written ==> VersionOf(written[k]) == Some(stored) && (stored > 0 ==> VersionCheck(db, k, stored - 1))
  {
    assert Lookup(next, k) == Lookup(db + written, k);
    if k in written && k in db {
      assert KeyOf(db[k]) == k && KeyOf(next[k]) == k;
      assert VersionOf(db[k]).Some?;
    }
  }

  /** The last commit either wrote the stored version, right above the one before, or left the row alone. */
  lemma LastCommitOn(init: seq<Event>, e: Event, k: Key, stored: nat)
    requires ValidRun(init) && CanCommit(init, e) && IsCore(k)
    requires VersionCheck(Commit(After(init), e), k, stored)
    ensures k !in Written(After(init), e) ==> VersionCheck(After(init), k, stored)
    ensures k in Written(After(init), e) ==>
              && VersionOf(Written(After(init), e)[k]) == Some(stored)
              && (stored > 0 ==> VersionCheck(After(init), k, stored - 1))
  {
    ReadyNow(init, e);
    Step(init, e);
    OverwriteAdvances(After(init), e);
    if k in Written(After(init), e) && k !in After(init) {
      NewRowsStartAtZero(After(init), e, k);
    }
    VersionBefore(After(init), Written(After(init), e), Commit(After(init), e), k, stored);
  }

  /** Every version up to the stored one was written by some commit of the run. */
  lemma {:induction false} EveryVersionHasAWriter(events: seq<Event>, k: Key, stored: nat, version: nat) returns (i: nat)
    requires ValidRun(events) && IsCore(k)
    requires VersionCheck(After(events), k, stored) && version <= stored
    ensures WritesVersion(events, i, k, version)
  {
    var init, e := events[..|events| - 1], events[|events| - 1];
    LastStep(events);
    LastCommitOn(init, e, k, stored);
    if k in Written(After(init), e) && version == stored {
      i := |events| - 1;
    } else {
      var before := if k in Written(After(init), e) then stored - 1 else stored;
      i := EveryVersionHasAWriter(init, k, before, version);
      assert init[..i] == events[..i];
    }
  }
}
