/**
  What one commit does to the table, and why optimistic locking is sound:
  rows only ever grow, so a version check that holds proves the row read
  earlier is still the row stored now.
 */
module Effects {
  import opened Labels
  import opened Plan
  import opened Records
  import opened Runs
  import opened Sends
  import opened Shapes
  import opened Threads

  // ---------------------------------------------------------------------
  // The core rows of one commit, event by event
  // ---------------------------------------------------------------------

  lemma MergeTwo(db: Db, a: Key, x: Row, b: Key, y: Row)
    requires a != b
    ensures db[a := x][b := y] == db + map[a := x, b := y]
  {
  }

  lemma TwoPutsThenAliases(db: Db, x: PlannedOp, y: PlannedOp, own: seq<PlannedOp>, rest: seq<PlannedOp>)
    requires x.op.Put? && y.op.Put? && KeyOf(x.op.row) != KeyOf(y.op.row)
    requires SideOnly(own) && SideOnly(rest)
    ensures SameCore(ApplyAll(db, [x, y] + own + rest), db + map[KeyOf(x.op.row) := x.op.row, KeyOf(y.op.row) := y.op.row])
  {
    ApplyConcat(db, [x, y] + own, rest);
    ApplyConcat(db, [x, y], own);
    SideOnlyKeepsCore(ApplyAll(db, [x, y] + own), rest);
    SideOnlyKeepsCore(ApplyAll(db, [x, y]), own);
    ApplyTwo(db, x, y);
    MergeTwo(db, KeyOf(x.op.row), x.op.row, KeyOf(y.op.row), y.op.row);
  }

  lemma InsertEffect(db: Db, e: Event)
    requires e.InsertEvent?
    ensures SameCore(Commit(db, e), db + Written(db, e))
  {
    var m := Resolved(e.msg, e.candidates, e.found);
    var t := ThreadFor(m, e.thread);
    var ownId := StripAngleBrackets(m.rfcMessageId);
    var own := if ownId != "" && IsClaimable(AliasLookup(e.candidates, e.found), ownId)
               then AliasOps(m, m.rfcMessageId, Some(m.messageId)) else [];
    PlaceholdersAreSide(m, ownId, e.candidates, e.found);
    TwoPutsThenAliases(db, PutMessage(StoredMessage(m, t)), PutThread(t, ThreadVersion(e.thread)), own,
                       PlaceholderOps(m, ownId, e.candidates, e.found));
  }

  /** Alias writes at the end of a plan, dropped or not, leave the core to the rest. */
  lemma SideTail(db: Db, head: seq<PlannedOp>, tail: seq<PlannedOp>, taken: set<Key>)
    requires UpdatesCore(head) && SideOnly(tail) && forall i :: 0 <= i < |tail| ==> !tail[i].op.Update?
    ensures SameCore(ApplyAll(db, DropTaken(head + tail, taken)), ApplyAll(db, head))
  {
    DropTakenKeepsCore(db, head + tail, taken);
    ApplyConcat(db, head, tail);
    SideOnlyKeepsCore(ApplyAll(db, head), tail);
  }

  lemma KeyOpsEffect(db: Db, key: Option<SendKey>, nowEpoch: nat)
    ensures ApplyAll(db, KeyOps(key, nowEpoch)) == db + KeyRows(key)
  {
    if key.Some? { ApplyOne(db, KeyOps(key, nowEpoch)[0]); }
  }

  lemma MergeThree(db: Db, rows: Db, a: Key, x: Row, b: Key, y: Row, c: Key, z: Row)
    requires a != b && a != c && b != c
    ensures (db + rows)[a := x][b := y][c := z] == db + (rows + map[a := x, b := y, c := z])
  {
  }

  lemma EnqueueEffect(db: Db, e: Event)
    requires e.EnqueueEvent? && PlanOf(e).Planned?
    ensures SameCore(Commit(db, e), db + Written(db, e))
  {
    var t := ThreadFor(e.msg, e.thread);
    var first := KeyOps(e.key, e.nowEpoch);
    var core := [PutMessage(StoredMessage(e.msg, t)), PutState(e.state, NotExists), PutThread(t, ThreadVersion(e.thread))];
    var own := AliasOps(e.msg, e.msg.rfcMessageId, Some(e.msg.messageId));
    assert PlanOf(e).ops == DropTaken(first + core + own, e.taken);
    SideTail(db, first + core, own, e.taken);
    NewSendEffect(db, e.key, e.nowEpoch, StoredMessage(e.msg, t), e.state, t, ThreadVersion(e.thread));
  }

  lemma NewSendEffect(db: Db, key: Option<SendKey>, nowEpoch: nat, m: Message, s: SendState, t: ThreadState, before: Option<nat>)
    ensures ApplyAll(db, KeyOps(key, nowEpoch) + [PutMessage(m), PutState(s, NotExists), PutThread(t, before)])
         == db + (KeyRows(key) + map[MessageKey(m.inboxId, m.messageId) := MessageRow(m), StateKey(s.messageId) := StateRow(s),
                                     ThreadKey(t.inboxId, t.threadId) := ThreadRow(t)])
  {
    ApplyConcat(db, KeyOps(key, nowEpoch), [PutMessage(m), PutState(s, NotExists), PutThread(t, before)]);
    KeyOpsEffect(db, key, nowEpoch);
    ApplyThree(db + KeyRows(key), PutMessage(m), PutState(s, NotExists), PutThread(t, before));
    MergeThree(db, KeyRows(key), MessageKey(m.inboxId, m.messageId), MessageRow(m), StateKey(s.messageId), StateRow(s),
               ThreadKey(t.inboxId, t.threadId), ThreadRow(t));
  }

  lemma StateCasEffect(db: Db, e: Event)
    requires e.ClaimEvent? || e.NoteEvent?
    ensures SameCore(Commit(db, e), db + Written(db, e))
  {
    ApplyOne(db, PlanOf(e).ops[0]);
  }

  lemma ThreadOpsEffect(db: Db, change: Option<ThreadChange>)
    ensures ApplyAll(db, ThreadOps(change)) == db + ThreadRows(change)
  {
    if change.Some? { ApplyOne(db, ThreadOps(change)[0]); }
  }

  lemma MarkHeadEffect(db: Db, e: Event, a: PlannedOp, b: PlannedOp)
    requires e.MarkEvent? && Typed(db) && MessageKey(e.msg.inboxId, e.msg.messageId) in db
    requires a.op.Put? && a.op.row == StateRow(MarkedState(e.state, e.msg, e.outcome, e.now))
    requires b.op.Update? && b.op.key == MessageKey(e.msg.inboxId, e.msg.messageId) && b.op.patch == MarkPatch(e.state, e.msg, e.outcome, e.now)
    ensures ApplyAll(db, [a, b]) + ThreadRows(MarkChange(e.thread, e.msg, e.outcome, e.now)) == db + Written(db, e)
  {
    var mk := MessageKey(e.msg.inboxId, e.msg.messageId);
    assert KeyOf(db[mk]) == mk;
    var after := MarkedState(e.state, e.msg, e.outcome, e.now);
    StateThenMessage(db, a, b, after, mk, db[mk].msg, MarkPatch(e.state, e.msg, e.outcome, e.now),
                     MarkChange(e.thread, e.msg, e.outcome, e.now));
  }

  lemma StateThenMessage(db: Db, a: PlannedOp, b: PlannedOp, after: SendState, mk: Key, m: Message, patch: MessagePatch,
                         change: Option<ThreadChange>)
    requires a.op.Put? && a.op.row == StateRow(after) && b.op.Update? && b.op.key == mk && b.op.patch == patch
    requires mk.MessageKey? && Lookup(db, mk) == Some(MessageRow(m))
    ensures ApplyAll(db, [a, b]) + ThreadRows(change) == db + MarkRows(after, mk, Amended(m, patch), change)
  {
    ApplyTwo(db, a, b);
  }

  lemma TwoAliasesAreSide(msg: Message, x: string, y: string, id: Option<string>, ref: PlannedOp)
    requires ref.op.Put? && ref.op.row.SesRefRow?
    ensures var ops := AliasOps(msg, x, id) + AliasOps(msg, y, id) + [ref];
            SideOnly(ops) && forall i :: 0 <= i < |ops| ==> !ops[i].op.Update?
  {
  }

  lemma SesOpsAreSide(msg: Message, ses: Option<SesSent>)
    ensures SideOnly(SesOps(msg, ses))
    ensures forall i :: 0 <= i < |SesOps(msg, ses)| ==> !SesOps(msg, ses)[i].op.Update?
  {
    if ses.Some? {
      var ids := SesRfcIds(ses.value);
      TwoAliasesAreSide(msg, ids[0], ids[1], Some(msg.messageId),
        PlannedOp(SesRefRole, Put(SesRefRow(ses.value.messageId, msg.inboxId, msg.messageId, msg.expiresAt), NoCond)));
    }
  }

  /** A mark's first two writes and its thread make up the core; what follows is aliases. */
  lemma HeadThreadTail(db: Db, a: PlannedOp, b: PlannedOp, change: Option<ThreadChange>, tail: seq<PlannedOp>, taken: set<Key>)
    requires UpdatesCore([a, b]) && SideOnly(tail) && forall i :: 0 <= i < |tail| ==> !tail[i].op.Update?
    ensures SameCore(ApplyAll(db, DropTaken([a, b] + ThreadOps(change) + tail, taken)), ApplyAll(db, [a, b]) + ThreadRows(change))
  {
    assert UpdatesCore(ThreadOps(change));
    SideTail(db, [a, b] + ThreadOps(change), tail, taken);
    ApplyConcat(db, [a, b], ThreadOps(change));
    ThreadOpsEffect(ApplyAll(db, [a, b]), change);
  }

  lemma MarkCoreOps(e: Event)
    requires e.MarkEvent?
    ensures UpdatesCore([MarkPlan(e)[0], MarkPlan(e)[1]])
    ensures MarkPlan(e) == [MarkPlan(e)[0], MarkPlan(e)[1]] + ThreadOps(MarkChange(e.thread, e.msg, e.outcome, e.now))
                           + SesOps(e.msg, MarkedSes(e.outcome))
  {
  }

  /** The parts of a mark's plan: state and message, the thread if it changes, and aliases. */
  lemma MarkParts(e: Event) returns (a: PlannedOp, b: PlannedOp, tail: seq<PlannedOp>)
    requires e.MarkEvent?
    ensures a.op.Put? && a.op.row == StateRow(MarkedState(e.state, e.msg, e.outcome, e.now))
    ensures b.op.Update? && b.op.key == MessageKey(e.msg.inboxId, e.msg.messageId) && b.op.patch == MarkPatch(e.state, e.msg, e.outcome, e.now)
    ensures UpdatesCore([a, b])
    ensures SideOnly(tail) && forall i :: 0 <= i < |tail| ==> !tail[i].op.Update?
    ensures PlanOf(e) == Planned(DropTaken([a, b] + ThreadOps(MarkChange(e.thread, e.msg, e.outcome, e.now)) + tail, e.taken))
  {
    MarkCoreOps(e);
    SesOpsAreSide(e.msg, MarkedSes(e.outcome));
    a, b, tail := MarkPlan(e)[0], MarkPlan(e)[1], SesOps(e.msg, MarkedSes(e.outcome));
  }

  lemma MarkEffect(db: Db, e: Event)
    requires e.MarkEvent? && Typed(db) && MessageKey(e.msg.inboxId, e.msg.messageId) in db
    ensures SameCore(Commit(db, e), db + Written(db, e))
  {
    var a, b, tail := MarkParts(e);
    var change := MarkChange(e.thread, e.msg, e.outcome, e.now);
    HeadThreadTail(db, a, b, change, tail, e.taken);
    MarkHeadEffect(db, e, a, b);
  }

  lemma MessageThenThread(db: Db, a: PlannedOp, b: PlannedOp, mk: Key, m: Message, patch: MessagePatch, t: ThreadState)
    requires a.op.Update? && a.op.key == mk && a.op.patch == patch && b.op.Put? && b.op.row == ThreadRow(t)
    requires mk.MessageKey? && Lookup(db, mk) == Some(MessageRow(m))
    ensures ApplyAll(db, [a, b]) == db + (map[mk := MessageRow(Amended(m, patch))] + map[ThreadKey(t.inboxId, t.threadId) := ThreadRow(t)])
  {
    ApplyTwo(db, a, b);
  }

  lemma PatchEffect(db: Db, e: Event)
    requires e.PatchEvent? && PlanOf(e).Planned? && Typed(db) && MessageKey(e.msg.inboxId, e.msg.messageId) in db
    ensures SameCore(Commit(db, e), db + Written(db, e))
  {
    var mk := MessageKey(e.msg.inboxId, e.msg.messageId);
    assert KeyOf(db[mk]) == mk;
    var t := PatchedThread(e.threadRead, e.msg, e.add, e.remove, e.now);
    MessageThenThread(db, RelabelOp(e.msg, Patched(e.msg.labels, e.add, e.remove).labels, e.now, None, None),
                      PutThread(t, Some(e.threadRead.version)), mk, db[mk].msg, LabelPatchOf(e.msg, e.add, e.remove, e.now), t);
  }

  /** The message a committing mark or patch updates is there. */
  lemma UpdatedMessageExists(db: Db, e: Event)
    requires e.MarkEvent? || e.PatchEvent?
    requires PlanOf(e).Planned? && AllHold(db, PlanOf(e).ops)
    ensures MessageKey(e.msg.inboxId, e.msg.messageId) in db
    ensures VersionOf(db[MessageKey(e.msg.inboxId, e.msg.messageId)]) == Some(e.msg.version)
  {
    if e.PatchEvent? {
      assert OpHolds(db, PlanOf(e).ops[0].op);
    } else {
      KeptWriteHolds(db, MarkPlan(e), e.taken, 1);
    }
  }

  /** Away from aliases and SES references, a commit writes exactly `Written`. */
  lemma CommitEffect(db: Db, e: Event)
    requires Typed(db) && PlanOf(e).Planned? && AllHold(db, PlanOf(e).ops)
    ensures SameCore(Commit(db, e), db + Written(db, e))
  {
    match e
    case InsertEvent(_, _, _, _) => InsertEffect(db, e);
    case EnqueueEvent(_, _, _, _, _, _) => EnqueueEffect(db, e);
    case ClaimEvent(_, _) => StateCasEffect(db, e);
    case NoteEvent(_, _) => StateCasEffect(db, e);
    case MarkEvent(_, _, _, _, _, _) =>
      UpdatedMessageExists(db, e);
      MarkEffect(db, e);
    case PatchEvent(_, _, _, _, _) =>
      UpdatedMessageExists(db, e);
      PatchEffect(db, e);
  }

  // ---------------------------------------------------------------------
  // The checks a commit passed
  // ---------------------------------------------------------------------

  ghost predicate ThreadCheck(db: Db, k: Key, before: Option<ThreadState>) {
    if before.None? then k !in db else k in db && VersionOf(db[k]) == Some(before.value.version)
  }

  ghost predicate VersionCheck(db: Db, k: Key, version: nat) {
    k in db && VersionOf(db[k]) == Some(version)
  }

  ghost predicate ChecksPass(db: Db, e: Event) {
    match e
    case InsertEvent(msg, candidates, found, thread) =>
      var t := ThreadFor(Resolved(msg, candidates, found), thread);
      && MessageKey(msg.inboxId, msg.messageId) !in db
      && ThreadCheck(db, ThreadKey(t.inboxId, t.threadId), thread)
    case EnqueueEvent(msg, s, key, thread, nowEpoch, _) =>
      var t := ThreadFor(msg, thread);
      && MessageKey(msg.inboxId, msg.messageId) !in db
      && StateKey(s.messageId) !in db
      && ThreadCheck(db, ThreadKey(t.inboxId, t.threadId), thread)
      && (key.Some? ==> CondHolds(Lookup(db, SendKeyKey(key.value.keyHash)), NotExistsOrExpired(nowEpoch)))
    case ClaimEvent(before, _) =>
      VersionCheck(db, StateKey(before.messageId), before.version) && StatusOf(db[StateKey(before.messageId)]) == Some(Queued)
    case NoteEvent(claimed, _) =>
      VersionCheck(db, StateKey(claimed.messageId), claimed.version) && StatusOf(db[StateKey(claimed.messageId)]) == Some(Sending)
    case MarkEvent(s, _, msg, thread, _, _) =>
      && VersionCheck(db, StateKey(s.messageId), s.version)
      && VersionCheck(db, MessageKey(msg.inboxId, msg.messageId), msg.version)
      && (thread.Some? ==> VersionCheck(db, ThreadKey(thread.value.inboxId, thread.value.threadId), thread.value.version))
    case PatchEvent(msg, _, _, t, _) =>
      && VersionCheck(db, MessageKey(msg.inboxId, msg.messageId), msg.version)
      && VersionCheck(db, ThreadKey(t.inboxId, t.threadId), t.version)
  }

  lemma SendWritesHold(db: Db, key: Option<SendKey>, nowEpoch: nat, m: Message, s: SendState, t: ThreadState, before: Option<ThreadState>,
                       rest: seq<PlannedOp>, taken: set<Key>)
    requires var head := [PutMessage(m), PutState(s, NotExists), PutThread(t, ThreadVersion(before))];
             AllHold(db, DropTaken(KeyOps(key, nowEpoch) + head + rest, taken))
    ensures MessageKey(m.inboxId, m.messageId) !in db && StateKey(s.messageId) !in db
    ensures ThreadCheck(db, ThreadKey(t.inboxId, t.threadId), before)
    ensures key.Some? ==> CondHolds(Lookup(db, SendKeyKey(key.value.keyHash)), NotExistsOrExpired(nowEpoch))
  {
    var plan := KeyOps(key, nowEpoch) + [PutMessage(m), PutState(s, NotExists), PutThread(t, ThreadVersion(before))] + rest;
    var first := |KeyOps(key, nowEpoch)|;
    KeptWriteHolds(db, plan, taken, first);
    KeptWriteHolds(db, plan, taken, first + 1);
    KeptWriteHolds(db, plan, taken, first + 2);
    KeptWriteHolds(db, plan, taken, 0);
  }

  lemma EnqueueChecks(db: Db, e: Event)
    requires e.EnqueueEvent? && PlanOf(e).Planned? && AllHold(db, PlanOf(e).ops)
    ensures ChecksPass(db, e)
  {
    var t := ThreadFor(e.msg, e.thread);
    SendWritesHold(db, e.key, e.nowEpoch, StoredMessage(e.msg, t), e.state, t, e.thread,
                   AliasOps(e.msg, e.msg.rfcMessageId, Some(e.msg.messageId)), e.taken);
  }

  lemma MarkChecks(db: Db, e: Event)
    requires e.MarkEvent? && AllHold(db, PlanOf(e).ops)
    ensures ChecksPass(db, e)
  {
    UpdatedMessageExists(db, e);
    MarkedWritesHold(db, e.state, MarkedState(e.state, e.msg, e.outcome, e.now), e.msg, MarkedLabels(e.msg.labels, e.outcome),
                     MarkChange(e.thread, e.msg, e.outcome, e.now), MarkedSes(e.outcome), e.now, e.taken);
  }

  lemma MarkedWritesHold(db: Db, before: SendState, after: SendState, msg: Message, labels: seq<string>, thread: Option<ThreadChange>,
                         ses: Option<SesSent>, now: string, taken: set<Key>)
    requires AllHold(db, DropTaken(MarkOps(before, after, msg, labels, thread, ses, now), taken))
    ensures VersionCheck(db, StateKey(after.messageId), before.version)
    ensures thread.Some? ==>
              VersionCheck(db, ThreadKey(thread.value.after.inboxId, thread.value.after.threadId), thread.value.before.version)
  {
    var plan := MarkOps(before, after, msg, labels, thread, ses, now);
    KeptWriteHolds(db, plan, taken, 0);
    if thread.Some? {
      KeptWriteHolds(db, plan, taken, 2);
    }
  }

  lemma CasChecks(db: Db, e: Event)
    requires e.ClaimEvent? || e.NoteEvent?
    requires AllHold(db, PlanOf(e).ops)
    ensures ChecksPass(db, e)
  {
    var op := PlanOf(e).ops[0].op;
    assert OpHolds(db, op);
    assert CheckHolds(Lookup(db, Target(op)), op.cond.checks[0]);
    assert CheckHolds(Lookup(db, Target(op)), op.cond.checks[1]);
  }

  lemma CommitChecks(db: Db, e: Event)
    requires PlanOf(e).Planned? && AllHold(db, PlanOf(e).ops)
    ensures ChecksPass(db, e)
  {
    match e
    case InsertEvent(_, _, _, _) =>
      assert OpHolds(db, PlanOf(e).ops[0].op) && OpHolds(db, PlanOf(e).ops[1].op);
    case EnqueueEvent(_, _, _, _, _, _) => EnqueueChecks(db, e);
    case ClaimEvent(_, _) => CasChecks(db, e);
    case NoteEvent(_, _) => CasChecks(db, e);
    case MarkEvent(_, _, _, _, _, _) => MarkChecks(db, e);
    case PatchEvent(_, _, _, _, _) =>
      assert OpHolds(db, PlanOf(e).ops[0].op) && OpHolds(db, PlanOf(e).ops[1].op);
  }

  // ---------------------------------------------------------------------
  // Rows only grow
  // ---------------------------------------------------------------------

  /**
    How a stored row may change: never away, its version never down, and the
    same version always means the same row; a message's own alias stays put.
   */
  ghost predicate RowGrows(a: Row, b: Row) {
    && KeyOf(a) == KeyOf(b)
    && (VersionOf(a).Some? ==> && VersionOf(b).Some?
                               && VersionOf(a).value <= VersionOf(b).value
                               && (VersionOf(a) == VersionOf(b) ==> a == b))
    && (IsRealAlias(a) ==> a == b)
  }

  ghost predicate Grows(a: Db, b: Db) {
    forall k :: k in a ==> k in b && RowGrows(a[k], b[k])
  }

  lemma {:induction false} ApplyAllKeepsTyped(db: Db, ops: seq<PlannedOp>)
    requires Typed(db)
    ensures Typed(ApplyAll(db, ops))
    ensures forall k :: k in db ==> k in ApplyAll(db, ops)
  {
    if ops != [] {
      ApplyAllKeepsTyped(db, ops[..|ops| - 1]);
    }
  }

  /** A message's own alias survives any commit untouched. */
  lemma RealAliasStays(db: Db, e: Event, k: Key)
    requires PlanOf(e).Planned? && AllHold(db, PlanOf(e).ops)
    requires k.AliasKey? && k in db && IsRealAlias(db[k])
    ensures Lookup(Commit(db, e), k) == Some(db[k])
  {
    PlansWriteAliasesProperly(e);
    RealAliasKept(db, PlanOf(e).ops, k);
  }

  lemma RealAliasKept(db: Db, ops: seq<PlannedOp>, k: Key)
    requires AllHold(db, ops) && AliasesByAliasWrites(ops) && k.AliasKey? && k in db && IsRealAlias(db[k])
    ensures Lookup(ApplyAll(db, ops), k) == Some(db[k])
  {
    assert forall i :: 0 <= i < |ops| ==> OpHolds(db, ops[i].op) && Target(ops[i].op) != k;
    UntargetedUnchanged(db, ops, k);
  }

  /** A core row a commit overwrites gets the next version. */
  ghost predicate Advances(db: Db, written: map<Key, Row>) {
    forall k :: k in written && k in db && VersionOf(db[k]).Some? ==>
      KeyOf(written[k]) == k && VersionOf(written[k]) == Some(VersionOf(db[k]).value + 1)
  }

  lemma AdvancesTogether(db: Db, a: map<Key, Row>, b: map<Key, Row>)
    requires Advances(db, a) && Advances(db, b)
    ensures Advances(db, a + b)
  {
  }

  lemma OneAdvances(db: Db, k: Key, row: Row, version: nat)
    requires VersionCheck(db, k, version) && KeyOf(row) == k && VersionOf(row) == Some(version + 1)
    ensures Advances(db, map[k := row])
  {
  }

  lemma ThreadAdvances(db: Db, change: Option<ThreadChange>)
    requires change.Some? ==>
      && VersionCheck(db, ThreadKey(change.value.before.inboxId, change.value.before.threadId), change.value.before.version)
      && change.value.after.version == change.value.before.version + 1
      && change.value.after.inboxId == change.value.before.inboxId
      && change.value.after.threadId == change.value.before.threadId
    ensures Advances(db, ThreadRows(change))
  {
  }

  lemma MarkAdvances(db: Db, e: Event)
    requires e.MarkEvent? && Typed(db) && ChecksPass(db, e)
    ensures Advances(db, Written(db, e))
  {
    var mk := MessageKey(e.msg.inboxId, e.msg.messageId);
    var m := Amended(MessageAt(db, mk, e.msg), MarkPatch(e.state, e.msg, e.outcome, e.now));
    MarkedVersions(db, e);
    ThreeAdvance(db, MarkedState(e.state, e.msg, e.outcome, e.now), e.state.version, m, e.msg.version,
                 MarkChange(e.thread, e.msg, e.outcome, e.now));
  }

  lemma MarkedVersions(db: Db, e: Event)
    requires e.MarkEvent? && Typed(db) && ChecksPass(db, e)
    ensures var s := MarkedState(e.state, e.msg, e.outcome, e.now); s.messageId == e.state.messageId && s.version == e.state.version + 1
    ensures var m := Amended(MessageAt(db, MessageKey(e.msg.inboxId, e.msg.messageId), e.msg), MarkPatch(e.state, e.msg, e.outcome, e.now));
            m.inboxId == e.msg.inboxId && m.messageId == e.msg.messageId && m.version == e.msg.version + 1
  {
    var mk := MessageKey(e.msg.inboxId, e.msg.messageId);
    assert mk in db && KeyOf(db[mk]) == mk;
  }

  lemma ThreeAdvance(db: Db, s: SendState, sv: nat, m: Message, mv: nat, change: Option<ThreadChange>)
    requires VersionCheck(db, StateKey(s.messageId), sv) && s.version == sv + 1
    requires VersionCheck(db, MessageKey(m.inboxId, m.messageId), mv) && m.version == mv + 1
    requires change.Some? ==>
      && VersionCheck(db, ThreadKey(change.value.before.inboxId, change.value.before.threadId), change.value.before.version)
      && change.value.after.version == change.value.before.version + 1
      && change.value.after.inboxId == change.value.before.inboxId
      && change.value.after.threadId == change.value.before.threadId
    ensures Advances(db, MarkRows(s, MessageKey(m.inboxId, m.messageId), m, change))
  {
    var sk, mk := StateKey(s.messageId), MessageKey(m.inboxId, m.messageId);
    OneAdvances(db, sk, StateRow(s), sv);
    OneAdvances(db, mk, MessageRow(m), mv);
    ThreadAdvances(db, change);
    AdvancesTogether(db, map[sk := StateRow(s)], map[mk := MessageRow(m)]);
    AdvancesTogether(db, map[sk := StateRow(s)] + map[mk := MessageRow(m)], ThreadRows(change));
  }

  lemma PatchAdvances(db: Db, e: Event)
    requires e.PatchEvent? && Typed(db) && ChecksPass(db, e)
    ensures Advances(db, Written(db, e))
  {
    var mk := MessageKey(e.msg.inboxId, e.msg.messageId);
    var m := Amended(MessageAt(db, mk, e.msg), LabelPatchOf(e.msg, e.add, e.remove, e.now));
    var change := Some(ThreadChange(e.threadRead, PatchedThread(e.threadRead, e.msg, e.add, e.remove, e.now)));
    OneAdvances(db, mk, MessageRow(m), e.msg.version);
    ThreadAdvances(db, change);
    AdvancesTogether(db, map[mk := MessageRow(m)], ThreadRows(change));
  }

  lemma EnqueueAdvances(db: Db, e: Event)
    requires e.EnqueueEvent? && Typed(db) && ChecksPass(db, e)
    ensures Advances(db, Written(db, e))
  {
  }

  lemma OverwriteAdvances(db: Db, e: Event)
    requires Typed(db) && ChecksPass(db, e)
    ensures Advances(db, Written(db, e))
  {
    match e
    case InsertEvent(_, _, _, _) =>
    case EnqueueEvent(_, _, _, _, _, _) => EnqueueAdvances(db, e);
    case ClaimEvent(_, _) =>
    case NoteEvent(_, _) =>
    case MarkEvent(_, _, _, _, _, _) => MarkAdvances(db, e);
    case PatchEvent(_, _, _, _, _) => PatchAdvances(db, e);
  }

  lemma GrowsFrom(db: Db, written: map<Key, Row>, next: Db)
    requires Typed(db) && Typed(next) && Advances(db, written) && SameCore(next, db + written)
    requires forall k :: k in db ==> k in next
    requires forall k :: k in db && IsRealAlias(db[k]) ==> next[k] == db[k]
    ensures Grows(db, next)
  {
    forall k | k in db ensures RowGrows(db[k], next[k]) {
      assert IsCore(k) ==> Lookup(next, k) == Lookup(db + written, k);
    }
  }

  lemma CommitGrows(db: Db, e: Event)
    requires Typed(db) && PlanOf(e).Planned? && AllHold(db, PlanOf(e).ops)
    ensures Typed(Commit(db, e)) && Grows(db, Commit(db, e))
  {
    ApplyAllKeepsTyped(db, PlanOf(e).ops);
    CommitChecks(db, e);
    CommitEffect(db, e);
    OverwriteAdvances(db, e);
    forall k | k in db && IsRealAlias(db[k]) ensures Commit(db, e)[k] == db[k] {
      RealAliasStays(db, e, k);
    }
    GrowsFrom(db, Written(db, e), Commit(db, e));
  }

  lemma GrowsTransitive(a: Db, b: Db, c: Db)
    requires Grows(a, b) && Grows(b, c)
    ensures Grows(a, c)
  {
  }

  /** Over a whole run, every row grows from each moment to the end. */
  lemma {:induction false} RunGrows(events: seq<Event>, n: nat)
    requires ValidRun(events) && n <= |events|
    ensures Typed(After(events))
    ensures Grows(After(events[..n]), After(events))
  {
    if n == |events| {
      assert events[..n] == events;
      if events != [] { RunGrows(events, n - 1); }
    } else {
      var init := events[..|events| - 1];
      LastStep(events);
      RunGrows(init, n);
      assert init[..n] == events[..n];
      CommitGrows(After(init), events[|events| - 1]);
      GrowsTransitive(After(events[..n]), After(init), After(events));
    }
  }

  /**
    Optimistic locking: a versioned row read at any earlier moment, whose
    version is still the stored one, is the stored row.
   */
  lemma StaleReadIsFresh(events: seq<Event>, k: Key, row: Row)
    requires ValidRun(events)
    requires Seen(events, k, Some(row)) && VersionOf(row).Some?
    requires k in After(events) && VersionOf(After(events)[k]) == VersionOf(row)
    ensures After(events)[k] == row
  {
    var n :| 0 <= n <= |events| && Lookup(After(events[..n]), k) == Some(row);
    RunGrows(events, n);
  }
}
