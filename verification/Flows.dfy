/**
  What the write flows rely on: that the transactions they build may be
  submitted, what their answers mean, and what their commits belong to.
 */
module Flows {
  import opened Calls
  import opened Cancellation
  import opened Decisions
  import opened Effects
  import opened Labels
  import opened Linear
  import opened Plan
  import opened Records
  import opened Replay
  import opened Rollups
  import opened Runs
  import opened Sending
  import opened Sends
  import opened Shapes
  import opened Store
  import opened Threads
  import opened Undisturbed

  /** How many times a cancelled transaction is replanned. */
  const MAX_TXN_RETRIES: nat := 3

  // ---------------------------------------------------------------------
  // What a flow may have done
  // ---------------------------------------------------------------------

  /** The same run, longer; the two are compared through this alone. */
  ghost predicate Longer(log: seq<Event>, log': seq<Event>) {
    forall earlier {:trigger IsPrefix(earlier, log')} :: earlier == log ==> IsPrefix(earlier, log')
  }

  /** One attempt: at most one commit, the last of the log, and it belongs to `call`. */
  ghost predicate Stepped(log: seq<Event>, mine: seq<nat>, log': seq<Event>, mine': seq<nat>, call: Call) {
    && Longer(log, log')
    && (mine' == mine || (log' != [] && CallOf(log'[|log'| - 1]) == call && mine' == mine + [|log'| - 1]))
  }

  /** Any number of attempts: every commit this writer made belongs to `call`. */
  ghost predicate Worked(log: seq<Event>, mine: seq<nat>, log': seq<Event>, mine': seq<nat>, call: Call) {
    && Longer(log, log')
    && |mine| <= |mine'| && (forall j {:trigger Nth(mine', j)} :: 0 <= j < |mine| ==> Nth(mine', j) == Nth(mine, j))
    && forall j {:trigger Nth(mine', j)} :: |mine| <= j < |mine'| ==> Nth(mine', j) < |log'| && CallOf(log'[Nth(mine', j)]) == call
  }

  lemma WorkedOn(log: seq<Event>, mine: seq<nat>, log1: seq<Event>, mine1: seq<nat>, log2: seq<Event>, mine2: seq<nat>, call: Call)
    requires Worked(log, mine, log1, mine1, call) && Stepped(log1, mine1, log2, mine2, call)
    ensures Worked(log, mine, log2, mine2, call)
  {
    assert IsPrefix(log, log1) && IsPrefix(log1, log2);
    PrefixTransitive(log, log1, log2);
    forall j | 0 <= j < |mine2|
      ensures j < |mine| ==> Nth(mine2, j) == Nth(mine, j)
      ensures |mine| <= j ==> Nth(mine2, j) < |log2| && CallOf(log2[Nth(mine2, j)]) == call
    {
      if j < |mine1| {
        assert Nth(mine2, j) == Nth(mine1, j);
        if |mine| <= j { assert log2[Nth(mine1, j)] == log1[Nth(mine1, j)]; }
      }
    }
  }

  /** A call that names the row it replaces commits at most once, whatever it was told. */
  lemma WorkedOnceOn(log: seq<Event>, mine: seq<nat>, log1: seq<Event>, mine1: seq<nat>, log2: seq<Event>, mine2: seq<nat>, call: Call)
    requires Worked(log, mine, log1, mine1, call) && Stepped(log1, mine1, log2, mine2, call) && NamesItsRow(call)
    requires ValidRun(log2) && InOrder(mine2, |log2|)
    ensures Worked(log, mine, log2, mine2, call) && |mine2| <= |mine| + 1
    ensures |mine2| > |mine1| ==> log2 != [] && mine2 == mine + [|log2| - 1]
  {
    WorkedOn(log, mine, log1, mine1, log2, mine2, call);
    if |mine2| > |mine| + 1 {
      var i, j := Nth(mine2, |mine|), Nth(mine2, |mine| + 1);
      assert i < j && CallOf(log2[i]) == call && CallOf(log2[j]) == call;
      CallCommitsOnce(log2, i, j);
    }
    if |mine1| == |mine| {
      forall j | 0 <= j < |mine| ensures mine1[j] == mine[j] {
        assert mine1[j] == Nth(mine1, j) && mine[j] == Nth(mine, j);
      }
    }
  }

  function MessageRowOf(msg: Option<Message>): Option<Row> {
    if msg.None? then None else Some(MessageRow(msg.value))
  }

  function StateRowOf(s: Option<SendState>): Option<Row> {
    if s.None? then None else Some(StateRow(s.value))
  }

  function FoundWith(found: map<string, RfcHit>, id: string, row: Option<Row>): map<string, RfcHit> {
    if row.Some? && row.value.AliasRow? then found[id := row.value.hit] else found
  }

  lemma AliasSeenNow(events: seq<Event>, inboxId: string, id: string, row: Option<Row>)
    requires Typed(After(events)) && row == Lookup(After(events), AliasKey(inboxId, id))
    ensures row.Some? ==> row.value.AliasRow?
    ensures AliasSeen(events, inboxId, id, if row.Some? then Some(row.value.hit) else None)
  {
    var k := AliasKey(inboxId, id);
    assert events[..|events|] == events;
    if row.Some? {
      assert KeyOf(After(events)[k]) == k;
      assert NamesHit(Lookup(After(events[..|events|]), k), row.value.hit);
    } else {
      assert Lookup(After(events[..|events|]), k) == None;
    }
  }

  /** A lookup with one more candidate, read now; one read twice keeps the row it was found with. */
  lemma LookupOneMore(events: seq<Event>, inboxId: string, ids: seq<string>, found: map<string, RfcHit>, id: string, row: Option<Row>)
    requires LookupSeen(events, inboxId, ids, found) && StripAngleBrackets(id) == id
    requires row.Some? ==> row.value.AliasRow?
    requires AliasSeen(events, inboxId, id, if row.Some? then Some(row.value.hit) else None)
    ensures LookupSeen(events, inboxId, ids + [id], FoundWith(found, id, row))
  {
    var found' := FoundWith(found, id, row);
    forall c | c in ids + [id]
      ensures StripAngleBrackets(c) == c
      ensures AliasSeen(events, inboxId, c, if c in found' then Some(found'[c]) else None)
    {
      if c != id {
        assert c in ids;
      }
    }
  }

  lemma LookupGoesOn(before: seq<Event>, events: seq<Event>, inboxId: string, ids: seq<string>, found: map<string, RfcHit>,
                     id: string, row: Option<Row>)
    requires IsPrefix(before, events) && StaysFound(before, inboxId, ids, found) && StripAngleBrackets(id) == id
    requires Typed(After(events)) && row == Lookup(After(events), AliasKey(inboxId, id))
    ensures StaysFound(events, inboxId, ids + [id], FoundWith(found, id, row))
  {
    assert LookupSeen(events, inboxId, ids, found);
    AliasSeenNow(events, inboxId, id, row);
    LookupOneMore(events, inboxId, ids, found, id, row);
    FoundStays(events, inboxId, ids + [id], FoundWith(found, id, row));
  }

  lemma NothingLooked(events: seq<Event>, inboxId: string)
    ensures StaysFound(events, inboxId, [], map[])
  {
    FoundStays(events, inboxId, [], map[]);
  }

  lemma NothingTakenYet(events: seq<Event>)
    ensures StayTaken(events, KeySet([]))
  {
    TakenStay(events, KeySet([]));
  }

  /** The plan of an insert, as its event records it. */
  lemma InsertPlan(msg: Message, candidates: seq<string>, found: map<string, RfcHit>, before: Option<ThreadState>, m: Message)
    requires m == Resolved(msg, candidates, found)
    ensures Plans(InsertEvent(msg, candidates, found, before), InsertOps(m, before, ThreadFor(m, before), AliasLookup(candidates, found)))
  {
  }

  lemma InsertIsReady(looked: seq<Event>, log: seq<Event>, e: Event)
    requires e.InsertEvent? && IsNewMessage(e.msg) && e.msg.sendStatus == None
    requires IsPrefix(looked, log) && StaysFound(looked, e.msg.inboxId, e.candidates, e.found)
    requires StaysSeen(log, ThreadKey(e.msg.inboxId, Resolved(e.msg, e.candidates, e.found).threadId), ThreadRowOf(e.thread))
    ensures Ready(log, e)
  {
    assert LookupSeen(log, e.msg.inboxId, e.candidates, e.found);
    assert Seen(log, ThreadKey(e.msg.inboxId, Resolved(e.msg, e.candidates, e.found).threadId), ThreadRowOf(e.thread));
    LegalIsReady(log, e);
  }

  /** What a cancelled insert is told, and what that says about the rows. */
  ghost predicate InsertDecided(db: Db, msg: Message, r: Result<TxnOutcome>) {
    r.Ok? && r.value.Cancelled? ==>
      && r.value.decision != Permanent && r.value.decision != KeyExists
      && (r.value.decision == Duplicate ==> MessageKey(msg.inboxId, msg.messageId) in db)
  }

  /** What an insert's cancellation says: never permanent, and a duplicate is stored. */
  lemma InsertDecisions(db: Db, e: Event, ops: seq<PlannedOp>)
    requires e.InsertEvent? && Plans(e, ops) && !AllHold(db, ops)
    ensures var d := Decide(ops, ReasonsFor(db, ops));
            && d != Permanent && d != KeyExists
            && (d == Duplicate ==> MessageKey(e.msg.inboxId, e.msg.messageId) in db)
  {
    AttemptIsNeverPermanent(db, e, ops);
    var m := Resolved(e.msg, e.candidates, e.found);
    if Decide(ops, ReasonsFor(db, ops)) == Duplicate {
      InsertDuplicateIsStored(db, m, e.thread, ThreadFor(m, e.thread), AliasLookup(e.candidates, e.found));
    }
  }

  /** What an insert is told: what its cancellation says, and, read undisturbed, how it ends. */
  lemma InsertTold(db0: Db, db: Db, msg: Message, candidates: seq<string>, e: Event, ops: seq<PlannedOp>, r: Result<TxnOutcome>)
    requires e.InsertEvent? && e.msg == msg && e.candidates == candidates && Plans(e, ops) && Typed(db0)
    requires forall c :: c in candidates ==> StripAngleBrackets(c) == c
    requires r.Ok? && r.value.Cancelled? && r.value.decision != Retry ==>
               !AllHold(db, ops) && r.value.decision == Decide(ops, ReasonsFor(db, ops))
    ensures InsertDecided(db, msg, r)
    ensures e == InsertNow(db0, msg, candidates) ==> InsertEnds(db0, msg, candidates, Judged(db0, ops))
  {
    if r.Ok? && r.value.Cancelled? && r.value.decision != Retry {
      InsertDecisions(db, e, ops);
    }
    if e == InsertNow(db0, msg, candidates) {
      InsertNowJudged(db0, e, ops);
    }
  }

  lemma EnqueuePlanned(e: Event, plan: PlanResult)
    requires e.EnqueueEvent? && plan.Planned?
    requires plan == EnqueueOps(e.msg, e.state, e.key, e.thread, ThreadFor(e.msg, e.thread), e.nowEpoch)
    ensures Plans(e, DropTaken(plan.ops, e.taken))
  {
  }

  lemma PatchPlanned(e: Event, plan: PlanResult)
    requires e.PatchEvent? && plan.Planned?
    requires plan == PatchOps(e.msg, Patched(e.msg.labels, e.add, e.remove).labels, e.threadRead,
                              PatchedThread(e.threadRead, e.msg, e.add, e.remove, e.now), e.now)
    ensures Plans(e, plan.ops)
  {
  }

  lemma PatchFailure(db: Db, e: Event, ops: seq<PlannedOp>)
    requires e.PatchEvent? && Plans(e, ops) && !AllHold(db, ops)
    ensures var d := Decide(ops, ReasonsFor(db, ops)); d == VersionConflict || d == Retry
  {
    PatchDecisions(db, e, ops);
  }

  lemma EnqueueIsReady(log: seq<Event>, e: Event)
    requires e.EnqueueEvent? && IsNewMessage(e.msg) && IsNewSend(e.msg, e.state, e.key, e.nowEpoch)
    requires StaysSeen(log, ThreadKey(e.msg.inboxId, e.msg.threadId), ThreadRowOf(e.thread)) && StayTaken(log, e.taken)
    ensures Ready(log, e)
  {
    assert TakenSeen(log, e.taken);
    assert Seen(log, ThreadKey(e.msg.inboxId, e.msg.threadId), ThreadRowOf(e.thread));
    LegalIsReady(log, e);
  }

  /** What a cancelled enqueue is told, and what that says about the rows. */
  ghost predicate EnqueueDecided(db: Db, msg: Message, s: SendState, key: Option<SendKey>, nowEpoch: nat, d: TxnDecision) {
    && d != Permanent
    && (d == KeyExists ==> KeyIsLive(db, key, nowEpoch))
    && (d == Duplicate ==> MessageKey(msg.inboxId, msg.messageId) in db || StateKey(s.messageId) in db)
  }

  lemma EnqueueDecisions(db: Db, e: Event, ops: seq<PlannedOp>)
    requires e.EnqueueEvent? && Plans(e, ops) && !AllHold(db, ops) && Typed(db)
    ensures EnqueueDecided(db, e.msg, e.state, e.key, e.nowEpoch, Decide(ops, ReasonsFor(db, ops)))
    ensures AliasesReal(db, Decide(ops, ReasonsFor(db, ops)))
  {
    AttemptIsNeverPermanent(db, e, ops);
    var d := Decide(ops, ReasonsFor(db, ops));
    if d == KeyExists { KeyExistsIsStored(db, e, ops); }
    if d == Duplicate { EnqueueDuplicateIsStored(db, e, ops); }
    if d.AliasTaken? { TakenAreReal(db, e, ops, d.keys); }
  }

  /** The aliases a decision says are taken are. */
  ghost predicate AliasesReal(db: Db, d: TxnDecision) {
    d.AliasTaken? ==> forall k :: k in d.keys ==> HasRealAlias(db, k)
  }

  /** The aliases known to be taken after an answer. */
  function TakenAfter(taken: seq<Key>, r: Result<TxnOutcome>): seq<Key> {
    if r.Ok? && r.value.Cancelled? && r.value.decision.AliasTaken? then taken + r.value.decision.keys else taken
  }

  /** Aliases found real now have been seen real from here on. */
  lemma TakenNow(before: seq<Event>, log: seq<Event>, taken: seq<Key>, r: Result<TxnOutcome>)
    requires IsPrefix(before, log) && StayTaken(before, KeySet(taken))
    requires r.Ok? && r.value.Cancelled? ==> AliasesReal(After(log), r.value.decision)
    ensures StayTaken(log, KeySet(TakenAfter(taken, r)))
  {
    assert TakenSeen(log, KeySet(taken));
    assert log[..|log|] == log;
    var keys := TakenAfter(taken, r);
    forall k | k in KeySet(keys) ensures exists n :: 0 <= n <= |log| && HasRealAlias(After(log[..n]), k) {
      if k !in KeySet(taken) {
        assert HasRealAlias(After(log[..|log|]), k);
      }
    }
    TakenStay(log, KeySet(keys));
  }

  lemma StateCasDecisions(db: Db, e: Event, ops: seq<PlannedOp>)
    requires (e.ClaimEvent? || e.NoteEvent?) && Plans(e, ops) && !AllHold(db, ops)
    ensures Decide(ops, ReasonsFor(db, ops)) == VersionConflict
  {
    assert PlanOf(e) == Planned(ops);
    assert LosesVersion(ops[0], ReasonsFor(db, ops)[0]);
  }

  lemma ClaimIsReady(log: seq<Event>, db: Db, messageId: string, before: SendState, now: string, ops: seq<PlannedOp>)
    requires ValidRun(log) && before.status == Queued && StaysSeen(log, StateKey(messageId), Some(StateRow(before)))
    requires ops == StateCasOps(before, ClaimedState(before, now), Queued)
    ensures Ready(log, ClaimEvent(before, now)) && CallOf(ClaimEvent(before, now)) == CallClaim(messageId, now)
    ensures Plans(ClaimEvent(before, now), ops)
    ensures Lookup(db, StateKey(messageId)) == Some(StateRow(before)) ==> Judged(db, ops) == Committed
  {
    assert Seen(log, StateKey(messageId), Some(StateRow(before)));
    SeenRowIsTyped(log, StateKey(messageId), StateRow(before));
    LegalIsReady(log, ClaimEvent(before, now));
    if Lookup(db, StateKey(messageId)) == Some(StateRow(before)) {
      StateCasJudged(db, before, ClaimedState(before, now), Queued);
    }
  }

  lemma NoteIsReady(log: seq<Event>, claimed: SendState, now: string)
    requires ClaimedEarlier(log, claimed)
    ensures Ready(log, NoteEvent(claimed, now)) && claimed.status == Sending
    ensures Plans(NoteEvent(claimed, now), StateCasOps(claimed, CallingState(claimed, now), Sending))
  {
    LegalIsReady(log, NoteEvent(claimed, now));
  }

  /** What a claim that is the newest commit produced may be noted, then or later. */
  lemma ClaimMayBeNoted(log: seq<Event>, later: seq<Event>, claimed: SendState, now: string)
    requires ClaimedLast(log, claimed, now) && IsPrefix(log, later)
    ensures ClaimedEarlier(later, claimed)
  {
    assert later[|log| - 1].ClaimEvent?;
  }

  /** The newest commit is the claim that `claimed` is held by. */
  ghost predicate ClaimedLast(log: seq<Event>, claimed: SendState, now: string) {
    log != [] && log[|log| - 1].ClaimEvent? && claimed == ClaimedState(log[|log| - 1].before, now) && log[|log| - 1].now == now
  }

  lemma LostCasMeansMoved(db: Db, before: SendState, after: SendState, expected: SendStatus)
    requires !AllHold(db, StateCasOps(before, after, expected)) && before.status == expected && before.messageId == after.messageId
    ensures Lookup(db, StateKey(before.messageId)) != Some(StateRow(before))
  {
    var ops := StateCasOps(before, after, expected);
    assert !OpHolds(db, ops[0].op);
  }

  predicate IsQueued(db: Db, messageId: string) {
    HasState(db, StateKey(messageId)) && db[StateKey(messageId)].state.status == Queued
  }

  /** The message of a send state seen at any time is stored. */
  lemma SendHasMessage(seen: seq<Event>, log: seq<Event>, s: SendState)
    requires ValidRun(log) && IsPrefix(seen, log) && StaysSeen(seen, StateKey(s.messageId), Some(StateRow(s)))
    ensures MessageKey(s.inboxId, s.messageId) in After(log)
  {
    var k := StateKey(s.messageId);
    assert Seen(log, k, Some(StateRow(s)));
    var n :| 0 <= n <= |log| && Lookup(After(log[..n]), k) == Some(StateRow(s));
    PrefixValid(log, n);
    SendsAlwaysAgree(log[..n]);
    assert HasState(After(log[..n]), k);
    RunGrows(log, n);
  }

  /** The thread of a message seen at any time is stored. */
  lemma MessageHasThread(log: seq<Event>, k: Key, m: Message)
    requires ValidRun(log) && k.MessageKey? && StaysSeen(log, k, Some(MessageRow(m)))
    ensures m.inboxId == k.inboxId && m.messageId == k.messageId
    ensures ThreadKey(m.inboxId, m.threadId) in After(log)
  {
    assert Seen(log, k, Some(MessageRow(m)));
    SeenRowIsTyped(log, k, MessageRow(m));
    var n :| 0 <= n <= |log| && Lookup(After(log[..n]), k) == Some(MessageRow(m));
    PrefixValid(log, n);
    RollupsAlwaysAgree(log[..n]);
    assert HasMessage(After(log[..n]), k);
    RunGrows(log, n);
  }

  lemma MarkFailure(db: Db, e: Event, ops: seq<PlannedOp>)
    requires e.MarkEvent? && Plans(e, ops) && !AllHold(db, ops) && Typed(db)
    ensures var d := Decide(ops, ReasonsFor(db, ops)); d == VersionConflict || d == Retry || d.AliasTaken?
    ensures AliasesReal(db, Decide(ops, ReasonsFor(db, ops)))
  {
    MarkDecisions(db, e, ops);
    var d := Decide(ops, ReasonsFor(db, ops));
    if d.AliasTaken? { TakenAreReal(db, e, ops, d.keys); }
  }

  /** What a mark has read: the message of its send and, if it moves any label, the thread. */
  ghost predicate MarkSeen(log: seq<Event>, s: SendState, outcome: MarkOutcome, m: Message, thread: Option<ThreadState>) {
    && StaysSeen(log, MessageKey(s.inboxId, s.messageId), Some(MessageRow(m)))
    && (thread.Some? <==> MarkMovesLabels(m, outcome))
    && (thread.Some? ==> StaysSeen(log, ThreadKey(m.inboxId, m.threadId), ThreadRowOf(thread)))
  }

  lemma MarkIsReady(log: seq<Event>, s: SendState, outcome: MarkOutcome, m: Message, thread: Option<ThreadState>, now: string, taken: set<Key>)
    requires MarksFrom(s.status, outcome) && StayTaken(log, taken)
    requires StaysSeen(log, StateKey(s.messageId), Some(StateRow(s))) && MarkSeen(log, s, outcome, m, thread)
    ensures Ready(log, MarkEvent(s, outcome, m, thread, now, taken))
    ensures CallOf(MarkEvent(s, outcome, m, thread, now, taken)) == CallMark(s, outcome, now)
  {
  }

  lemma PatchIsReady(log: seq<Event>, msg: Message, add: seq<string>, remove: seq<string>, t: ThreadState, now: string)
    requires StaysSeen(log, MessageKey(msg.inboxId, msg.messageId), Some(MessageRow(msg)))
    requires StaysSeen(log, ThreadKey(msg.inboxId, msg.threadId), Some(ThreadRow(t)))
    ensures Ready(log, PatchEvent(msg, add, remove, t, now))
  {
    assert Seen(log, MessageKey(msg.inboxId, msg.messageId), Some(MessageRow(msg)));
    assert Seen(log, ThreadKey(msg.inboxId, msg.threadId), Some(ThreadRow(t)));
    LegalIsReady(log, PatchEvent(msg, add, remove, t, now));
  }

  /** One attempt at a label patch. */
  datatype PatchStep =
    | NoMessage
    | Unchanged(labels: seq<string>)
    | Tried(labels: seq<string>, outcome: TxnOutcome)

  /** An attempt that ends the call as `result` says. */
  predicate PatchStepEnds(r: Result<PatchStep>, result: Result<Option<seq<string>>>) {
    match r
    case Err(error) => result == Err(error)
    case Ok(NoMessage) => result == Ok(None)
    case Ok(Unchanged(labels)) => result == Ok(Some(labels))
    case Ok(Tried(labels, outcome)) => outcome.Committed? && result == Ok(Some(labels))
  }

  /** The message really had `labels`, and the patch changes nothing about them. */
  ghost predicate NothingToPatch(log: seq<Event>, mk: Key, add: seq<string>, remove: seq<string>, labels: seq<string>) {
    exists m :: && Seen(log, mk, Some(MessageRow(m)))
                && labels == Patched(m.labels, add, remove).labels
                && Patched(m.labels, add, remove).added == [] && Patched(m.labels, add, remove).removed == []
  }

  lemma MessageNeedsNoPatch(log: seq<Event>, mk: Key, m: Message, add: seq<string>, remove: seq<string>)
    requires StaysSeen(log, mk, Some(MessageRow(m)))
    requires Patched(m.labels, add, remove).added == [] && Patched(m.labels, add, remove).removed == []
    ensures NothingToPatch(log, mk, add, remove, Patched(m.labels, add, remove).labels)
  {
    assert Seen(log, mk, Some(MessageRow(m)));
  }

  /** The newest commit is this patch of this message, and `labels` is what it stored. */
  ghost predicate PatchedLast(log: seq<Event>, mk: Key, add: seq<string>, remove: seq<string>, labels: seq<string>)
    requires mk.MessageKey?
  {
    && log != [] && log[|log| - 1].PatchEvent?
    && mk == MessageKey(log[|log| - 1].msg.inboxId, log[|log| - 1].msg.messageId)
    && add == log[|log| - 1].add && remove == log[|log| - 1].remove
    && labels == Patched(log[|log| - 1].msg.labels, add, remove).labels
  }

  /** The message and its thread really were such that the patch takes one of them past the label caps. */
  ghost predicate PatchTooBig(log: seq<Event>, mk: Key, add: seq<string>, remove: seq<string>) {
    exists m, t :: && Seen(log, mk, Some(MessageRow(m))) && Seen(log, ThreadKey(m.inboxId, m.threadId), Some(ThreadRow(t)))
                   && PatchExceeds(m, t, Patched(m.labels, add, remove))
  }

  predicate PatchExceeds(m: Message, t: ThreadState, patch: LabelPatch) {
    !WithinLabelCaps(patch.labels, Relabelled(t, patch.added, patch.removed, "").labels)
  }

  lemma PatchRefused(log: seq<Event>, m: Message, add: seq<string>, remove: seq<string>, t: ThreadState, now: string, plan: PlanResult)
    requires StaysSeen(log, MessageKey(m.inboxId, m.messageId), Some(MessageRow(m)))
    requires StaysSeen(log, ThreadKey(m.inboxId, m.threadId), Some(ThreadRow(t)))
    requires plan == PatchOps(m, Patched(m.labels, add, remove).labels, t, PatchedThread(t, m, add, remove, now), now) && plan.LabelLimit?
    ensures PatchTooBig(log, MessageKey(m.inboxId, m.messageId), add, remove)
  {
    assert Seen(log, MessageKey(m.inboxId, m.messageId), Some(MessageRow(m)));
    assert Seen(log, ThreadKey(m.inboxId, m.threadId), Some(ThreadRow(t)));
    assert PatchExceeds(m, t, Patched(m.labels, add, remove));
  }

  // ---------------------------------------------------------------------
  // What a flow was told
  // ---------------------------------------------------------------------

  /** One of the answers; what a call was told is looked at through this alone. */
  ghost function Told(answers: seq<Result<TxnOutcome>>, i: nat): Result<TxnOutcome>
    requires i < |answers|
  {
    answers[i]
  }

  /** `n` more answers, every one a cancellation. */
  ghost predicate Cancellations(before: seq<Result<TxnOutcome>>, after: seq<Result<TxnOutcome>>, n: nat) {
    && |after| == |before| + n
    && (forall j {:trigger Told(after, j)} :: 0 <= j < |before| ==> Told(after, j) == Told(before, j))
    && (forall j {:trigger Told(after, j)} :: |before| <= j < |after| ==> Told(after, j).Ok? && Told(after, j).value.Cancelled?)
  }

  lemma OneMoreCancellation(before: seq<Result<TxnOutcome>>, after: seq<Result<TxnOutcome>>, n: nat, r: Result<TxnOutcome>)
    requires Cancellations(before, after, n) && r.Ok? && r.value.Cancelled?
    ensures Cancellations(before, after + [r], n + 1)
  {
    forall j | 0 <= j < |after| ensures Told(after + [r], j) == Told(after, j) {
    }
  }

  // ---------------------------------------------------------------------
  // Reading an undisturbed table
  // ---------------------------------------------------------------------

  lemma HitsOneMore(db: Db, inboxId: string, ids: seq<string>, id: string)
    ensures FoundWith(HitsNow(db, inboxId, ids), id, Lookup(db, AliasKey(inboxId, id))) == HitsNow(db, inboxId, ids + [id])
  {
  }

  lemma NoHits(db: Db, inboxId: string)
    ensures HitsNow(db, inboxId, []) == map[]
  {
  }

  /** What an undisturbed insert read is what it would read now. */
  lemma InsertReadNow(db: Db, msg: Message, candidates: seq<string>, found: map<string, RfcHit>, before: Option<ThreadState>)
    requires found == HitsNow(db, msg.inboxId, candidates)
    requires Lookup(db, ThreadKey(msg.inboxId, Resolved(msg, candidates, found).threadId)) == ThreadRowOf(before)
    ensures InsertEvent(msg, candidates, found, before) == InsertNow(db, msg, candidates)
  {
  }

  lemma InsertNowJudged(db: Db, e: Event, ops: seq<PlannedOp>)
    requires e.InsertEvent? && Plans(e, ops) && e == InsertNow(db, e.msg, e.candidates) && Typed(db)
    requires forall c :: c in e.candidates ==> StripAngleBrackets(c) == c
    ensures InsertEnds(db, e.msg, e.candidates, Judged(db, ops))
  {
    assert PlanOf(e) == Planned(ops);
    InsertJudged(db, e.msg, e.candidates, ops);
  }

  /** What an undisturbed enqueue read and planned is what it would now. */
  lemma EnqueueReadNow(db: Db, msg: Message, s: SendState, key: Option<SendKey>, nowEpoch: nat, before: Option<ThreadState>, plan: PlanResult)
    requires Lookup(db, ThreadKey(msg.inboxId, msg.threadId)) == ThreadRowOf(before)
    requires plan == EnqueueOps(msg, s, key, before, ThreadFor(msg, before), nowEpoch)
    ensures if SendFits(db, msg) then plan == Planned(EnqueuePlanNow(db, msg, s, key, nowEpoch)) else plan.LabelLimit?
  {
  }

  /** How an undisturbed enqueue stands before its n-th attempt: only a taken alias leads to a second. */
  ghost predicate EnqueueGoesOn(db: Db, msg: Message, s: SendState, key: Option<SendKey>, nowEpoch: nat, taken: seq<Key>, n: nat) {
    && n <= 1 && (n == 0 ==> taken == [])
    && forall rows {:trigger EnqueuePlanNow(rows, msg, s, key, nowEpoch)} :: rows == db ==>
         && Typed(rows)
         && (n == 1 ==> && SendFits(rows, msg) && EnqueueResult(rows, msg, s, key, nowEpoch) == Ok(Enqueued)
                        && Judged(rows, DropTaken(EnqueuePlanNow(rows, msg, s, key, nowEpoch), KeySet(taken))) == Committed)
  }

  /** What it is told is its result, or leads to the second attempt. */
  ghost predicate EnqueueEndsOrGoesOn(db: Db, msg: Message, s: SendState, key: Option<SendKey>, nowEpoch: nat, taken: seq<Key>, n: nat,
                                      r: Result<TxnOutcome>)
  {
    match r
    case Err(error) => EnqueueResult(db, msg, s, key, nowEpoch) == Err(error)
    case Ok(Committed) => EnqueueResult(db, msg, s, key, nowEpoch) == Ok(Enqueued)
    case Ok(Cancelled(KeyExists)) => EnqueueResult(db, msg, s, key, nowEpoch) == Ok(KeyInUse)
    case Ok(Cancelled(Duplicate)) => EnqueueResult(db, msg, s, key, nowEpoch) == Ok(AlreadyQueued)
    case Ok(Cancelled(AliasTaken(_))) => EnqueueGoesOn(db, msg, s, key, nowEpoch, TakenAfter(taken, r), n + 1)
    case Ok(Cancelled(_)) => false
  }

  lemma EnqueueTold(db: Db, msg: Message, s: SendState, key: Option<SendKey>, nowEpoch: nat, taken: seq<Key>, n: nat, r: Result<TxnOutcome>)
    requires EnqueueGoesOn(db, msg, s, key, nowEpoch, taken, n)
    requires if SendFits(db, msg) then r == Ok(Judged(db, DropTaken(EnqueuePlanNow(db, msg, s, key, nowEpoch), KeySet(taken))))
             else r == Err(LabelLimitError)
    ensures EnqueueEndsOrGoesOn(db, msg, s, key, nowEpoch, taken, n, r)
  {
    if n == 0 && SendFits(db, msg) {
      EnqueueFirst(db, msg, s, key, nowEpoch);
      if r.value.Cancelled? && r.value.decision.AliasTaken? {
        RetryCommits(db, EnqueuePlanNow(db, msg, s, key, nowEpoch), r.value.decision.keys);
      }
    }
  }

  /** An undisturbed note commits exactly when the claim is still what is stored. */
  lemma NoteJudged(log: seq<Event>, db: Db, claimed: SendState, now: string, ops: seq<PlannedOp>)
    requires ValidRun(log) && db == After(log) && Ready(log, NoteEvent(claimed, now)) && claimed.status == Sending
    requires ops == StateCasOps(claimed, CallingState(claimed, now), Sending) && Plans(NoteEvent(claimed, now), ops)
    ensures if Lookup(db, StateKey(claimed.messageId)) == Some(StateRow(claimed)) then Judged(db, ops) == Committed
            else Judged(db, ops) == Cancelled(VersionConflict)
  {
    var e := NoteEvent(claimed, now);
    if AllHold(db, ops) {
      assert PlanOf(e) == Planned(ops);
      ReadsAreCurrent(log, e);
    } else {
      StateCasDecisions(db, e, ops);
      LostCasMeansMoved(db, claimed, CallingState(claimed, now), Sending);
    }
  }

  /** The same, as it is stored now. */
  ghost predicate MarkSees(db: Db, s: SendState, outcome: MarkOutcome, m: Message, thread: Option<ThreadState>) {
    && Lookup(db, MessageKey(s.inboxId, s.messageId)) == Some(MessageRow(m))
    && (thread.Some? <==> MarkMovesLabels(m, outcome))
    && (thread.Some? ==> Lookup(db, ThreadKey(m.inboxId, m.threadId)) == ThreadRowOf(thread))
  }

  /** What an undisturbed mark read is what it would read now. */
  lemma MarkReadNow(db: Db, s: SendState, outcome: MarkOutcome, m: Message, thread: Option<ThreadState>, now: string)
    requires MarkSees(db, s, outcome, m, thread)
    ensures MarkCanRead(db, s, outcome)
    ensures MarkPlanNow(db, s, outcome, now) == MarkPlan(MarkEvent(s, outcome, m, thread, now, {}))
  {
  }

  /** How an undisturbed mark stands before its n-th attempt: only taken aliases lead to a second. */
  ghost predicate MarkGoesOn(db: Db, s: SendState, outcome: MarkOutcome, now: string, taken: seq<Key>, n: nat) {
    && n <= 1 && (n == 0 ==> taken == [])
    && forall rows {:trigger MarkPlanNow(rows, s, outcome, now)} :: rows == db ==>
         && Typed(rows)
         && (n == 1 ==> && VersionCheck(rows, StateKey(s.messageId), s.version)
                        && Judged(rows, DropTaken(MarkPlanNow(rows, s, outcome, now), KeySet(taken))) == Committed)
  }

  /** An attempt at it records the outcome, finds that the send has moved on, or leads to the second attempt. */
  ghost predicate MarkEndsOrGoesOn(db: Db, s: SendState, outcome: MarkOutcome, now: string, taken: seq<Key>, n: nat, r: Result<TxnOutcome>) {
    match r
    case Err(error) => error == Conflict && !VersionCheck(db, StateKey(s.messageId), s.version)
    case Ok(Committed) => VersionCheck(db, StateKey(s.messageId), s.version)
    case Ok(Cancelled(AliasTaken(_))) => MarkGoesOn(db, s, outcome, now, TakenAfter(taken, r), n + 1)
    case Ok(Cancelled(_)) => false
  }

  lemma MarkTold(db: Db, s: SendState, outcome: MarkOutcome, now: string, taken: seq<Key>, n: nat, r: Result<TxnOutcome>)
    requires MarkGoesOn(db, s, outcome, now, taken, n) && MarkCanRead(db, s, outcome)
    requires r == Ok(Judged(db, DropTaken(MarkPlanNow(db, s, outcome, now), KeySet(taken))))
    ensures r == Ok(Cancelled(VersionConflict)) ==> !VersionCheck(db, StateKey(s.messageId), s.version)
    ensures r != Ok(Cancelled(VersionConflict)) ==> MarkEndsOrGoesOn(db, s, outcome, now, taken, n, r)
  {
    if n == 0 {
      MarkFirst(db, s, outcome, now);
      if r.value.Cancelled? && r.value.decision.AliasTaken? {
        RetryCommits(db, MarkPlanNow(db, s, outcome, now), r.value.decision.keys);
      }
    }
  }

  /** The rows a patch read are the stored ones. */
  predicate PatchReads(db: Db, m: Message, t: ThreadState) {
    && Lookup(db, MessageKey(m.inboxId, m.messageId)) == Some(MessageRow(m))
    && t.inboxId == m.inboxId && t.threadId == m.threadId
    && Lookup(db, ThreadKey(m.inboxId, m.threadId)) == Some(ThreadRow(t))
  }

  /** An undisturbed patch is refused for its labels or commits. */
  lemma PatchNow(db: Db, m: Message, add: seq<string>, remove: seq<string>, t: ThreadState, now: string, plan: PlanResult)
    requires PatchReads(db, m, t)
    requires plan == PatchOps(m, Patched(m.labels, add, remove).labels, t, PatchedThread(t, m, add, remove, now), now)
    ensures plan.Planned? <==> PatchFits(db, m, Patched(m.labels, add, remove))
    ensures plan.Planned? ==> Judged(db, plan.ops) == Committed
  {
    if plan.Planned? { PatchJudged(db, PatchEvent(m, add, remove, t, now), plan.ops); }
  }
}
