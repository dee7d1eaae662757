/**
  Each call on a table that nobody disturbs: what it reads is what it
  commits over, so the rows alone decide how it ends.
 */
module Undisturbed {
  import opened Aliases
  import opened Calls
  import opened Cancellation
  import opened Decisions
  import opened Effects
  import opened Labels
  import opened Linear
  import opened Plan
  import opened Records
  import opened Replay
  import opened Runs
  import opened Sends
  import opened Shapes
  import opened Store
  import opened Threads

  // ---------------------------------------------------------------------
  // Judging a plan by its parts
  // ---------------------------------------------------------------------

  lemma AllHoldConcat(db: Db, a: seq<PlannedOp>, b: seq<PlannedOp>)
    ensures AllHold(db, a + b) <==> AllHold(db, a) && AllHold(db, b)
  {
    if AllHold(db, a + b) {
      assert forall i :: 0 <= i < |a| ==> (a + b)[i] == a[i];
      assert forall i :: 0 <= i < |b| ==> (a + b)[|a| + i] == b[i];
    }
  }

  /** Every write but the aliases passes. */
  ghost predicate RestHolds(db: Db, ops: seq<PlannedOp>) {
    forall i :: 0 <= i < |ops| && !ops[i].op.AliasFirstWriter? ==> OpHolds(db, ops[i].op)
  }

  lemma RestHoldsConcat(db: Db, a: seq<PlannedOp>, b: seq<PlannedOp>)
    requires RestHolds(db, a) && RestHolds(db, b)
    ensures RestHolds(db, a + b)
  {
  }

  lemma DropKeepsRest(db: Db, ops: seq<PlannedOp>, taken: set<Key>)
    requires RestHolds(db, ops)
    ensures RestHolds(db, DropTaken(ops, taken))
  {
    var kept := DropTaken(ops, taken);
    forall j | 0 <= j < |kept| && !kept[j].op.AliasFirstWriter? ensures OpHolds(db, kept[j].op) {
      var i := DropTakenSubset(ops, taken, j);
    }
  }

  /** Where only aliases can fail, the transaction commits or is told which are taken. */
  lemma OnlyAliasesFail(db: Db, ops: seq<PlannedOp>, m: Message, kind: Kind)
    requires AllShaped(ops, m, kind) && RestHolds(db, ops)
    ensures !AllHold(db, ops) ==> Decide(ops, ReasonsFor(db, ops)).AliasTaken?
  {
    var reasons := ReasonsFor(db, ops);
    if !AllHold(db, ops) {
      var i :| 0 <= i < |ops| && !OpHolds(db, ops[i].op);
      assert LosesAlias(ops[i], reasons[i]);
      assert Target(ops[i].op) in TakenAliases(ops, reasons);
      NothingElseLost(db, ops, reasons, m, kind);
    }
  }

  lemma NothingElseLost(db: Db, ops: seq<PlannedOp>, reasons: seq<CancellationReason>, m: Message, kind: Kind)
    requires AllShaped(ops, m, kind) && RestHolds(db, ops) && reasons == ReasonsFor(db, ops)
    ensures forall j :: 0 <= j < |ops| ==> !LosesKey(ops[j], reasons[j]) && !LosesNew(ops[j], reasons[j])
    ensures forall j :: 0 <= j < |ops| ==> !LosesVersion(ops[j], reasons[j]) && !LosesOther(ops[j], reasons[j])
  {
    forall j | 0 <= j < |ops|
      ensures !LosesKey(ops[j], reasons[j]) && !LosesNew(ops[j], reasons[j])
      ensures !LosesVersion(ops[j], reasons[j]) && !LosesOther(ops[j], reasons[j])
    {
      LosesNothingElse(db, ops[j], reasons[j], m, kind);
    }
  }

  lemma LosesNothingElse(db: Db, p: PlannedOp, reason: CancellationReason, m: Message, kind: Kind)
    requires Shaped(p, m, kind) && (!p.op.AliasFirstWriter? ==> OpHolds(db, p.op))
    requires reason == if OpHolds(db, p.op) then NoReason else ConditionalCheckFailed
    ensures !LosesKey(p, reason) && !LosesNew(p, reason) && !LosesVersion(p, reason) && !LosesOther(p, reason)
  {
  }

  /** A failed check on an idempotency key decides before all others. */
  lemma KeyDecides(db: Db, ops: seq<PlannedOp>, i: nat)
    requires i < |ops| && ops[i].role.IdempotencyKeyRole? && !OpHolds(db, ops[i].op)
    ensures Decide(ops, ReasonsFor(db, ops)) == KeyExists
  {
    assert LosesKey(ops[i], ReasonsFor(db, ops)[i]);
  }

  /** A message or state that is not new decides before all but the key. */
  lemma DuplicateDecides(db: Db, ops: seq<PlannedOp>, i: nat)
    requires i < |ops| && (ops[i].role.MessageRole? || ops[i].role.SendStateRole?)
    requires IsNotExistsConditioned(ops[i].op) && !OpHolds(db, ops[i].op)
    requires forall j :: 0 <= j < |ops| && ops[j].role.IdempotencyKeyRole? ==> OpHolds(db, ops[j].op)
    ensures Decide(ops, ReasonsFor(db, ops)) == Duplicate
  {
    assert LosesNew(ops[i], ReasonsFor(db, ops)[i]);
  }

  /** With nothing new in the plan, a failed version decides. */
  lemma VersionDecides(db: Db, ops: seq<PlannedOp>, i: nat, m: Message, kind: Kind)
    requires AllShaped(ops, m, kind) && !kind.keyed && !kind.creates
    requires i < |ops| && ops[i].role.SendStateRole? && !OpHolds(db, ops[i].op)
    ensures Decide(ops, ReasonsFor(db, ops)) == VersionConflict
  {
    var reasons := ReasonsFor(db, ops);
    forall j | 0 <= j < |ops| ensures !LosesKey(ops[j], reasons[j]) && !LosesNew(ops[j], reasons[j]) {
      assert Shaped(ops[j], m, kind);
    }
    assert Shaped(ops[i], m, kind);
    assert LosesVersion(ops[i], reasons[i]);
  }

  // ---------------------------------------------------------------------
  // Insert
  // ---------------------------------------------------------------------

  function InsertNow(db: Db, msg: Message, candidates: seq<string>): Event {
    EventNow(db, CallInsert(msg, candidates)).value
  }

  /** The message's own id belongs to another message, and the call did not list it. */
  predicate OwnIdTaken(db: Db, msg: Message, candidates: seq<string>) {
    && OwnId(msg) != "" && |OwnId(msg)| <= ALIAS_ID_MAX_BYTES && OwnId(msg) !in candidates
    && HasRealAlias(db, AliasKey(msg.inboxId, OwnId(msg)))
  }

  lemma {:induction false} PlaceholdersHold(db: Db, m: Message, ownId: string, candidates: seq<string>, found: map<string, RfcHit>)
    requires forall c :: c in candidates && c !in found ==> StripAngleBrackets(c) == c && AliasKey(m.inboxId, c) !in db
    ensures AllHold(db, PlaceholderOps(m, ownId, candidates, found))
  {
    if candidates != [] {
      var init, last := candidates[..|candidates| - 1], candidates[|candidates| - 1];
      assert candidates == init + [last];
      PlaceholdersHold(db, m, ownId, init, found);
      AllHoldConcat(db, PlaceholderOps(m, ownId, init, found), if last != ownId && last !in found then AliasOps(m, last, None) else []);
    }
  }

  lemma AliasKeysHoldAliases(db: Db, k: Key)
    requires Typed(db) && k.AliasKey?
    ensures k in db ==> db[k].AliasRow?
  {
    assert k in db ==> KeyOf(db[k]) == k;
  }

  lemma OwnAliasHolds(db: Db, m: Message, lookup: AliasLookup)
    requires lookup.found == HitsNow(db, m.inboxId, lookup.candidates) && Typed(db)
    ensures var own := if OwnId(m) != "" && IsClaimable(lookup, OwnId(m)) then AliasOps(m, m.rfcMessageId, Some(m.messageId)) else [];
            AllHold(db, own) <==> !OwnIdTaken(db, m, lookup.candidates)
  {
    var k := AliasKey(m.inboxId, OwnId(m));
    AliasKeysHoldAliases(db, k);
    assert OwnId(m) in lookup.found <==> OwnId(m) in lookup.candidates && k in db;
    var own := AliasOps(m, m.rfcMessageId, Some(m.messageId));
    if |OwnId(m)| <= ALIAS_ID_MAX_BYTES {
      assert AllHold(db, own) <==> OpHolds(db, own[0].op);
      assert OpHolds(db, own[0].op) <==> !HasRealAlias(db, k);
    }
  }

  lemma InsertParts(db: Db, m: Message, before: Option<ThreadState>, after: ThreadState, lookup: AliasLookup)
    requires Typed(db) && lookup.found == HitsNow(db, m.inboxId, lookup.candidates)
    requires forall c :: c in lookup.candidates ==> StripAngleBrackets(c) == c
    requires OpHolds(db, PutThread(after, ThreadVersion(before)).op)
    ensures AllHold(db, InsertOps(m, before, after, lookup)) <==>
              MessageKey(m.inboxId, m.messageId) !in db && !OwnIdTaken(db, m, lookup.candidates)
    ensures MessageKey(m.inboxId, m.messageId) !in db ==> RestHolds(db, InsertOps(m, before, after, lookup))
  {
    var head := [PutMessage(StoredMessage(m, after)), PutThread(after, ThreadVersion(before))];
    var own := if OwnId(m) != "" && IsClaimable(lookup, OwnId(m)) then AliasOps(m, m.rfcMessageId, Some(m.messageId)) else [];
    var rest := PlaceholderOps(m, OwnId(m), lookup.candidates, lookup.found);
    forall c | c in lookup.candidates && c !in lookup.found ensures AliasKey(m.inboxId, c) !in db {
      AliasKeysHoldAliases(db, AliasKey(m.inboxId, c));
    }
    PlaceholdersHold(db, m, OwnId(m), lookup.candidates, lookup.found);
    OwnAliasHolds(db, m, lookup);
    AllHoldConcat(db, head, own);
    AllHoldConcat(db, head + own, rest);
    HeadHolds(db, head);
    if MessageKey(m.inboxId, m.messageId) !in db {
      RestHoldsConcat(db, head, own);
      RestHoldsConcat(db, head + own, rest);
    }
  }

  lemma HeadHolds(db: Db, head: seq<PlannedOp>)
    requires |head| == 2
    ensures AllHold(db, head) <==> OpHolds(db, head[0].op) && OpHolds(db, head[1].op)
  {
  }

  /** A thread just read is the one the write is conditioned on. */
  lemma ThreadHolds(db: Db, m: Message, before: Option<ThreadState>)
    requires Typed(db) && before == ThreadAt(db, m.inboxId, m.threadId)
    ensures OpHolds(db, PutThread(ThreadFor(m, before), ThreadVersion(before)).op)
    ensures Lookup(db, ThreadKey(m.inboxId, m.threadId)) == ThreadRowOf(before)
  {
    var k := ThreadKey(m.inboxId, m.threadId);
    if k in db { assert KeyOf(db[k]) == k; }
  }

  /** How one undisturbed attempt at an insert ends. */
  ghost predicate InsertEnds(db: Db, msg: Message, candidates: seq<string>, outcome: TxnOutcome) {
    if MessageKey(msg.inboxId, msg.messageId) in db then outcome == Cancelled(Duplicate)
    else if OwnIdTaken(db, msg, candidates) then outcome.Cancelled? && outcome.decision.AliasTaken?
    else outcome == Committed
  }

  /** An undisturbed insert commits exactly when its message is new and its own id not another's. */
  lemma InsertJudged(db: Db, msg: Message, candidates: seq<string>, ops: seq<PlannedOp>)
    requires Typed(db) && PlanOf(InsertNow(db, msg, candidates)) == Planned(ops)
    requires forall c :: c in candidates ==> StripAngleBrackets(c) == c
    ensures InsertEnds(db, msg, candidates, Judged(db, ops))
  {
    var e := InsertNow(db, msg, candidates);
    var lookup := AliasLookup(candidates, e.found);
    var m := Resolved(msg, candidates, e.found);
    ThreadHolds(db, m, e.thread);
    InsertParts(db, m, e.thread, ThreadFor(m, e.thread), lookup);
    PlanShape(e);
    if MessageKey(msg.inboxId, msg.messageId) in db {
      forall j | 0 <= j < |ops| ensures !ops[j].role.IdempotencyKeyRole? { assert Shaped(ops[j], m, KindOf(e)); }
      DuplicateDecides(db, ops, 0);
    } else {
      OnlyAliasesFail(db, ops, m, KindOf(e));
    }
  }

  // ---------------------------------------------------------------------
  // Enqueue
  // ---------------------------------------------------------------------

  /** An enqueue's key is stored and has not expired. */
  predicate KeyIsLive(db: Db, key: Option<SendKey>, nowEpoch: nat) {
    && key.Some?
    && var k := SendKeyKey(key.value.keyHash);
       k in db && db[k].SendKeyRow? && db[k].key.expiresAt >= nowEpoch
  }

  lemma KeyHolds(db: Db, key: SendKey, nowEpoch: nat)
    requires Typed(db)
    ensures OpHolds(db, Put(SendKeyRow(key), NotExistsOrExpired(nowEpoch))) <==> !KeyIsLive(db, Some(key), nowEpoch)
  {
    var k := SendKeyKey(key.keyHash);
    assert k in db ==> KeyOf(db[k]) == k;
  }

  /** The writes of an enqueue before its alias. */
  function SendHead(key: Option<SendKey>, nowEpoch: nat, m: Message, s: SendState, t: ThreadState, before: Option<nat>): seq<PlannedOp> {
    KeyOps(key, nowEpoch) + [PutMessage(m), PutState(s, NotExists), PutThread(t, before)]
  }

  lemma SendHeadHolds(db: Db, key: Option<SendKey>, nowEpoch: nat, m: Message, s: SendState, t: ThreadState, before: Option<nat>)
    requires Typed(db) && OpHolds(db, PutThread(t, before).op)
    requires !KeyIsLive(db, key, nowEpoch) && MessageKey(m.inboxId, m.messageId) !in db && StateKey(s.messageId) !in db
    ensures RestHolds(db, SendHead(key, nowEpoch, m, s, t, before))
  {
    if key.Some? { KeyHolds(db, key.value, nowEpoch); }
  }

  /** Whether the message or the send state of an enqueue is stored already. */
  predicate SendStored(db: Db, msg: Message, s: SendState) {
    MessageKey(msg.inboxId, msg.messageId) in db || StateKey(s.messageId) in db
  }

  /** The front of a plan, where it writes no alias, stays in place when aliases are dropped. */
  lemma {:induction false} FrontIsKept(ops: seq<PlannedOp>, taken: set<Key>, n: nat)
    requires n <= |ops| && forall i :: 0 <= i < n ==> !ops[i].op.AliasFirstWriter?
    ensures |DropTaken(ops, taken)| >= n && DropTaken(ops, taken)[..n] == ops[..n]
  {
    if n < |ops| {
      FrontIsKept(ops[..|ops| - 1], taken, n);
    } else {
      DropNothing(ops, taken);
    }
  }

  lemma EnqueueFront(e: Event)
    requires e.EnqueueEvent?
    ensures var first := if e.key.Some? then 1 else 0;
            var kept := DropTaken(EnqueuePlan(e), e.taken);
            && |kept| >= first + 2
            && (e.key.Some? ==> kept[0] == PlannedOp(IdempotencyKeyRole, Put(SendKeyRow(e.key.value), NotExistsOrExpired(e.nowEpoch))))
            && kept[first] == PutMessage(StoredMessage(e.msg, ThreadFor(e.msg, e.thread))) && kept[first + 1] == PutState(e.state, NotExists)
  {
    var t := ThreadFor(e.msg, e.thread);
    SendFront(e.key, e.nowEpoch, StoredMessage(e.msg, t), e.state,
              [PutThread(t, ThreadVersion(e.thread))] + AliasOps(e.msg, e.msg.rfcMessageId, Some(e.msg.messageId)), e.taken);
    assert EnqueuePlan(e) == KeyOps(e.key, e.nowEpoch) + [PutMessage(StoredMessage(e.msg, t)), PutState(e.state, NotExists)]
                             + ([PutThread(t, ThreadVersion(e.thread))] + AliasOps(e.msg, e.msg.rfcMessageId, Some(e.msg.messageId)));
  }

  lemma SendFront(key: Option<SendKey>, nowEpoch: nat, m: Message, s: SendState, rest: seq<PlannedOp>, taken: set<Key>)
    ensures var first := if key.Some? then 1 else 0;
            var kept := DropTaken(KeyOps(key, nowEpoch) + [PutMessage(m), PutState(s, NotExists)] + rest, taken);
            && |kept| >= first + 2
            && (key.Some? ==> kept[0] == PlannedOp(IdempotencyKeyRole, Put(SendKeyRow(key.value), NotExistsOrExpired(nowEpoch))))
            && kept[first] == PutMessage(m) && kept[first + 1] == PutState(s, NotExists)
  {
    var first := if key.Some? then 1 else 0;
    var plan := KeyOps(key, nowEpoch) + [PutMessage(m), PutState(s, NotExists)] + rest;
    var kept := DropTaken(plan, taken);
    FrontIsKept(plan, taken, first + 2);
    assert kept[..first + 2][first] == plan[..first + 2][first] && kept[..first + 2][first + 1] == plan[..first + 2][first + 1];
    if key.Some? { assert kept[..first + 2][0] == plan[..first + 2][0]; }
  }

  lemma OnlyKeyIsKey(db: Db, e: Event, ops: seq<PlannedOp>)
    requires e.EnqueueEvent? && ops == DropTaken(EnqueuePlan(e), e.taken) && Typed(db) && !KeyIsLive(db, e.key, e.nowEpoch)
    ensures forall j :: 0 <= j < |ops| && ops[j].role.IdempotencyKeyRole? ==> OpHolds(db, ops[j].op)
  {
    forall j | 0 <= j < |ops| && ops[j].role.IdempotencyKeyRole? ensures OpHolds(db, ops[j].op) {
      var i := DropTakenSubset(EnqueuePlan(e), e.taken, j);
      EnqueueLoss(e, i);
      KeyHolds(db, e.key.value, e.nowEpoch);
    }
  }

  lemma EnqueueRefused(db: Db, e: Event, ops: seq<PlannedOp>)
    requires e.EnqueueEvent? && ops == DropTaken(EnqueuePlan(e), e.taken) && Typed(db)
    ensures KeyIsLive(db, e.key, e.nowEpoch) ==> Judged(db, ops) == Cancelled(KeyExists)
    ensures !KeyIsLive(db, e.key, e.nowEpoch) && SendStored(db, e.msg, e.state) ==> Judged(db, ops) == Cancelled(Duplicate)
  {
    var first := if e.key.Some? then 1 else 0;
    EnqueueFront(e);
    if KeyIsLive(db, e.key, e.nowEpoch) {
      KeyHolds(db, e.key.value, e.nowEpoch);
      KeyDecides(db, ops, 0);
    } else if SendStored(db, e.msg, e.state) {
      OnlyKeyIsKey(db, e, ops);
      DuplicateDecides(db, ops, if MessageKey(e.msg.inboxId, e.msg.messageId) in db then first else first + 1);
    }
  }

  lemma EnqueueRest(db: Db, e: Event, ops: seq<PlannedOp>)
    requires e.EnqueueEvent? && ops == DropTaken(EnqueuePlan(e), e.taken) && Typed(db)
    requires e.thread == ThreadAt(db, e.msg.inboxId, e.msg.threadId)
    requires !KeyIsLive(db, e.key, e.nowEpoch) && !SendStored(db, e.msg, e.state)
    ensures RestHolds(db, ops)
  {
    var t := ThreadFor(e.msg, e.thread);
    ThreadHolds(db, e.msg, e.thread);
    SendHeadHolds(db, e.key, e.nowEpoch, StoredMessage(e.msg, t), e.state, t, ThreadVersion(e.thread));
    RestHoldsConcat(db, SendHead(e.key, e.nowEpoch, StoredMessage(e.msg, t), e.state, t, ThreadVersion(e.thread)),
                    AliasOps(e.msg, e.msg.rfcMessageId, Some(e.msg.messageId)));
    DropKeepsRest(db, EnqueuePlan(e), e.taken);
  }

  /** How a first undisturbed attempt at an enqueue ends. */
  ghost predicate EnqueueEnds(db: Db, msg: Message, s: SendState, key: Option<SendKey>, nowEpoch: nat, outcome: TxnOutcome) {
    if KeyIsLive(db, key, nowEpoch) then outcome == Cancelled(KeyExists)
    else if SendStored(db, msg, s) then outcome == Cancelled(Duplicate)
    else outcome == Committed || (outcome.Cancelled? && outcome.decision.AliasTaken?)
  }

  /** An undisturbed enqueue: a live key, then a stored message or state refuse it; past those only its alias can be taken. */
  lemma EnqueueJudged(db: Db, e: Event, ops: seq<PlannedOp>)
    requires e.EnqueueEvent? && PlanOf(e) == Planned(ops) && Typed(db) && e.thread == ThreadAt(db, e.msg.inboxId, e.msg.threadId)
    ensures EnqueueEnds(db, e.msg, e.state, e.key, e.nowEpoch, Judged(db, ops))
  {
    EnqueueRefused(db, e, ops);
    if !KeyIsLive(db, e.key, e.nowEpoch) && !SendStored(db, e.msg, e.state) {
      EnqueueRest(db, e, ops);
      PlanShape(e);
      OnlyAliasesFail(db, ops, e.msg, KindOf(e));
    }
  }

  /** With the aliases it was told of left out, the same plan commits. */
  lemma SecondTryCommits(db: Db, ops: seq<PlannedOp>, keys: seq<Key>)
    requires Judged(db, DropTaken(ops, {})) == Cancelled(AliasTaken(keys))
    ensures Judged(db, DropTaken(ops, KeySet(keys))) == Committed
  {
    DropNothing(ops, {});
    AliasTakenCanCommitWithout(db, ops, keys);
  }

  // ---------------------------------------------------------------------
  // Claim and note
  // ---------------------------------------------------------------------

  lemma StateCasJudged(db: Db, before: SendState, after: SendState, expected: SendStatus)
    requires before.status == expected && before.messageId == after.messageId
    requires Lookup(db, StateKey(before.messageId)) == Some(StateRow(before))
    ensures Judged(db, StateCasOps(before, after, expected)) == Committed
  {
  }

  // ---------------------------------------------------------------------
  // Mark
  // ---------------------------------------------------------------------

  lemma MarkHeadHolds(db: Db, a: PlannedOp, b: PlannedOp, change: Option<ThreadChange>, tail: seq<PlannedOp>)
    requires OpHolds(db, a.op) && OpHolds(db, b.op) && RestHolds(db, tail)
    requires change.Some? ==> OpHolds(db, PutThread(change.value.after, Some(change.value.before.version)).op)
    ensures RestHolds(db, [a, b] + ThreadOps(change) + tail)
  {
    RestHoldsConcat(db, [a, b] + ThreadOps(change), tail);
  }

  lemma SesRest(db: Db, m: Message, ses: Option<SesSent>)
    ensures RestHolds(db, SesOps(m, ses))
  {
    if ses.Some? {
      var ids := SesRfcIds(ses.value);
      var first, second := AliasOps(m, ids[0], Some(m.messageId)), AliasOps(m, ids[1], Some(m.messageId));
      RestHoldsConcat(db, first, second);
      RestHoldsConcat(db, first + second,
        [PlannedOp(SesRefRole, Put(SesRefRow(ses.value.messageId, m.inboxId, m.messageId, m.expiresAt), NoCond))]);
    }
  }

  /** The rows a mark read, its send state aside, are the stored ones. */
  predicate MarkReads(db: Db, e: Event)
    requires e.MarkEvent?
  {
    && Lookup(db, MessageKey(e.msg.inboxId, e.msg.messageId)) == Some(MessageRow(e.msg))
    && (e.thread.Some? ==> && e.thread.value.inboxId == e.msg.inboxId && e.thread.value.threadId == e.msg.threadId
                           && Lookup(db, ThreadKey(e.msg.inboxId, e.msg.threadId)) == Some(ThreadRow(e.thread.value)))
  }

  lemma MarkRest(db: Db, e: Event)
    requires e.MarkEvent? && MarkReads(db, e) && VersionCheck(db, StateKey(e.state.messageId), e.state.version)
    ensures RestHolds(db, MarkPlan(e))
  {
    SesRest(db, e.msg, MarkedSes(e.outcome));
    MarkHeadHolds(db, MarkPlan(e)[0], MarkPlan(e)[1], MarkChange(e.thread, e.msg, e.outcome, e.now), SesOps(e.msg, MarkedSes(e.outcome)));
  }

  /** How a first undisturbed attempt at a mark ends. */
  ghost predicate MarkEnds(db: Db, s: SendState, outcome: TxnOutcome) {
    if VersionCheck(db, StateKey(s.messageId), s.version)
    then outcome == Committed || (outcome.Cancelled? && outcome.decision.AliasTaken?)
    else outcome == Cancelled(VersionConflict)
  }

  /** An undisturbed mark: a moved version refuses it; past that only its aliases can be taken. */
  lemma MarkJudged(db: Db, e: Event, ops: seq<PlannedOp>)
    requires e.MarkEvent? && PlanOf(e) == Planned(ops) && MarkReads(db, e)
    ensures MarkEnds(db, e.state, Judged(db, ops))
  {
    PlanShape(e);
    if VersionCheck(db, StateKey(e.state.messageId), e.state.version) {
      MarkRest(db, e);
      DropKeepsRest(db, MarkPlan(e), e.taken);
      OnlyAliasesFail(db, ops, e.msg, KindOf(e));
    } else {
      MarkRefused(db, e, ops);
    }
  }

  lemma MarkRefused(db: Db, e: Event, ops: seq<PlannedOp>)
    requires e.MarkEvent? && ops == DropTaken(MarkPlan(e), e.taken) && AllShaped(ops, e.msg, KindOf(e))
    requires !VersionCheck(db, StateKey(e.state.messageId), e.state.version)
    ensures Judged(db, ops) == Cancelled(VersionConflict)
  {
    FrontIsKept(MarkPlan(e), e.taken, 1);
    assert ops[..1][0] == MarkPlan(e)[..1][0];
    VersionDecides(db, ops, 0, e.msg, KindOf(e));
  }

  // ---------------------------------------------------------------------
  // Patch
  // ---------------------------------------------------------------------

  lemma PatchJudged(db: Db, e: Event, ops: seq<PlannedOp>)
    requires e.PatchEvent? && PlanOf(e) == Planned(ops)
    requires Lookup(db, MessageKey(e.msg.inboxId, e.msg.messageId)) == Some(MessageRow(e.msg))
    requires e.threadRead.inboxId == e.msg.inboxId && e.threadRead.threadId == e.msg.threadId
    requires Lookup(db, ThreadKey(e.msg.inboxId, e.msg.threadId)) == Some(ThreadRow(e.threadRead))
    ensures Judged(db, ops) == Committed
  {
    HeadHolds(db, ops);
  }

  // ---------------------------------------------------------------------
  // How whole calls end
  // ---------------------------------------------------------------------

  datatype InsertOutcome = Fresh | AlreadyStored

  datatype EnqueueOutcome = Enqueued | AlreadyQueued | KeyInUse

  /** An undisturbed insert, from the rows alone. */
  function InsertResult(db: Db, msg: Message, candidates: seq<string>): Result<InsertOutcome> {
    if MessageKey(msg.inboxId, msg.messageId) in db then Ok(AlreadyStored)
    else if OwnIdTaken(db, msg, candidates) then Err(Conflict)
    else Ok(Fresh)
  }

  /** Whether a message and the thread it joins stay within the label caps. */
  predicate SendFits(db: Db, msg: Message) {
    WithinLabelCaps(msg.labels, ThreadFor(msg, ThreadAt(db, msg.inboxId, msg.threadId)).labels)
  }

  /** An undisturbed enqueue, from the rows alone. */
  function EnqueueResult(db: Db, msg: Message, s: SendState, key: Option<SendKey>, nowEpoch: nat): Result<EnqueueOutcome> {
    if !SendFits(db, msg) then Err(LabelLimitError)
    else if KeyIsLive(db, key, nowEpoch) then Ok(KeyInUse)
    else if SendStored(db, msg, s) then Ok(AlreadyQueued)
    else Ok(Enqueued)
  }

  function EnqueuePlanNow(db: Db, msg: Message, s: SendState, key: Option<SendKey>, nowEpoch: nat): seq<PlannedOp> {
    EnqueuePlan(EnqueueEvent(msg, s, key, ThreadAt(db, msg.inboxId, msg.threadId), nowEpoch, {}))
  }

  lemma EnqueueFirst(db: Db, msg: Message, s: SendState, key: Option<SendKey>, nowEpoch: nat)
    requires Typed(db) && SendFits(db, msg)
    ensures EnqueueEnds(db, msg, s, key, nowEpoch, Judged(db, DropTaken(EnqueuePlanNow(db, msg, s, key, nowEpoch), KeySet([]))))
  {
    var e := EnqueueEvent(msg, s, key, ThreadAt(db, msg.inboxId, msg.threadId), nowEpoch, {});
    assert KeySet([]) == {};
    EnqueueJudged(db, e, DropTaken(EnqueuePlan(e), {}));
  }

  function MarkPlanNow(db: Db, s: SendState, outcome: MarkOutcome, now: string): seq<PlannedOp> {
    var e := EventNow(db, CallMark(s, outcome, now));
    if e.Some? then MarkPlan(e.value) else []
  }

  /** The message of a send and the thread its mark changes are stored. */
  predicate MarkCanRead(db: Db, s: SendState, outcome: MarkOutcome) {
    var mk := MessageKey(s.inboxId, s.messageId);
    && mk in db && db[mk].MessageRow?
    && (MarkMovesLabels(db[mk].msg, outcome) ==> ThreadAt(db, db[mk].msg.inboxId, db[mk].msg.threadId).Some?)
  }

  lemma ThreadAtIsTyped(db: Db, inboxId: string, threadId: string)
    requires Typed(db) && ThreadAt(db, inboxId, threadId).Some?
    ensures var t := ThreadAt(db, inboxId, threadId).value;
            t.inboxId == inboxId && t.threadId == threadId && Lookup(db, ThreadKey(inboxId, threadId)) == Some(ThreadRow(t))
  {
    assert KeyOf(db[ThreadKey(inboxId, threadId)]) == ThreadKey(inboxId, threadId);
  }

  lemma MarkNowReads(db: Db, s: SendState, outcome: MarkOutcome, now: string) returns (e: Event)
    requires Typed(db) && MarkCanRead(db, s, outcome)
    ensures e.MarkEvent? && e.state == s && MarkReads(db, e) && MarkPlanNow(db, s, outcome, now) == MarkPlan(e)
  {
    e := EventNow(db, CallMark(s, outcome, now)).value;
    assert KeyOf(db[MessageKey(s.inboxId, s.messageId)]) == MessageKey(s.inboxId, s.messageId);
    if e.thread.Some? { ThreadAtIsTyped(db, e.msg.inboxId, e.msg.threadId); }
  }

  lemma FullMarkJudged(db: Db, e: Event)
    requires e.MarkEvent? && MarkReads(db, e)
    ensures MarkEnds(db, e.state, Judged(db, DropTaken(MarkPlan(e), {})))
  {
    var full := MarkEvent(e.state, e.outcome, e.msg, e.thread, e.now, {});
    assert MarkPlan(full) == MarkPlan(e);
    MarkJudged(db, full, DropTaken(MarkPlan(e), {}));
  }

  lemma MarkFirst(db: Db, s: SendState, outcome: MarkOutcome, now: string)
    requires Typed(db) && MarkCanRead(db, s, outcome)
    ensures MarkEnds(db, s, Judged(db, DropTaken(MarkPlanNow(db, s, outcome, now), KeySet([]))))
  {
    var e := MarkNowReads(db, s, outcome, now);
    FullMarkJudged(db, e);
    assert KeySet([]) == {};
  }

  /** With the aliases it was told of left out, the second try of the same plan commits. */
  lemma RetryCommits(db: Db, ops: seq<PlannedOp>, keys: seq<Key>)
    requires Judged(db, DropTaken(ops, KeySet([]))) == Cancelled(AliasTaken(keys))
    ensures Judged(db, DropTaken(ops, KeySet([] + keys))) == Committed
  {
    assert KeySet([]) == {} && [] + keys == keys;
    SecondTryCommits(db, ops, keys);
  }

  /** An undisturbed label patch, from the rows alone. */
  function PatchResult(db: Db, inboxId: string, messageId: string, add: seq<string>, remove: seq<string>): Result<Option<seq<string>>> {
    var mk := MessageKey(inboxId, messageId);
    if mk !in db || !db[mk].MessageRow? then Ok(None)
    else
      var m := db[mk].msg;
      var patch := Patched(m.labels, add, remove);
      if patch.added == [] && patch.removed == [] then Ok(Some(patch.labels))
      else if !PatchFits(db, m, patch) then Err(LabelLimitError)
      else Ok(Some(patch.labels))
  }

  /** Whether a patched message and its thread stay within the label caps. */
  predicate PatchFits(db: Db, m: Message, patch: LabelPatch) {
    var t := ThreadAt(db, m.inboxId, m.threadId);
    t.Some? ==> WithinLabelCaps(patch.labels, Relabelled(t.value, patch.added, patch.removed, "").labels)
  }
}
