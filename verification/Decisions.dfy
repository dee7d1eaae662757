/**
  Which decisions each write flow can meet, and what they say about the rows.
 */
module Decisions {
  import opened Cancellation
  import opened Plan
  import opened Records
  import opened Runs
  import opened Shapes

  /** A failed attempt on a planned transaction is never decoded as permanent. */
  lemma AttemptIsNeverPermanent(db: Db, e: Event, ops: seq<PlannedOp>)
    requires PlanOf(e) == Planned(ops) && !AllHold(db, ops)
    ensures Decide(ops, ReasonsFor(db, ops)) != Permanent
    ensures Decide(ops, ReasonsFor(db, ops)) == KeyExists ==> e.EnqueueEvent? && e.key.Some?
  {
    var reasons := ReasonsFor(db, ops);
    var i :| 0 <= i < |ops| && !OpHolds(db, ops[i].op);
    FailedChecksAreOrdinary(db, ops);
    assert !reasons[i].NoReason?;
    OrdinaryCancellationsAreNeverPermanent(e, reasons);
    if Decide(ops, reasons) == KeyExists {
      OnlyEnqueueSeesKeyExists(e, reasons);
    }
  }

  lemma FailedChecksAreOrdinary(db: Db, ops: seq<PlannedOp>)
    ensures OrdinaryReasons(ops, ReasonsFor(db, ops))
  {
    forall i | 0 <= i < |ops| && !OpHolds(db, ops[i].op) ensures !(ops[i].op.Put? && ops[i].op.cond.NoCond?) {
    }
  }

  /** No write in the plan that a duplicate could fail. */
  ghost predicate NothingNew(ops: seq<PlannedOp>) {
    forall i :: 0 <= i < |ops| ==> (ops[i].role.MessageRole? || ops[i].role.SendStateRole?) ==> !IsNotExistsConditioned(ops[i].op)
  }

  ghost predicate NoAliases(ops: seq<PlannedOp>) {
    forall i :: 0 <= i < |ops| ==> !ops[i].op.AliasFirstWriter?
  }

  lemma NothingNewIsNoDuplicate(ops: seq<PlannedOp>, reasons: seq<CancellationReason>)
    requires |ops| == |reasons| && NothingNew(ops)
    ensures Decide(ops, reasons) != Duplicate
  {
  }

  lemma NoAliasesNoneTaken(ops: seq<PlannedOp>, reasons: seq<CancellationReason>)
    requires |ops| == |reasons| && NoAliases(ops)
    ensures !Decide(ops, reasons).AliasTaken?
  {
    NoneTaken(ops, reasons);
  }

  lemma {:induction false} NoneTaken(ops: seq<PlannedOp>, reasons: seq<CancellationReason>)
    requires |ops| == |reasons| && NoAliases(ops)
    ensures TakenAliases(ops, reasons) == []
  {
    if ops != [] {
      NoneTaken(ops[..|ops| - 1], reasons[..|ops| - 1]);
    }
  }

  lemma ShapedIsNotNew(ops: seq<PlannedOp>, m: Message, kind: Kind)
    requires AllShaped(ops, m, kind) && !kind.creates
    ensures NothingNew(ops)
  {
    forall i | 0 <= i < |ops| && (ops[i].role.MessageRole? || ops[i].role.SendStateRole?)
      ensures !IsNotExistsConditioned(ops[i].op)
    {
      assert Shaped(ops[i], m, kind);
    }
  }

  /** A mark that fails is told to retry, to look again, or to leave taken aliases out. */
  lemma MarkDecisions(db: Db, e: Event, ops: seq<PlannedOp>)
    requires e.MarkEvent? && PlanOf(e) == Planned(ops) && !AllHold(db, ops)
    ensures var d := Decide(ops, ReasonsFor(db, ops)); d == VersionConflict || d == Retry || d.AliasTaken?
  {
    AttemptIsNeverPermanent(db, e, ops);
    PlanShape(e);
    ShapedIsNotNew(ops, e.msg, KindOf(e));
    NothingNewIsNoDuplicate(ops, ReasonsFor(db, ops));
  }

  /** A label patch that fails is told to retry or to look again. */
  lemma PatchDecisions(db: Db, e: Event, ops: seq<PlannedOp>)
    requires e.PatchEvent? && PlanOf(e) == Planned(ops) && !AllHold(db, ops)
    ensures var d := Decide(ops, ReasonsFor(db, ops)); d == VersionConflict || d == Retry
  {
    AttemptIsNeverPermanent(db, e, ops);
    NothingNewIsNoDuplicate(ops, ReasonsFor(db, ops));
    NoAliasesNoneTaken(ops, ReasonsFor(db, ops));
  }

  /** An insert told it is a duplicate: its message is stored. */
  lemma InsertDuplicateIsStored(db: Db, msg: Message, before: Option<ThreadState>, after: ThreadState, lookup: AliasLookup)
    requires var ops := InsertOps(msg, before, after, lookup);
             Decide(ops, ReasonsFor(db, ops)) == Duplicate
    ensures MessageKey(msg.inboxId, msg.messageId) in db
  {
    var ops := InsertOps(msg, before, after, lookup);
    var kind := Kind(false, true, false, true);
    InsertShape(msg, before, after, lookup, kind);
    var i :| 0 <= i < |ops| && LosesNew(ops[i], ReasonsFor(db, ops)[i]);
    assert Shaped(ops[i], msg, kind);
  }

  /** What an enqueue plans, op by op, at the front of its transaction. */
  lemma EnqueueLoss(e: Event, i: nat)
    requires e.EnqueueEvent? && i < |EnqueuePlan(e)|
    ensures var p := EnqueuePlan(e)[i];
            && (p.role.IdempotencyKeyRole? ==> e.key.Some? && p.op == Put(SendKeyRow(e.key.value), NotExistsOrExpired(e.nowEpoch)))
            && (p.role.MessageRole? ==> Target(p.op) == MessageKey(e.msg.inboxId, e.msg.messageId))
            && (p.role.SendStateRole? ==> Target(p.op) == StateKey(e.state.messageId))
  {
  }

  lemma LostKeyIsLive(db: Db, key: SendKey, nowEpoch: nat)
    requires Typed(db) && !OpHolds(db, Put(SendKeyRow(key), NotExistsOrExpired(nowEpoch)))
    ensures var k := SendKeyKey(key.keyHash); k in db && db[k].SendKeyRow? && db[k].key.expiresAt >= nowEpoch
  {
    assert KeyOf(db[SendKeyKey(key.keyHash)]) == SendKeyKey(key.keyHash);
  }

  /** An enqueue told its key exists: a key row is stored that has not expired. */
  lemma KeyExistsIsStored(db: Db, e: Event, ops: seq<PlannedOp>)
    requires e.EnqueueEvent? && PlanOf(e) == Planned(ops) && Typed(db)
    requires Decide(ops, ReasonsFor(db, ops)) == KeyExists
    ensures e.key.Some?
    ensures var k := SendKeyKey(e.key.value.keyHash);
            k in db && db[k].SendKeyRow? && db[k].key.expiresAt >= e.nowEpoch
  {
    var p := LostKey(db, ops);
    var i := EnqueueWrote(e, ops, p);
    EnqueueLoss(e, i);
    LostKeyIsLive(db, e.key.value, e.nowEpoch);
  }

  lemma LostKey(db: Db, ops: seq<PlannedOp>) returns (p: PlannedOp)
    requires Decide(ops, ReasonsFor(db, ops)) == KeyExists
    ensures p in ops && p.role.IdempotencyKeyRole? && !OpHolds(db, p.op)
  {
    var j :| 0 <= j < |ops| && LosesKey(ops[j], ReasonsFor(db, ops)[j]);
    p := ops[j];
  }

  lemma EnqueueWrote(e: Event, ops: seq<PlannedOp>, p: PlannedOp) returns (i: nat)
    requires e.EnqueueEvent? && PlanOf(e) == Planned(ops) && p in ops
    ensures i < |EnqueuePlan(e)| && EnqueuePlan(e)[i] == p
  {
    var j :| 0 <= j < |ops| && ops[j] == p;
    i := DropTakenSubset(EnqueuePlan(e), e.taken, j);
  }

  /** An enqueue told it is a duplicate: its message or its send state is stored. */
  lemma EnqueueDuplicateIsStored(db: Db, e: Event, ops: seq<PlannedOp>)
    requires e.EnqueueEvent? && PlanOf(e) == Planned(ops)
    requires Decide(ops, ReasonsFor(db, ops)) == Duplicate
    ensures MessageKey(e.msg.inboxId, e.msg.messageId) in db || StateKey(e.state.messageId) in db
  {
    var j :| 0 <= j < |ops| && LosesNew(ops[j], ReasonsFor(db, ops)[j]);
    var i := EnqueueWrote(e, ops, ops[j]);
    EnqueueLoss(e, i);
    assert !OpHolds(db, ops[j].op);
  }

  /** The aliases an enqueue or a mark is told are taken name messages. */
  lemma TakenAreReal(db: Db, e: Event, ops: seq<PlannedOp>, keys: seq<Key>)
    requires (e.EnqueueEvent? || e.MarkEvent?) && PlanOf(e) == Planned(ops) && Typed(db)
    requires Decide(ops, ReasonsFor(db, ops)) == AliasTaken(keys)
    ensures forall k :: k in keys ==> HasRealAlias(db, k)
  {
    PlanShape(e);
    TakenNameMessages(db, ops, keys, e.msg, KindOf(e));
  }
}
