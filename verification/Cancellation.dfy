/**
  Decoding a cancelled transaction: from one reason per write to the one
  decision the write flows act on.
 */
module Cancellation {
  import opened Plan
  import opened Records
  import opened Runs
  import opened Shapes

  datatype CancellationReason =
    | NoReason
    | ConditionalCheckFailed
    | TransactionConflict
    | ThrottlingError
    | ProvisionedThroughputExceeded
    | RequestLimitExceeded
    | InternalServerError
    | ValidationError
    | ItemCollectionSizeLimitExceeded

  datatype TxnDecision =
    | KeyExists
    | Duplicate
    | Retry
    | VersionConflict
    | AliasTaken(keys: seq<Key>)
    | Permanent

  predicate IsRetryable(reason: CancellationReason) {
    || reason == TransactionConflict || reason == ThrottlingError || reason == ProvisionedThroughputExceeded
    || reason == RequestLimitExceeded || reason == InternalServerError
  }

  predicate IsNotExistsConditioned(op: WriteOp) {
    op.Put? && op.cond.NotExists?
  }

  predicate IsVersionOrStatusConditioned(op: WriteOp) {
    match op
    case Put(_, cond) => cond.NotExists? || cond.VersionEquals? || cond.All? || cond.NotExistsOrExpired?
    case Update(_, _, cond) => cond.VersionEquals? || cond.All? || cond.NotExistsOrExpired?
    case AliasFirstWriter(_, _, _, _) => false
  }

  // ---------------------------------------------------------------------
  // The decision
  // ---------------------------------------------------------------------

  predicate LosesKey(op: PlannedOp, reason: CancellationReason) {
    op.role.IdempotencyKeyRole? && reason.ConditionalCheckFailed?
  }

  predicate LosesNew(op: PlannedOp, reason: CancellationReason) {
    (op.role.MessageRole? || op.role.SendStateRole?) && reason.ConditionalCheckFailed? && IsNotExistsConditioned(op.op)
  }

  predicate LosesVersion(op: PlannedOp, reason: CancellationReason) {
    && (op.role.MessageRole? || op.role.SendStateRole? || op.role.ThreadRole?)
    && reason.ConditionalCheckFailed? && IsVersionOrStatusConditioned(op.op)
  }

  predicate LosesAlias(op: PlannedOp, reason: CancellationReason) {
    reason.ConditionalCheckFailed? && op.op.AliasFirstWriter?
  }

  /** A failed check on anything but an alias. */
  predicate LosesOther(op: PlannedOp, reason: CancellationReason) {
    reason.ConditionalCheckFailed? && !op.op.AliasFirstWriter?
  }

  /** The alias keys whose first-writer check failed, in order. */
  function TakenAliases(ops: seq<PlannedOp>, reasons: seq<CancellationReason>): (taken: seq<Key>)
    requires |ops| == |reasons|
    ensures forall k :: k in taken <==> exists i :: 0 <= i < |ops| && LosesAlias(ops[i], reasons[i]) && Target(ops[i].op) == k
  {
    if ops == [] then []
    else
      var n := |ops| - 1;
      TakenAliases(ops[..n], reasons[..n]) + if LosesAlias(ops[n], reasons[n]) then [Target(ops[n].op)] else []
  }

  /** What a cancellation means, by precedence. */
  function Decide(ops: seq<PlannedOp>, reasons: seq<CancellationReason>): TxnDecision
    requires |ops| == |reasons|
  {
    if exists i :: 0 <= i < |ops| && LosesKey(ops[i], reasons[i]) then KeyExists
    else if exists i :: 0 <= i < |ops| && LosesNew(ops[i], reasons[i]) then Duplicate
    else if exists i :: 0 <= i < |reasons| && IsRetryable(reasons[i]) then Retry
    else if exists i :: 0 <= i < |ops| && LosesVersion(ops[i], reasons[i]) then VersionConflict
    else if TakenAliases(ops, reasons) != [] && !(exists i :: 0 <= i < |ops| && LosesOther(ops[i], reasons[i]))
    then AliasTaken(TakenAliases(ops, reasons))
    else Permanent
  }

  method CollectTaken(ops: seq<PlannedOp>, reasons: seq<CancellationReason>) returns (taken: seq<Key>)
    requires |ops| == |reasons|
    ensures taken == TakenAliases(ops, reasons)
  {
    taken := [];
    for i := 0 to |ops|
      invariant taken == TakenAliases(ops[..i], reasons[..i])
    {
      assert ops[..i + 1][..i] == ops[..i] && reasons[..i + 1][..i] == reasons[..i];
      if reasons[i].ConditionalCheckFailed? && ops[i].op.AliasFirstWriter? {
        taken := taken + [Target(ops[i].op)];
      }
    }
    assert ops[..|ops|] == ops && reasons[..|ops|] == reasons;
  }

  method DecodeCancellation(ops: seq<PlannedOp>, reasons: seq<CancellationReason>) returns (decision: TxnDecision)
    requires |ops| == |reasons|
    ensures decision == Decide(ops, reasons)
  {
    for i := 0 to |ops|
      invariant forall j :: 0 <= j < i ==> !LosesKey(ops[j], reasons[j])
    {
      if LosesKey(ops[i], reasons[i]) { return KeyExists; }
    }
    for i := 0 to |ops|
      invariant forall j :: 0 <= j < i ==> !LosesNew(ops[j], reasons[j])
    {
      if LosesNew(ops[i], reasons[i]) { return Duplicate; }
    }
    for i := 0 to |reasons|
      invariant forall j :: 0 <= j < i ==> !IsRetryable(reasons[j])
    {
      if IsRetryable(reasons[i]) { return Retry; }
    }
    for i := 0 to |ops|
      invariant forall j :: 0 <= j < i ==> !LosesVersion(ops[j], reasons[j])
    {
      if LosesVersion(ops[i], reasons[i]) { return VersionConflict; }
    }
    var taken := CollectTaken(ops, reasons);
    var onlyAliases := true;
    for i := 0 to |ops|
      invariant onlyAliases <==> forall j :: 0 <= j < i ==> !LosesOther(ops[j], reasons[j])
    {
      if LosesOther(ops[i], reasons[i]) { onlyAliases := false; }
    }
    if taken != [] && onlyAliases { return AliasTaken(taken); }
    return Permanent;
  }

  function KeySet(keys: seq<Key>): set<Key> {
    set k | k in keys
  }

  /** Keeps what is not an alias write for a taken key. */
  method DropTakenAliases(ops: seq<PlannedOp>, taken: seq<Key>) returns (kept: seq<PlannedOp>)
    ensures kept == DropTaken(ops, KeySet(taken))
  {
    kept := [];
    for i := 0 to |ops|
      invariant kept == DropTaken(ops[..i], KeySet(taken))
    {
      assert ops[..i + 1][..i] == ops[..i];
      if !(ops[i].op.AliasFirstWriter? && Target(ops[i].op) in taken) {
        kept := kept + [ops[i]];
      }
    }
    assert ops[..|ops|] == ops;
  }

  // ---------------------------------------------------------------------
  // What the planners plan can be decoded
  // ---------------------------------------------------------------------

  /** A write whose failed check the decoder recognises, or one that has no check. */
  predicate Recognised(p: PlannedOp) {
    match p.role
    case IdempotencyKeyRole => p.op.Put? && p.op.cond.NotExistsOrExpired?
    case MessageRole => IsVersionOrStatusConditioned(p.op)
    case SendStateRole => IsVersionOrStatusConditioned(p.op)
    case ThreadRole => IsVersionOrStatusConditioned(p.op)
    case RfcAliasRole => p.op.AliasFirstWriter?
    case SesRefRole => p.op.Put? && p.op.cond.NoCond?
  }

  /** All recognised, and an idempotency key among them only where `keyed`. */
  ghost predicate AllRecognised(ops: seq<PlannedOp>, keyed: bool) {
    forall i :: 0 <= i < |ops| ==> Recognised(ops[i]) && (keyed || !ops[i].role.IdempotencyKeyRole?)
  }

  lemma PlansAreRecognised(e: Event)
    requires PlanOf(e).Planned?
    ensures AllRecognised(PlanOf(e).ops, e.EnqueueEvent? && e.key.Some?)
  {
    if !OnlyState(e) {
      PlanShape(e);
      ShapedAreRecognised(PlanOf(e).ops, Subject(e), KindOf(e));
    }
  }

  lemma ShapedAreRecognised(ops: seq<PlannedOp>, m: Message, kind: Kind)
    requires AllShaped(ops, m, kind)
    ensures AllRecognised(ops, kind.keyed)
  {
    forall i | 0 <= i < |ops| ensures Recognised(ops[i]) && (kind.keyed || !ops[i].role.IdempotencyKeyRole?) {
      assert Shaped(ops[i], m, kind);
    }
  }

  /** Reasons a table gives short of refusing the request itself: a check is failed only where there is one. */
  ghost predicate OrdinaryReasons(ops: seq<PlannedOp>, reasons: seq<CancellationReason>) {
    && |ops| == |reasons|
    && forall i :: 0 <= i < |ops| ==>
         || reasons[i].NoReason? || IsRetryable(reasons[i])
         || (reasons[i].ConditionalCheckFailed? && !(ops[i].op.Put? && ops[i].op.cond.NoCond?))
  }

  lemma OrdinaryIsNotPermanent(ops: seq<PlannedOp>, reasons: seq<CancellationReason>, i: nat)
    requires AllRecognised(ops, true) && OrdinaryReasons(ops, reasons)
    requires i < |ops| && !reasons[i].NoReason?
    ensures Decide(ops, reasons) != Permanent
  {
    assert Recognised(ops[i]);
    if !IsRetryable(reasons[i]) {
      if ops[i].op.AliasFirstWriter? {
        assert LosesAlias(ops[i], reasons[i]);
        assert Target(ops[i].op) in TakenAliases(ops, reasons);
        forall j | 0 <= j < |ops| && LosesOther(ops[j], reasons[j])
          ensures LosesKey(ops[j], reasons[j]) || LosesVersion(ops[j], reasons[j])
        {
          assert Recognised(ops[j]);
        }
      } else {
        assert LosesKey(ops[i], reasons[i]) || LosesVersion(ops[i], reasons[i]);
      }
    }
  }

  /** A reason every write agrees on: none. */
  ghost predicate NothingReported(reasons: seq<CancellationReason>) {
    forall i :: 0 <= i < |reasons| ==> reasons[i].NoReason?
  }

  lemma {:induction false} NothingTaken(ops: seq<PlannedOp>, reasons: seq<CancellationReason>)
    requires |ops| == |reasons| && NothingReported(reasons)
    ensures TakenAliases(ops, reasons) == []
  {
    if ops != [] {
      NothingTaken(ops[..|ops| - 1], reasons[..|ops| - 1]);
    }
  }

  lemma OnlySilenceIsPermanent(ops: seq<PlannedOp>, reasons: seq<CancellationReason>)
    requires AllRecognised(ops, true) && OrdinaryReasons(ops, reasons)
    ensures Decide(ops, reasons) == Permanent <==> NothingReported(reasons)
  {
    if i :| 0 <= i < |reasons| && !reasons[i].NoReason? {
      OrdinaryIsNotPermanent(ops, reasons, i);
    } else {
      NothingTaken(ops, reasons);
    }
  }

  /**
    For every plan the planners build, a cancellation made of failed checks
    and retryable reasons is permanent only if it has no reason at all.
   */
  lemma OrdinaryCancellationsAreNeverPermanent(e: Event, reasons: seq<CancellationReason>)
    requires PlanOf(e).Planned? && OrdinaryReasons(PlanOf(e).ops, reasons)
    ensures Decide(PlanOf(e).ops, reasons) == Permanent <==> NothingReported(reasons)
  {
    PlansAreRecognised(e);
    OnlySilenceIsPermanent(PlanOf(e).ops, reasons);
  }

  /** Only an enqueue that carries an idempotency key can be told its key exists. */
  lemma OnlyEnqueueSeesKeyExists(e: Event, reasons: seq<CancellationReason>)
    requires PlanOf(e).Planned? && |reasons| == |PlanOf(e).ops|
    requires Decide(PlanOf(e).ops, reasons) == KeyExists
    ensures e.EnqueueEvent? && e.key.Some?
  {
    PlansAreRecognised(e);
  }

  // ---------------------------------------------------------------------
  // What a decision says about the table
  // ---------------------------------------------------------------------

  /** The reasons an attempt against `db` gives. */
  function ReasonsFor(db: Db, ops: seq<PlannedOp>): (reasons: seq<CancellationReason>)
    ensures |reasons| == |ops|
    ensures forall i :: 0 <= i < |ops| ==> reasons[i] == if OpHolds(db, ops[i].op) then NoReason else ConditionalCheckFailed
  {
    seq(|ops|, i requires 0 <= i < |ops| => if OpHolds(db, ops[i].op) then NoReason else ConditionalCheckFailed)
  }

  lemma DropTakenHolds(db: Db, ops: seq<PlannedOp>, taken: seq<Key>)
    requires forall i :: 0 <= i < |ops| && !OpHolds(db, ops[i].op) ==> ops[i].op.AliasFirstWriter? && Target(ops[i].op) in taken
    ensures AllHold(db, DropTaken(ops, KeySet(taken)))
  {
    var kept := DropTaken(ops, KeySet(taken));
    forall j | 0 <= j < |kept| ensures OpHolds(db, kept[j].op) {
      var i := DropTakenSubset(ops, KeySet(taken), j);
      DropTakenDrops(ops, KeySet(taken), j);
    }
  }

  lemma {:induction false} DropTakenDrops(ops: seq<PlannedOp>, taken: set<Key>, j: nat)
    requires j < |DropTaken(ops, taken)|
    ensures !(DropTaken(ops, taken)[j].op.AliasFirstWriter? && Target(DropTaken(ops, taken)[j].op) in taken)
  {
    var init := ops[..|ops| - 1];
    if j < |DropTaken(init, taken)| {
      DropTakenDrops(init, taken, j);
    }
  }

  /**
    `AliasTaken` lists rows that are there, and with just those writes
    dropped the same transaction would commit on the same table.
   */
  lemma AliasTakenCanCommitWithout(db: Db, ops: seq<PlannedOp>, keys: seq<Key>)
    requires Decide(ops, ReasonsFor(db, ops)) == AliasTaken(keys)
    ensures forall k :: k in keys ==> k in db
    ensures AllHold(db, DropTaken(ops, KeySet(keys)))
  {
    var reasons := ReasonsFor(db, ops);
    forall i | 0 <= i < |ops| && !OpHolds(db, ops[i].op) ensures ops[i].op.AliasFirstWriter? && Target(ops[i].op) in keys {
      assert !LosesOther(ops[i], reasons[i]);
      assert LosesAlias(ops[i], reasons[i]);
    }
    DropTakenHolds(db, ops, keys);
    forall k | k in keys ensures k in db {
      var i :| 0 <= i < |ops| && LosesAlias(ops[i], reasons[i]) && Target(ops[i].op) == k;
      assert !OpHolds(db, ops[i].op);
    }
  }

  /** Where a plan writes own aliases only, the taken ones name messages. */
  lemma TakenNameMessages(db: Db, ops: seq<PlannedOp>, keys: seq<Key>, m: Message, kind: Kind)
    requires Decide(ops, ReasonsFor(db, ops)) == AliasTaken(keys) && AllShaped(ops, m, kind) && !kind.placeholders && Typed(db)
    ensures forall k :: k in keys ==> HasRealAlias(db, k)
  {
    var reasons := ReasonsFor(db, ops);
    forall k | k in keys ensures HasRealAlias(db, k) {
      var i :| 0 <= i < |ops| && LosesAlias(ops[i], reasons[i]) && Target(ops[i].op) == k;
      assert !OpHolds(db, ops[i].op) && Shaped(ops[i], m, kind);
    }
  }
}
