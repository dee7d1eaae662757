/**
  What the planners put into a transaction, write by write: one walk over
  every plan, from which the rest of the model takes what it needs.
 */
module Shapes {
  import opened Plan
  import opened Records
  import opened Runs
  import opened Sends
  import opened Threads

  /** Claims and notes touch the send state alone. */
  predicate OnlyState(e: Event) {
    e.ClaimEvent? || e.NoteEvent?
  }

  /** The message an event stores or updates. */
  function Subject(e: Event): Message
    requires !OnlyState(e)
  {
    match e
    case InsertEvent(msg, candidates, found, _) => Resolved(msg, candidates, found)
    case EnqueueEvent(msg, _, _, _, _, _) => msg
    case MarkEvent(_, _, msg, _, _, _) => msg
    case PatchEvent(msg, _, _, _, _) => msg
  }

  /** A mark's plan before taken aliases are dropped. */
  function MarkPlan(e: Event): seq<PlannedOp>
    requires e.MarkEvent?
  {
    MarkOps(e.state, MarkedState(e.state, e.msg, e.outcome, e.now), e.msg, MarkedLabels(e.msg.labels, e.outcome),
            MarkChange(e.thread, e.msg, e.outcome, e.now), MarkedSes(e.outcome), e.now)
  }

  /** An enqueue's plan before taken aliases are dropped. */
  function EnqueuePlan(e: Event): seq<PlannedOp>
    requires e.EnqueueEvent?
  {
    var t := ThreadFor(e.msg, e.thread);
    KeyOps(e.key, e.nowEpoch)
    + [PutMessage(StoredMessage(e.msg, t)), PutState(e.state, NotExists), PutThread(t, ThreadVersion(e.thread))]
    + AliasOps(e.msg, e.msg.rfcMessageId, Some(e.msg.messageId))
  }

  /** What an enqueue or a mark would have written had no alias been taken. */
  function WholePlan(e: Event): seq<PlannedOp>
    requires e.EnqueueEvent? || e.MarkEvent?
  {
    if e.EnqueueEvent? then EnqueuePlan(e) else MarkPlan(e)
  }

  // ---------------------------------------------------------------------
  // Shapes
  // ---------------------------------------------------------------------

  /** Whether a plan may hold an idempotency key, stores a new message, writes a send state, may leave placeholders. */
  datatype Kind = Kind(keyed: bool, creates: bool, sends: bool, placeholders: bool)

  function KindOf(e: Event): Kind {
    Kind(e.EnqueueEvent? && e.key.Some?, e.InsertEvent? || e.EnqueueEvent?, e.EnqueueEvent? || e.MarkEvent?, e.InsertEvent?)
  }

  /** An alias of `m`: its own id, or a placeholder for its thread. */
  predicate AliasFor(op: WriteOp, m: Message)
    requires op.AliasFirstWriter?
  {
    && op.inboxId == m.inboxId && op.hit.threadId == m.threadId && |op.rfcId| <= ALIAS_ID_MAX_BYTES
    && (op.hit.messageId.None? || op.hit.messageId == Some(m.messageId))
  }

  /** One write of a plan about `m`: its role decides what it writes and under which condition. */
  predicate Shaped(p: PlannedOp, m: Message, kind: Kind) {
    match p.role
    case IdempotencyKeyRole => kind.keyed && p.op.Put? && p.op.row.SendKeyRow? && p.op.cond.NotExistsOrExpired?
    case MessageRole =>
      && Target(p.op) == MessageKey(m.inboxId, m.messageId)
      && if kind.creates then p.op.Put? && p.op.cond.NotExists? else p.op.Update? && p.op.cond.VersionEquals?
    case SendStateRole =>
      && kind.sends && p.op.Put? && p.op.row.StateRow?
      && if kind.creates then p.op.cond.NotExists? else p.op.cond.VersionEquals?
    case ThreadRole => p.op.Put? && p.op.row.ThreadRow? && (p.op.cond.NotExists? || p.op.cond.VersionEquals?)
    case RfcAliasRole => p.op.AliasFirstWriter? && AliasFor(p.op, m) && (kind.placeholders || p.op.hit.messageId.Some?)
    case SesRefRole =>
      && p.op.Put? && p.op.row.SesRefRow? && p.op.cond.NoCond?
      && p.op.row.inboxId == m.inboxId && p.op.row.messageId == m.messageId
  }

  ghost predicate AllShaped(ops: seq<PlannedOp>, m: Message, kind: Kind) {
    forall i :: 0 <= i < |ops| ==> Shaped(ops[i], m, kind)
  }

  lemma ShapedConcat(a: seq<PlannedOp>, b: seq<PlannedOp>, m: Message, kind: Kind)
    requires AllShaped(a, m, kind) && AllShaped(b, m, kind)
    ensures AllShaped(a + b, m, kind)
  {
  }

  lemma DropKeepsShape(ops: seq<PlannedOp>, taken: set<Key>, m: Message, kind: Kind)
    requires AllShaped(ops, m, kind)
    ensures AllShaped(DropTaken(ops, taken), m, kind)
  {
    var kept := DropTaken(ops, taken);
    forall j | 0 <= j < |kept| ensures Shaped(kept[j], m, kind) {
      var i := DropTakenSubset(ops, taken, j);
    }
  }

  lemma OwnAliasShape(m: Message, id: string, kind: Kind)
    ensures AllShaped(AliasOps(m, id, Some(m.messageId)), m, kind)
  {
  }

  lemma {:induction false} PlaceholderShape(m: Message, ownId: string, candidates: seq<string>, found: map<string, RfcHit>, kind: Kind)
    requires kind.placeholders
    ensures AllShaped(PlaceholderOps(m, ownId, candidates, found), m, kind)
  {
    if candidates != [] {
      PlaceholderShape(m, ownId, candidates[..|candidates| - 1], found, kind);
    }
  }

  lemma SesShape(m: Message, ses: Option<SesSent>, kind: Kind)
    ensures AllShaped(SesOps(m, ses), m, kind)
  {
    if ses.Some? {
      var ids := SesRfcIds(ses.value);
      var first, second := AliasOps(m, ids[0], Some(m.messageId)), AliasOps(m, ids[1], Some(m.messageId));
      var ref := [PlannedOp(SesRefRole, Put(SesRefRow(ses.value.messageId, m.inboxId, m.messageId, m.expiresAt), NoCond))];
      OwnAliasShape(m, ids[0], kind);
      OwnAliasShape(m, ids[1], kind);
      ShapedConcat(first, second, m, kind);
      ShapedConcat(first + second, ref, m, kind);
    }
  }

  lemma InsertShape(m: Message, before: Option<ThreadState>, after: ThreadState, lookup: AliasLookup, kind: Kind)
    requires kind.creates && kind.placeholders
    ensures AllShaped(InsertOps(m, before, after, lookup), m, kind)
  {
    var ownId := StripAngleBrackets(m.rfcMessageId);
    var head := [PutMessage(StoredMessage(m, after)), PutThread(after, ThreadVersion(before))];
    var own := if ownId != "" && IsClaimable(lookup, ownId) then AliasOps(m, m.rfcMessageId, Some(m.messageId)) else [];
    OwnAliasShape(m, m.rfcMessageId, kind);
    ShapedConcat(head, own, m, kind);
    PlaceholderShape(m, ownId, lookup.candidates, lookup.found, kind);
    ShapedConcat(head + own, PlaceholderOps(m, ownId, lookup.candidates, lookup.found), m, kind);
  }

  lemma NewSendShape(key: Option<SendKey>, nowEpoch: nat, stored: Message, s: SendState, t: ThreadState, before: Option<nat>,
                     m: Message, kind: Kind)
    requires kind.creates && kind.sends && kind.keyed == key.Some?
    requires stored.inboxId == m.inboxId && stored.messageId == m.messageId
    ensures AllShaped(KeyOps(key, nowEpoch) + [PutMessage(stored), PutState(s, NotExists), PutThread(t, before)], m, kind)
  {
    ShapedConcat(KeyOps(key, nowEpoch), [PutMessage(stored), PutState(s, NotExists), PutThread(t, before)], m, kind);
  }

  lemma MarkHeadShape(a: PlannedOp, b: PlannedOp, change: Option<ThreadChange>, tail: seq<PlannedOp>, m: Message, kind: Kind)
    requires Shaped(a, m, kind) && Shaped(b, m, kind) && AllShaped(tail, m, kind)
    ensures AllShaped([a, b] + ThreadOps(change) + tail, m, kind)
  {
    ShapedConcat([a, b], ThreadOps(change), m, kind);
    ShapedConcat([a, b] + ThreadOps(change), tail, m, kind);
  }

  lemma WholePlanShape(e: Event)
    requires e.EnqueueEvent? || e.MarkEvent?
    ensures AllShaped(WholePlan(e), e.msg, KindOf(e))
  {
    if e.EnqueueEvent? {
      var t := ThreadFor(e.msg, e.thread);
      NewSendShape(e.key, e.nowEpoch, StoredMessage(e.msg, t), e.state, t, ThreadVersion(e.thread), e.msg, KindOf(e));
      OwnAliasShape(e.msg, e.msg.rfcMessageId, KindOf(e));
      ShapedConcat(KeyOps(e.key, e.nowEpoch)
                   + [PutMessage(StoredMessage(e.msg, t)), PutState(e.state, NotExists), PutThread(t, ThreadVersion(e.thread))],
                   AliasOps(e.msg, e.msg.rfcMessageId, Some(e.msg.messageId)), e.msg, KindOf(e));
    } else {
      SesShape(e.msg, MarkedSes(e.outcome), KindOf(e));
      MarkHeadShape(MarkPlan(e)[0], MarkPlan(e)[1], MarkChange(e.thread, e.msg, e.outcome, e.now),
                    SesOps(e.msg, MarkedSes(e.outcome)), e.msg, KindOf(e));
    }
  }

  /** Every write of every plan has its shape. */
  lemma PlanShape(e: Event)
    requires !OnlyState(e) && PlanOf(e).Planned?
    ensures AllShaped(PlanOf(e).ops, Subject(e), KindOf(e))
  {
    match e
    case InsertEvent(msg, candidates, found, thread) =>
      var m := Resolved(msg, candidates, found);
      InsertShape(m, thread, ThreadFor(m, thread), AliasLookup(candidates, found), KindOf(e));
    case EnqueueEvent(msg, _, _, _, _, taken) =>
      WholePlanShape(e);
      DropKeepsShape(WholePlan(e), taken, msg, KindOf(e));
    case MarkEvent(_, _, msg, _, _, taken) =>
      WholePlanShape(e);
      DropKeepsShape(WholePlan(e), taken, msg, KindOf(e));
    case PatchEvent(_, _, _, _, _) =>
  }

  // ---------------------------------------------------------------------
  // What the shapes say
  // ---------------------------------------------------------------------

  /** Alias rows are only ever written by alias writes. */
  ghost predicate AliasesByAliasWrites(ops: seq<PlannedOp>) {
    forall i :: 0 <= i < |ops| && Target(ops[i].op).AliasKey? ==> ops[i].op.AliasFirstWriter?
  }

  lemma PlansWriteAliasesProperly(e: Event)
    requires PlanOf(e).Planned?
    ensures AliasesByAliasWrites(PlanOf(e).ops)
  {
    if !OnlyState(e) {
      PlanShape(e);
      ShapedAliasWrites(PlanOf(e).ops, Subject(e), KindOf(e));
    }
  }

  lemma ShapedAliasWrites(ops: seq<PlannedOp>, m: Message, kind: Kind)
    requires AllShaped(ops, m, kind)
    ensures AliasesByAliasWrites(ops)
  {
    forall i | 0 <= i < |ops| && Target(ops[i].op).AliasKey? ensures ops[i].op.AliasFirstWriter? {
      assert Shaped(ops[i], m, kind);
    }
  }
}
