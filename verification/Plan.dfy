/**
  The transactional write model: keys and rows of the mail table, the writes
  a transaction is made of, and the planners that build each transaction.
 */
module Plan {
  import opened Records
  import opened Threads

  // ---------------------------------------------------------------------
  // Keys and rows
  // ---------------------------------------------------------------------

  datatype Key =
    | MessageKey(inboxId: string, messageId: string)
    | ThreadKey(inboxId: string, threadId: string)
    | StateKey(messageId: string)
    | AliasKey(inboxId: string, rfcId: string)
    | SesRefKey(sesMessageId: string)
    | SendKeyKey(keyHash: string)

  datatype Row =
    | MessageRow(msg: Message)
    | ThreadRow(thread: ThreadState)
    | StateRow(state: SendState)
    | AliasRow(inboxId: string, rfcId: string, hit: RfcHit, expiresAt: nat)
    | SesRefRow(sesMessageId: string, inboxId: string, messageId: string, expiresAt: nat)
    | SendKeyRow(key: SendKey)

  type Db = map<Key, Row>

  function KeyOf(row: Row): Key {
    match row
    case MessageRow(m) => MessageKey(m.inboxId, m.messageId)
    case ThreadRow(t) => ThreadKey(t.inboxId, t.threadId)
    case StateRow(s) => StateKey(s.messageId)
    case AliasRow(inboxId, rfcId, _, _) => AliasKey(inboxId, rfcId)
    case SesRefRow(id, _, _, _) => SesRefKey(id)
    case SendKeyRow(k) => SendKeyKey(k.keyHash)
  }

  function Lookup(db: Db, k: Key): Option<Row> {
    if k in db then Some(db[k]) else None
  }

  /** The row's `version` attribute, where it has one. */
  function VersionOf(row: Row): Option<nat> {
    match row
    case MessageRow(m) => Some(m.version)
    case ThreadRow(t) => Some(t.version)
    case StateRow(s) => Some(s.version)
    case AliasRow(_, _, _, _) => None
    case SesRefRow(_, _, _, _) => None
    case SendKeyRow(_) => None
  }

  /** The row's `send_status` attribute, where it has one. */
  function StatusOf(row: Row): Option<SendStatus> {
    match row
    case MessageRow(m) => m.sendStatus
    case StateRow(s) => Some(s.status)
    case _ => None
  }

  /** The row's `expires_at` attribute, where it has one. */
  function ExpiryOf(row: Row): Option<nat> {
    match row
    case MessageRow(m) => Some(m.expiresAt)
    case ThreadRow(t) => Some(t.expiresAt)
    case StateRow(s) => s.expiresAt
    case AliasRow(_, _, _, e) => Some(e)
    case SesRefRow(_, _, _, e) => Some(e)
    case SendKeyRow(k) => Some(k.expiresAt)
  }

  // ---------------------------------------------------------------------
  // Writes
  // ---------------------------------------------------------------------

  datatype OpRole = IdempotencyKeyRole | MessageRole | SendStateRole | ThreadRole | RfcAliasRole | SesRefRole

  datatype Check = StatusIs(status: SendStatus) | VersionIs(version: nat)

  datatype Cond =
    | NoCond
    | NotExists
    | VersionEquals(version: nat)
    | NotExistsOrExpired(nowEpoch: nat)
    | All(checks: seq<Check>)

  /** The attributes an in-place message update sets; `None` leaves one alone. */
  datatype MessagePatch = MessagePatch(
    version: nat,
    updatedAt: string,
    labels: seq<string>,
    sendStatus: Option<SendStatus>,
    sesMessageId: Option<string>,
    sentAt: Option<string>)

  datatype WriteOp =
    | Put(row: Row, cond: Cond)
    | Update(key: Key, patch: MessagePatch, cond: Cond)
    | AliasFirstWriter(inboxId: string, rfcId: string, hit: RfcHit, expiresAt: nat)

  datatype PlannedOp = PlannedOp(role: OpRole, op: WriteOp)

  function Target(op: WriteOp): Key {
    match op
    case Put(row, _) => KeyOf(row)
    case Update(key, _, _) => key
    case AliasFirstWriter(inboxId, rfcId, _, _) => AliasKey(inboxId, rfcId)
  }

  function Amended(m: Message, p: MessagePatch): Message {
    m.(version := p.version,
       updatedAt := p.updatedAt,
       labels := p.labels,
       sendStatus := if p.sendStatus.Some? then p.sendStatus else m.sendStatus,
       sesMessageId := if p.sesMessageId.Some? then p.sesMessageId else m.sesMessageId,
       sentAt := if p.sentAt.Some? then p.sentAt else m.sentAt)
  }

  // ---------------------------------------------------------------------
  // Condition evaluation and application
  // ---------------------------------------------------------------------

  predicate CheckHolds(existing: Option<Row>, check: Check) {
    && existing.Some?
    && match check
       case StatusIs(status) => StatusOf(existing.value) == Some(status)
       case VersionIs(version) => VersionOf(existing.value) == Some(version)
  }

  predicate CondHolds(existing: Option<Row>, cond: Cond) {
    match cond
    case NoCond => true
    case NotExists => existing.None?
    case VersionEquals(version) => existing.Some? && VersionOf(existing.value) == Some(version)
    case NotExistsOrExpired(nowEpoch) =>
      existing.None? || (ExpiryOf(existing.value).Some? && ExpiryOf(existing.value).value < nowEpoch)
    case All(checks) => forall i :: 0 <= i < |checks| ==> CheckHolds(existing, checks[i])
  }

  /** Whether an alias row is a message's own rather than a placeholder. */
  predicate IsRealAlias(row: Row) {
    row.AliasRow? && row.hit.messageId.Some?
  }

  predicate HasRealAlias(db: Db, k: Key) {
    k in db && IsRealAlias(db[k])
  }

  predicate OpHolds(db: Db, op: WriteOp) {
    var existing := Lookup(db, Target(op));
    match op
    case Put(_, cond) => CondHolds(existing, cond)
    case Update(_, _, cond) => CondHolds(existing, cond)
    case AliasFirstWriter(_, _, hit, _) =>
      existing.None? || (hit.messageId.Some? && !IsRealAlias(existing.value))
  }

  /** Every write's condition holds, each judged against the same state. */
  predicate AllHold(db: Db, ops: seq<PlannedOp>) {
    forall i :: 0 <= i < |ops| ==> OpHolds(db, ops[i].op)
  }

  /**
    One write applied. An update of a row that is not a message cannot be
    planned: every update is conditioned on the version of the message read.
   */
  function ApplyOp(db: Db, op: WriteOp): Db {
    match op
    case Put(row, _) => db[KeyOf(row) := row]
    case Update(key, patch, _) =>
      if key in db && db[key].MessageRow? then db[key := MessageRow(Amended(db[key].msg, patch))] else db
    case AliasFirstWriter(inboxId, rfcId, hit, expiresAt) =>
      db[AliasKey(inboxId, rfcId) := AliasRow(inboxId, rfcId, hit, expiresAt)]
  }

  function ApplyAll(db: Db, ops: seq<PlannedOp>): Db {
    if ops == [] then db else ApplyOp(ApplyAll(db, ops[..|ops| - 1]), ops[|ops| - 1].op)
  }

  /** A row no write targets is left alone. */
  lemma {:induction false} UntargetedUnchanged(db: Db, ops: seq<PlannedOp>, k: Key)
    requires forall i :: 0 <= i < |ops| ==> Target(ops[i].op) != k
    ensures Lookup(ApplyAll(db, ops), k) == Lookup(db, k)
  {
    if ops != [] {
      assert Target(ops[|ops| - 1].op) != k;
      UntargetedUnchanged(db, ops[..|ops| - 1], k);
    }
  }

  /** A row exactly one write targets ends up as that write alone leaves it. */
  lemma {:induction false} SoleWriteWins(db: Db, ops: seq<PlannedOp>, i: nat)
    requires i < |ops|
    requires forall j :: 0 <= j < |ops| && j != i ==> Target(ops[j].op) != Target(ops[i].op)
    ensures Lookup(ApplyAll(db, ops), Target(ops[i].op)) == Lookup(ApplyOp(db, ops[i].op), Target(ops[i].op))
  {
    var init := ops[..|ops| - 1];
    if i == |ops| - 1 {
      UntargetedUnchanged(db, init, Target(ops[i].op));
    } else {
      assert Target(ops[|ops| - 1].op) != Target(ops[i].op);
      SoleWriteWins(db, init, i);
    }
  }

  /** A written alias row is one of the alias writes of the transaction. */
  lemma {:induction false} AliasWriteSource(db: Db, ops: seq<PlannedOp>, k: Key) returns (i: int)
    requires k.AliasKey?
    requires forall j :: 0 <= j < |ops| && Target(ops[j].op) == k ==> ops[j].op.AliasFirstWriter?
    ensures i == -1 ==> Lookup(ApplyAll(db, ops), k) == Lookup(db, k)
    ensures i == -1 ==> forall j :: 0 <= j < |ops| ==> Target(ops[j].op) != k
    ensures i != -1 ==> && 0 <= i < |ops| && Target(ops[i].op) == k
                        && Lookup(ApplyAll(db, ops), k) ==
                           Some(AliasRow(k.inboxId, k.rfcId, ops[i].op.hit, ops[i].op.expiresAt))
  {
    if ops == [] {
      i := -1;
    } else if Target(ops[|ops| - 1].op) == k {
      i := |ops| - 1;
    } else {
      i := AliasWriteSource(db, ops[..|ops| - 1], k);
    }
  }

  // ---------------------------------------------------------------------
  // Planners
  // ---------------------------------------------------------------------

  /** Ids over this many bytes get no alias row. */
  const ALIAS_ID_MAX_BYTES: nat := 900

  const MESSAGE_USER_LABEL_CAP: nat := 20
  const THREAD_USER_LABEL_CAP: nat := 20

  datatype PlanResult = Planned(ops: seq<PlannedOp>) | LabelLimit

  /** Candidate ids in lookup order, and the alias rows found for them. */
  datatype AliasLookup = AliasLookup(candidates: seq<string>, found: map<string, RfcHit>)

  /** The thread of the first candidate that has a row. */
  function FoundThread(candidates: seq<string>, found: map<string, RfcHit>): Option<string> {
    if candidates == [] then None
    else if candidates[0] in found then Some(found[candidates[0]].threadId)
    else FoundThread(candidates[1..], found)
  }

  predicate IsClaimable(lookup: AliasLookup, id: string) {
    id !in lookup.found || lookup.found[id].messageId.None?
  }

  function AliasOps(msg: Message, rfcId: string, messageId: Option<string>): seq<PlannedOp> {
    var stripped := StripAngleBrackets(rfcId);
    if |stripped| > ALIAS_ID_MAX_BYTES then []
    else [PlannedOp(RfcAliasRole, AliasFirstWriter(msg.inboxId, stripped, RfcHit(messageId, msg.threadId), msg.expiresAt))]
  }

  /** Placeholders for the candidates that no row maps yet. */
  function PlaceholderOps(msg: Message, ownId: string, candidates: seq<string>, found: map<string, RfcHit>): seq<PlannedOp> {
    if candidates == [] then []
    else
      var init, last := candidates[..|candidates| - 1], candidates[|candidates| - 1];
      PlaceholderOps(msg, ownId, init, found) +
      if last != ownId && last !in found then AliasOps(msg, last, None) else []
  }

  /** The message as stored: an inbound one embeds its thread's snapshot. */
  function StoredMessage(msg: Message, threadAfter: ThreadState): Message {
    if msg.direction.Inbound? then msg.(snapshot := Some(Snapshot(threadAfter))) else msg
  }

  function VersionedCond(before: Option<nat>): Cond {
    if before.None? then NotExists else VersionEquals(before.value)
  }

  function ThreadVersion(before: Option<ThreadState>): Option<nat> {
    if before.None? then None else Some(before.value.version)
  }

  function PutMessage(msg: Message): PlannedOp {
    PlannedOp(MessageRole, Put(MessageRow(msg), NotExists))
  }

  function PutThread(thread: ThreadState, before: Option<nat>): PlannedOp {
    PlannedOp(ThreadRole, Put(ThreadRow(thread), VersionedCond(before)))
  }

  function PutState(s: SendState, cond: Cond): PlannedOp {
    PlannedOp(SendStateRole, Put(StateRow(s), cond))
  }

  function RelabelOp(msg: Message, labels: seq<string>, now: string, sendStatus: Option<SendStatus>,
                        ses: Option<SesSent>): PlannedOp
  {
    PlannedOp(MessageRole,
      Update(MessageKey(msg.inboxId, msg.messageId),
             MessagePatch(msg.version + 1, now, labels, sendStatus,
                          if ses.Some? then Some(ses.value.messageId) else None,
                          if ses.Some? then Some(now) else None),
             VersionEquals(msg.version)))
  }

  /** The ingest transaction. */
  function InsertOps(msg: Message, before: Option<ThreadState>, after: ThreadState, lookup: AliasLookup): seq<PlannedOp> {
    var ownId := StripAngleBrackets(msg.rfcMessageId);
    [PutMessage(StoredMessage(msg, after)), PutThread(after, ThreadVersion(before))]
    + (if ownId != "" && IsClaimable(lookup, ownId) then AliasOps(msg, msg.rfcMessageId, Some(msg.messageId)) else [])
    + PlaceholderOps(msg, ownId, lookup.candidates, lookup.found)
  }

  predicate WithinLabelCaps(messageLabels: seq<string>, threadLabels: seq<string>) {
    && UserLabelCount(messageLabels) <= MESSAGE_USER_LABEL_CAP
    && UserLabelCount(threadLabels) <= THREAD_USER_LABEL_CAP
  }

  function KeyOps(key: Option<SendKey>, nowEpoch: nat): seq<PlannedOp> {
    if key.None? then []
    else [PlannedOp(IdempotencyKeyRole, Put(SendKeyRow(key.value), NotExistsOrExpired(nowEpoch)))]
  }

  /** The enqueue transaction. */
  function EnqueueOps(msg: Message, s: SendState, key: Option<SendKey>, before: Option<ThreadState>,
                      after: ThreadState, nowEpoch: nat): PlanResult
  {
    if !WithinLabelCaps(msg.labels, after.labels) then LabelLimit
    else
      Planned(
        KeyOps(key, nowEpoch)
        + [PutMessage(StoredMessage(msg, after)), PutState(s, NotExists), PutThread(after, ThreadVersion(before))]
        + AliasOps(msg, msg.rfcMessageId, Some(msg.messageId)))
  }

  /** A claim or a note: status and version both still what was read. */
  function StateCasOps(before: SendState, after: SendState, expected: SendStatus): seq<PlannedOp> {
    [PutState(after, All([StatusIs(expected), VersionIs(before.version)]))]
  }

  /** The two `Message-ID` forms SES may write over ours. */
  function SesRfcIds(ses: SesSent): seq<string> {
    ["<" + ses.messageId + "@email.amazonses.com>", "<" + ses.messageId + "@" + ses.region + ".amazonses.com>"]
  }

  function SesOps(msg: Message, ses: Option<SesSent>): seq<PlannedOp> {
    if ses.None? then []
    else
      AliasOps(msg, SesRfcIds(ses.value)[0], Some(msg.messageId))
      + AliasOps(msg, SesRfcIds(ses.value)[1], Some(msg.messageId))
      + [PlannedOp(SesRefRole, Put(SesRefRow(ses.value.messageId, msg.inboxId, msg.messageId, msg.expiresAt), NoCond))]
  }

  /** A thread before and after a change. */
  datatype ThreadChange = ThreadChange(before: ThreadState, after: ThreadState)

  function ThreadOps(thread: Option<ThreadChange>): seq<PlannedOp> {
    if thread.None? then [] else [PutThread(thread.value.after, Some(thread.value.before.version))]
  }

  /** The end of a send: its state, the message's mirror of it, its thread, its SES ids. */
  function MarkOps(before: SendState, after: SendState, msg: Message, labels: seq<string>,
                   thread: Option<ThreadChange>, ses: Option<SesSent>, now: string): seq<PlannedOp>
  {
    [PutState(after, VersionEquals(before.version)), RelabelOp(msg, labels, now, Some(after.status), ses)]
    + ThreadOps(thread)
    + SesOps(msg, ses)
  }

  /** A label change on one message and its thread. */
  function PatchOps(msg: Message, labels: seq<string>, before: ThreadState, after: ThreadState, now: string): PlanResult {
    if !WithinLabelCaps(labels, after.labels) then LabelLimit
    else Planned([RelabelOp(msg, labels, now, None, None), PutThread(after, Some(before.version))])
  }

  /** The plan without the alias writes for rows in `taken`. */
  function DropTaken(ops: seq<PlannedOp>, taken: set<Key>): seq<PlannedOp> {
    if ops == [] then []
    else
      var init, last := ops[..|ops| - 1], ops[|ops| - 1];
      DropTaken(init, taken) + if last.op.AliasFirstWriter? && Target(last.op) in taken then [] else [last]
  }

  // ---------------------------------------------------------------------
  // The transaction builder
  // ---------------------------------------------------------------------

  /** One transaction's writes, in the order they are added. */
  class Txn {
    var ops: seq<PlannedOp>

    constructor ()
      ensures ops == []
    {
      ops := [];
    }

    method Push(role: OpRole, op: WriteOp)
      modifies this
      ensures ops == old(ops) + [PlannedOp(role, op)]
    {
      ops := ops + [PlannedOp(role, op)];
    }

    method PutAlias(msg: Message, rfcId: string, messageId: Option<string>)
      modifies this
      ensures ops == old(ops) + AliasOps(msg, rfcId, messageId)
    {
      var stripped := StripAngleBrackets(rfcId);
      if |stripped| > ALIAS_ID_MAX_BYTES {
        return;
      }
      Push(RfcAliasRole, AliasFirstWriter(msg.inboxId, stripped, RfcHit(messageId, msg.threadId), msg.expiresAt));
    }

    /** A placeholder for every candidate no row maps, the message's own id aside. */
    method PutPlaceholders(msg: Message, ownId: string, lookup: AliasLookup)
      modifies this
      ensures ops == old(ops) + PlaceholderOps(msg, ownId, lookup.candidates, lookup.found)
    {
      for i := 0 to |lookup.candidates|
        invariant ops == old(ops) + PlaceholderOps(msg, ownId, lookup.candidates[..i], lookup.found)
      {
        assert lookup.candidates[..i + 1][..i] == lookup.candidates[..i];
        var candidate := lookup.candidates[i];
        if candidate != ownId && candidate !in lookup.found {
          PutAlias(msg, candidate, None);
        }
      }
      assert lookup.candidates[..|lookup.candidates|] == lookup.candidates;
    }

    /** A message's new labels under the version that was read. */
    method UpdateMessageLabels(msg: Message, labels: seq<string>, now: string, sendStatus: Option<SendStatus>,
                               ses: Option<SesSent>)
      modifies this
      ensures ops == old(ops) + [RelabelOp(msg, labels, now, sendStatus, ses)]
    {
      var planned := RelabelOp(msg, labels, now, sendStatus, ses);
      Push(planned.role, planned.op);
    }
  }

  method PlanInsert(msg: Message, before: Option<ThreadState>, after: ThreadState, lookup: AliasLookup)
    returns (ops: seq<PlannedOp>)
    ensures ops == InsertOps(msg, before, after, lookup)
  {
    var txn := new Txn();
    txn.Push(MessageRole, Put(MessageRow(StoredMessage(msg, after)), NotExists));
    txn.Push(ThreadRole, Put(ThreadRow(after), VersionedCond(ThreadVersion(before))));
    var ownId := StripAngleBrackets(msg.rfcMessageId);
    if ownId != "" && IsClaimable(lookup, ownId) {
      txn.PutAlias(msg, msg.rfcMessageId, Some(msg.messageId));
    }
    txn.PutPlaceholders(msg, ownId, lookup);
    ops := txn.ops;
  }

  method PlanEnqueue(msg: Message, s: SendState, key: Option<SendKey>, before: Option<ThreadState>,
                     after: ThreadState, nowEpoch: nat) returns (plan: PlanResult)
    ensures plan == EnqueueOps(msg, s, key, before, after, nowEpoch)
  {
    if !WithinLabelCaps(msg.labels, after.labels) {
      return LabelLimit;
    }
    var txn := new Txn();
    if key.Some? {
      txn.Push(IdempotencyKeyRole, Put(SendKeyRow(key.value), NotExistsOrExpired(nowEpoch)));
    }
    txn.Push(MessageRole, Put(MessageRow(StoredMessage(msg, after)), NotExists));
    txn.Push(SendStateRole, Put(StateRow(s), NotExists));
    txn.Push(ThreadRole, Put(ThreadRow(after), VersionedCond(ThreadVersion(before))));
    txn.PutAlias(msg, msg.rfcMessageId, Some(msg.messageId));
    plan := Planned(txn.ops);
  }

  method PlanMark(before: SendState, after: SendState, msg: Message, labels: seq<string>,
                  thread: Option<ThreadChange>, ses: Option<SesSent>, now: string) returns (ops: seq<PlannedOp>)
    ensures ops == MarkOps(before, after, msg, labels, thread, ses, now)
  {
    var txn := new Txn();
    txn.Push(SendStateRole, Put(StateRow(after), VersionEquals(before.version)));
    txn.UpdateMessageLabels(msg, labels, now, Some(after.status), ses);
    if thread.Some? {
      txn.Push(ThreadRole, Put(ThreadRow(thread.value.after), VersionEquals(thread.value.before.version)));
    }
    if ses.Some? {
      var rfcIds := SesRfcIds(ses.value);
      ghost var head := txn.ops;
      for i := 0 to 2
        invariant i == 0 ==> txn.ops == head
        invariant i == 1 ==> txn.ops == head + AliasOps(msg, rfcIds[0], Some(msg.messageId))
        invariant i == 2 ==> txn.ops == head + AliasOps(msg, rfcIds[0], Some(msg.messageId))
                                             + AliasOps(msg, rfcIds[1], Some(msg.messageId))
      {
        txn.PutAlias(msg, rfcIds[i], Some(msg.messageId));
      }
      txn.Push(SesRefRole, Put(SesRefRow(ses.value.messageId, msg.inboxId, msg.messageId, msg.expiresAt), NoCond));
    }
    ops := txn.ops;
  }

  method PlanPatch(msg: Message, labels: seq<string>, before: ThreadState, after: ThreadState, now: string)
    returns (plan: PlanResult)
    ensures plan == PatchOps(msg, labels, before, after, now)
  {
    if !WithinLabelCaps(labels, after.labels) {
      return LabelLimit;
    }
    var txn := new Txn();
    txn.UpdateMessageLabels(msg, labels, now, None, None);
    txn.Push(ThreadRole, Put(ThreadRow(after), VersionEquals(before.version)));
    plan := Planned(txn.ops);
  }
}
