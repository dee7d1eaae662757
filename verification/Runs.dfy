/**
  Runs of the mail table: every interleaving of any number of writers.

  A run is the list of transactions that committed, in commit order. Each
  one carries the rows its writer had read, and those reads may come from any
  earlier moment of the run, each from a different one. What a writer was
  told about its commit plays no part here, so a commit reported as a retry
  or as an error is covered too.
 */
module Runs {
  import opened Labels
  import opened Plan
  import opened Records
  import opened Sends
  import opened Text
  import opened Threads

  datatype Event =
    | InsertEvent(msg: Message, candidates: seq<string>, found: map<string, RfcHit>, thread: Option<ThreadState>)
    | EnqueueEvent(msg: Message, state: SendState, key: Option<SendKey>, thread: Option<ThreadState>, nowEpoch: nat, taken: set<Key>)
    | ClaimEvent(before: SendState, now: string)
    | NoteEvent(claimed: SendState, now: string)
    | MarkEvent(state: SendState, outcome: MarkOutcome, msg: Message, thread: Option<ThreadState>, now: string, taken: set<Key>)
    | PatchEvent(msg: Message, add: seq<string>, remove: seq<string>, threadRead: ThreadState, now: string)

  // ---------------------------------------------------------------------
  // What an event writes
  // ---------------------------------------------------------------------

  /** The message with the thread its alias lookup resolved to. */
  function Resolved(msg: Message, candidates: seq<string>, found: map<string, RfcHit>): Message {
    var hit := FoundThread(candidates, found);
    if hit.None? then msg else msg.(threadId := hit.value)
  }

  /** The label change a mark makes, as the thread is told it. */
  function MarkAdded(msg: Message, outcome: MarkOutcome): seq<string> {
    Minus(MarkedLabels(msg.labels, outcome), msg.labels)
  }

  function MarkRemoved(msg: Message, outcome: MarkOutcome): seq<string> {
    Minus(msg.labels, MarkedLabels(msg.labels, outcome))
  }

  predicate MarkMovesLabels(msg: Message, outcome: MarkOutcome) {
    MarkAdded(msg, outcome) != [] || MarkRemoved(msg, outcome) != []
  }

  function MarkedThread(thread: ThreadState, msg: Message, outcome: MarkOutcome, now: string): ThreadState {
    Relabelled(thread, MarkAdded(msg, outcome), MarkRemoved(msg, outcome), now)
  }

  function MarkChange(thread: Option<ThreadState>, msg: Message, outcome: MarkOutcome, now: string): Option<ThreadChange> {
    if thread.None? then None else Some(ThreadChange(thread.value, MarkedThread(thread.value, msg, outcome, now)))
  }

  function PatchedThread(thread: ThreadState, msg: Message, add: seq<string>, remove: seq<string>, now: string): ThreadState {
    var patch := Patched(msg.labels, add, remove);
    Relabelled(thread, patch.added, patch.removed, now)
  }

  function Dropped(plan: PlanResult, taken: set<Key>): PlanResult {
    if plan.LabelLimit? then plan else Planned(DropTaken(plan.ops, taken))
  }

  /** The transaction the event's writer planned from what it had read. */
  function PlanOf(e: Event): PlanResult {
    match e
    case InsertEvent(msg, candidates, found, thread) =>
      var m := Resolved(msg, candidates, found);
      Planned(InsertOps(m, thread, ThreadFor(m, thread), AliasLookup(candidates, found)))
    case EnqueueEvent(msg, s, key, thread, nowEpoch, taken) =>
      Dropped(EnqueueOps(msg, s, key, thread, ThreadFor(msg, thread), nowEpoch), taken)
    case ClaimEvent(before, now) =>
      Planned(StateCasOps(before, ClaimedState(before, now), Queued))
    case NoteEvent(claimed, now) =>
      Planned(StateCasOps(claimed, CallingState(claimed, now), Sending))
    case MarkEvent(s, outcome, msg, thread, now, taken) =>
      Planned(DropTaken(
        MarkOps(s, MarkedState(s, msg, outcome, now), msg, MarkedLabels(msg.labels, outcome),
                MarkChange(thread, msg, outcome, now), MarkedSes(outcome), now),
        taken))
    case PatchEvent(msg, add, remove, before, now) =>
      PatchOps(msg, Patched(msg.labels, add, remove).labels, before, PatchedThread(before, msg, add, remove, now), now)
  }

  function Commit(db: Db, e: Event): Db {
    match PlanOf(e)
    case Planned(ops) => ApplyAll(db, ops)
    case LabelLimit => db
  }

  /** The table after the run's commits. */
  function After(events: seq<Event>): Db {
    if events == [] then map[] else Commit(After(events[..|events| - 1]), events[|events| - 1])
  }

  // ---------------------------------------------------------------------
  // Which events a run may hold
  // ---------------------------------------------------------------------

  /** At some moment of the run so far, the table held `row` (or nothing) at `k`. */
  predicate Seen(events: seq<Event>, k: Key, row: Option<Row>) {
    exists n :: 0 <= n <= |events| && Lookup(After(events[..n]), k) == row
  }

  function ThreadRowOf(thread: Option<ThreadState>): Option<Row> {
    if thread.None? then None else Some(ThreadRow(thread.value))
  }

  /** The alias row for `id` as a lookup would report it. */
  predicate AliasSeen(events: seq<Event>, inboxId: string, id: string, hit: Option<RfcHit>) {
    if hit.None? then Seen(events, AliasKey(inboxId, id), None)
    else exists n :: 0 <= n <= |events| && NamesHit(Lookup(After(events[..n]), AliasKey(inboxId, id)), hit.value)
  }

  predicate NamesHit(row: Option<Row>, hit: RfcHit) {
    row.Some? && row.value.AliasRow? && row.value.hit == hit
  }

  /** Each candidate was looked up once; ids arrive without angle brackets. */
  predicate LookupSeen(events: seq<Event>, inboxId: string, candidates: seq<string>, found: map<string, RfcHit>) {
    && (forall c :: c in found ==> c in candidates)
    && (forall c :: c in candidates ==> StripAngleBrackets(c) == c)
    && (forall c :: c in candidates ==> AliasSeen(events, inboxId, c, if c in found then Some(found[c]) else None))
  }

  /** A message about to be written for the first time. */
  predicate IsNewMessage(msg: Message) {
    msg.version == 0 && StrictlyAscending(msg.labels)
  }

  /** How long a stored idempotency key keeps answering. */
  const KEY_TTL_SECONDS: nat := 86_400

  /** The send state and key an enqueue request is built with. */
  predicate IsNewSend(msg: Message, s: SendState, key: Option<SendKey>, nowEpoch: nat) {
    && msg.sendStatus == Some(Queued)
    && s == QueuedState(msg.inboxId, msg.messageId, msg.threadId, s.envelope, s.idempotencyKeyPk, s.createdAt)
    && (key.Some? ==> && key.value.inboxId == msg.inboxId && key.value.messageId == msg.messageId
                      && key.value.threadId == msg.threadId && key.value.expiresAt == nowEpoch + KEY_TTL_SECONDS)
  }

  /** Aliases reported taken: each was seen to be another message's own. */
  predicate TakenSeen(events: seq<Event>, taken: set<Key>) {
    forall k :: k in taken ==> exists n :: 0 <= n <= |events| && HasRealAlias(After(events[..n]), k)
  }

  /** What the program establishes before it submits the event's transaction. */
  predicate Legal(events: seq<Event>, e: Event) {
    match e
    case InsertEvent(msg, candidates, found, thread) =>
      && IsNewMessage(msg) && msg.sendStatus == None
      && LookupSeen(events, msg.inboxId, candidates, found)
      && Seen(events, ThreadKey(msg.inboxId, Resolved(msg, candidates, found).threadId), ThreadRowOf(thread))
    case EnqueueEvent(msg, s, key, thread, nowEpoch, taken) =>
      && IsNewMessage(msg) && IsNewSend(msg, s, key, nowEpoch)
      && Seen(events, ThreadKey(msg.inboxId, msg.threadId), ThreadRowOf(thread))
      && TakenSeen(events, taken)
    case ClaimEvent(before, now) =>
      && before.status == Queued
      && Seen(events, StateKey(before.messageId), Some(StateRow(before)))
    case NoteEvent(claimed, now) =>
      ClaimedEarlier(events, claimed)
    case MarkEvent(s, outcome, msg, thread, now, taken) =>
      && MarksFrom(s.status, outcome)
      && Seen(events, StateKey(s.messageId), Some(StateRow(s)))
      && Seen(events, MessageKey(s.inboxId, s.messageId), Some(MessageRow(msg)))
      && (thread.Some? <==> MarkMovesLabels(msg, outcome))
      && (thread.Some? ==> Seen(events, ThreadKey(msg.inboxId, msg.threadId), ThreadRowOf(thread)))
      && TakenSeen(events, taken)
    case PatchEvent(msg, add, remove, before, now) =>
      && Seen(events, MessageKey(msg.inboxId, msg.messageId), Some(MessageRow(msg)))
      && Seen(events, ThreadKey(msg.inboxId, msg.threadId), ThreadRowOf(Some(before)))
  }

  /** `claimed` is what some committed claim of this run produced. */
  predicate ClaimedEarlier(events: seq<Event>, claimed: SendState) {
    exists i :: 0 <= i < |events| && events[i].ClaimEvent? && claimed == ClaimedState(events[i].before, events[i].now)
  }

  ghost predicate IsPrefix(a: seq<Event>, b: seq<Event>) {
    |a| <= |b| && a == b[..|a|]
  }

  /** The event's transaction may be submitted, now or at any later moment. */
  ghost predicate Ready(events: seq<Event>, e: Event) {
    forall later {:trigger Legal(later, e)} :: IsPrefix(events, later) ==> Legal(later, e)
  }

  lemma ReadyNow(events: seq<Event>, e: Event)
    requires Ready(events, e)
    ensures Legal(events, e)
  {
    assert IsPrefix(events, events);
  }

  /** The transaction was planned, and all its checks hold. */
  predicate Passes(db: Db, e: Event) {
    PlanOf(e).Planned? && AllHold(db, PlanOf(e).ops)
  }

  /** The event's transaction commits. */
  ghost predicate CanCommit(events: seq<Event>, e: Event) {
    Ready(events, e) && Passes(After(events), e)
  }

  /** A run: each event's transaction could commit after the ones before it. */
  ghost predicate ValidRun(events: seq<Event>) {
    forall n :: 0 <= n < |events| ==> CommitsAt(events, n)
  }

  ghost predicate CommitsAt(events: seq<Event>, n: nat)
    requires n < |events|
  {
    CanCommit(events[..n], events[n])
  }

  /** The steps of a run, and that every part of a run from its start is one. */
  lemma StepAt(events: seq<Event>, i: nat)
    requires ValidRun(events) && i < |events|
    ensures ValidRun(events[..i]) && CanCommit(events[..i], events[i])
    ensures After(events[..i + 1]) == Commit(After(events[..i]), events[i])
  {
    PrefixValid(events, i);
    assert CommitsAt(events, i);
    AfterStep(events, i);
  }

  lemma AfterStep(events: seq<Event>, i: nat)
    requires i < |events|
    ensures After(events[..i + 1]) == Commit(After(events[..i]), events[i])
  {
    assert events[..i + 1][..i] == events[..i];
  }

  lemma PrefixValid(events: seq<Event>, n: nat)
    requires ValidRun(events) && n <= |events|
    ensures ValidRun(events[..n])
  {
    forall m | 0 <= m < n ensures CommitsAt(events[..n], m) {
      assert CommitsAt(events, m);
      assert events[..n][..m] == events[..m];
    }
  }

  lemma SplitLast(events: seq<Event>)
    requires events != []
    ensures events == events[..|events| - 1] + [events[|events| - 1]]
  {
  }

  /** The last commit of a run that has one. */
  lemma LastStep(events: seq<Event>)
    requires ValidRun(events) && events != []
    ensures ValidRun(events[..|events| - 1]) && CanCommit(events[..|events| - 1], events[|events| - 1])
    ensures events == events[..|events| - 1] + [events[|events| - 1]]
  {
    StepAt(events, |events| - 1);
    SplitLast(events);
  }

  /** A longer run starts with the same steps. */
  lemma SameStart(events: seq<Event>, e: Event, m: nat)
    requires m < |events| && CommitsAt(events, m)
    ensures CommitsAt(events + [e], m)
  {
    assert (events + [e])[..m] == events[..m];
  }

  lemma NewEnd(events: seq<Event>, e: Event)
    requires CanCommit(events, e)
    ensures CommitsAt(events + [e], |events|) && After(events + [e]) == Commit(After(events), e)
  {
    assert (events + [e])[..|events|] == events;
  }

  /** A run one commit longer. */
  lemma Extend(events: seq<Event>, e: Event)
    requires ValidRun(events) && CanCommit(events, e)
    ensures ValidRun(events + [e]) && After(events + [e]) == Commit(After(events), e)
  {
    NewEnd(events, e);
    forall m | 0 <= m < |events + [e]| ensures CommitsAt(events + [e], m) {
      if m < |events| {
        assert CommitsAt(events, m);
        SameStart(events, e, m);
      }
    }
  }

  // ---------------------------------------------------------------------
  // The rows that matter: everything but aliases and SES references
  // ---------------------------------------------------------------------

  predicate IsCore(k: Key) {
    !k.AliasKey? && !k.SesRefKey?
  }

  ghost predicate SameCore(a: Db, b: Db) {
    forall k :: IsCore(k) ==> Lookup(a, k) == Lookup(b, k)
  }

  /** Every row sits under its own key. */
  ghost predicate Typed(db: Db) {
    forall k :: k in db ==> KeyOf(db[k]) == k
  }

  lemma {:induction false} ApplyConcat(db: Db, a: seq<PlannedOp>, b: seq<PlannedOp>)
    ensures ApplyAll(db, a + b) == ApplyAll(ApplyAll(db, a), b)
  {
    if b == [] {
      assert a + b == a;
    } else {
      assert (a + b)[..|a + b| - 1] == a + b[..|b| - 1];
      ApplyConcat(db, a, b[..|b| - 1]);
    }
  }

  lemma ApplyOne(db: Db, a: PlannedOp)
    ensures ApplyAll(db, [a]) == ApplyOp(db, a.op)
  {
    assert [a][..0] == [];
  }

  lemma ApplyTwo(db: Db, a: PlannedOp, b: PlannedOp)
    ensures ApplyAll(db, [a, b]) == ApplyOp(ApplyOp(db, a.op), b.op)
  {
    ApplyOne(db, a);
    assert [a, b][..1] == [a];
  }

  lemma ApplyThree(db: Db, a: PlannedOp, b: PlannedOp, c: PlannedOp)
    ensures ApplyAll(db, [a, b, c]) == ApplyOp(ApplyOp(ApplyOp(db, a.op), b.op), c.op)
  {
    ApplyTwo(db, a, b);
    assert [a, b, c][..2] == [a, b];
  }

  ghost predicate SideOnly(ops: seq<PlannedOp>) {
    forall i :: 0 <= i < |ops| ==> !IsCore(Target(ops[i].op))
  }

  lemma SideOnlyKeepsCore(db: Db, ops: seq<PlannedOp>)
    requires SideOnly(ops)
    ensures SameCore(ApplyAll(db, ops), db)
  {
    forall k | IsCore(k) ensures Lookup(ApplyAll(db, ops), k) == Lookup(db, k) {
      UntargetedUnchanged(db, ops, k);
    }
  }

  lemma {:induction false} PlaceholdersAreSide(msg: Message, ownId: string, candidates: seq<string>, found: map<string, RfcHit>)
    ensures SideOnly(PlaceholderOps(msg, ownId, candidates, found))
  {
    if candidates != [] {
      PlaceholdersAreSide(msg, ownId, candidates[..|candidates| - 1], found);
    }
  }

  lemma ApplyOpKeepsCore(a: Db, b: Db, op: WriteOp)
    requires SameCore(a, b)
    ensures SameCore(ApplyOp(a, op), ApplyOp(b, op)) || (op.Update? && !IsCore(op.key))
  {
    if op.Update? && IsCore(op.key) {
      assert Lookup(a, op.key) == Lookup(b, op.key);
    }
  }

  ghost predicate UpdatesCore(ops: seq<PlannedOp>) {
    forall i :: 0 <= i < |ops| && ops[i].op.Update? ==> IsCore(ops[i].op.key)
  }

  /** Dropping taken aliases changes nothing but alias rows. */
  lemma {:induction false} DropTakenKeepsCore(db: Db, ops: seq<PlannedOp>, taken: set<Key>)
    requires UpdatesCore(ops)
    ensures SameCore(ApplyAll(db, DropTaken(ops, taken)), ApplyAll(db, ops))
  {
    if ops != [] {
      var init, last := ops[..|ops| - 1], ops[|ops| - 1];
      DropTakenKeepsCore(db, init, taken);
      if last.op.AliasFirstWriter? && Target(last.op) in taken {
        assert DropTaken(ops, taken) == DropTaken(init, taken);
      } else {
        ApplyConcat(db, DropTaken(init, taken), [last]);
        ApplyOne(ApplyAll(db, DropTaken(init, taken)), last);
        ApplyOpKeepsCore(ApplyAll(db, DropTaken(init, taken)), ApplyAll(db, init), last.op);
      }
    }
  }

  /** What is left after dropping was all planned. */
  lemma {:induction false} DropTakenSubset(ops: seq<PlannedOp>, taken: set<Key>, j: nat) returns (i: nat)
    requires j < |DropTaken(ops, taken)|
    ensures i < |ops| && ops[i] == DropTaken(ops, taken)[j]
  {
    var init := ops[..|ops| - 1];
    if j < |DropTaken(init, taken)| {
      i := DropTakenSubset(init, taken, j);
    } else {
      i := |ops| - 1;
    }
  }

  lemma {:induction false} DropNothing(ops: seq<PlannedOp>, taken: set<Key>)
    requires forall i :: 0 <= i < |ops| && ops[i].op.AliasFirstWriter? ==> Target(ops[i].op) !in taken
    ensures DropTaken(ops, taken) == ops
  {
    if ops != [] {
      DropNothing(ops[..|ops| - 1], taken);
      assert ops == ops[..|ops| - 1] + [ops[|ops| - 1]];
    }
  }

  /** A write that was not dropped still had to pass its check. */
  lemma {:induction false} KeptWriteHolds(db: Db, ops: seq<PlannedOp>, taken: set<Key>, i: nat)
    requires i < |ops| && AllHold(db, DropTaken(ops, taken))
    requires ops[i].op.AliasFirstWriter? ==> Target(ops[i].op) !in taken
    ensures OpHolds(db, ops[i].op)
  {
    var init, kept := ops[..|ops| - 1], DropTaken(ops, taken);
    if i == |ops| - 1 {
      assert kept[|kept| - 1] == ops[i];
    } else {
      assert AllHold(db, DropTaken(init, taken)) by {
        forall j | 0 <= j < |DropTaken(init, taken)| ensures OpHolds(db, DropTaken(init, taken)[j].op) {
          assert kept[j] == DropTaken(init, taken)[j];
        }
      }
      KeptWriteHolds(db, init, taken, i);
    }
  }

  // ---------------------------------------------------------------------
  // The core rows one commit writes
  // ---------------------------------------------------------------------

  function KeyRows(key: Option<SendKey>): map<Key, Row> {
    if key.None? then map[] else map[SendKeyKey(key.value.keyHash) := SendKeyRow(key.value)]
  }

  function MessageAt(db: Db, k: Key, otherwise: Message): Message {
    if k in db && db[k].MessageRow? then db[k].msg else otherwise
  }

  function ThreadRows(thread: Option<ThreadChange>): map<Key, Row> {
    if thread.None? then map[]
    else map[ThreadKey(thread.value.after.inboxId, thread.value.after.threadId) := ThreadRow(thread.value.after)]
  }

  /** The rows a mark writes: send state, message and, if it changes, the thread. */
  function MarkRows(s: SendState, mk: Key, m: Message, change: Option<ThreadChange>): map<Key, Row> {
    map[StateKey(s.messageId) := StateRow(s)] + map[mk := MessageRow(m)] + ThreadRows(change)
  }

  function MarkPatch(s: SendState, msg: Message, outcome: MarkOutcome, now: string): MessagePatch {
    RelabelOp(msg, MarkedLabels(msg.labels, outcome), now, Some(MarkedState(s, msg, outcome, now).status),
                 MarkedSes(outcome)).op.patch
  }

  function LabelPatchOf(msg: Message, add: seq<string>, remove: seq<string>, now: string): MessagePatch {
    RelabelOp(msg, Patched(msg.labels, add, remove).labels, now, None, None).op.patch
  }

  /** The core rows `e` writes over `db`, from what its writer had read. */
  function Written(db: Db, e: Event): map<Key, Row> {
    match e
    case InsertEvent(msg, candidates, found, thread) =>
      var m := Resolved(msg, candidates, found);
      var t := ThreadFor(m, thread);
      map[MessageKey(m.inboxId, m.messageId) := MessageRow(StoredMessage(m, t)),
          ThreadKey(t.inboxId, t.threadId) := ThreadRow(t)]
    case EnqueueEvent(msg, s, key, thread, _, _) =>
      var t := ThreadFor(msg, thread);
      KeyRows(key) +
      map[MessageKey(msg.inboxId, msg.messageId) := MessageRow(StoredMessage(msg, t)),
          StateKey(s.messageId) := StateRow(s),
          ThreadKey(t.inboxId, t.threadId) := ThreadRow(t)]
    case ClaimEvent(before, now) =>
      map[StateKey(before.messageId) := StateRow(ClaimedState(before, now))]
    case NoteEvent(claimed, now) =>
      map[StateKey(claimed.messageId) := StateRow(CallingState(claimed, now))]
    case MarkEvent(s, outcome, msg, thread, now, _) =>
      var mk := MessageKey(msg.inboxId, msg.messageId);
      var after := MarkedState(s, msg, outcome, now);
      MarkRows(after, mk, Amended(MessageAt(db, mk, msg), MarkPatch(s, msg, outcome, now)), MarkChange(thread, msg, outcome, now))
    case PatchEvent(msg, add, remove, before, now) =>
      var mk := MessageKey(msg.inboxId, msg.messageId);
      map[mk := MessageRow(Amended(MessageAt(db, mk, msg), LabelPatchOf(msg, add, remove, now)))]
      + ThreadRows(Some(ThreadChange(before, PatchedThread(before, msg, add, remove, now))))
  }
}
