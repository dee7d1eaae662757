/**
  Idempotency keys over any run: one key queues one message per day, and
  whatever a key or a send state names is stored with it.
 */
module Idempotency {
  import opened Effects
  import opened Linear
  import opened Plan
  import opened Records
  import opened Rollups
  import opened Runs
  import opened Sending

  /** An enqueue under the idempotency key with this hash. */
  predicate Uses(e: Event, hash: string) {
    e.EnqueueEvent? && e.key.Some? && e.key.value.keyHash == hash
  }

  lemma WrittenKey(db: Db, e: Event, hash: string)
    ensures Lookup(db + Written(db, e), SendKeyKey(hash)) ==
              if Uses(e, hash) then Some(SendKeyRow(e.key.value)) else Lookup(db, SendKeyKey(hash))
  {
    match e
    case InsertEvent(_, _, _, _) =>
    case EnqueueEvent(_, _, _, _, _, _) =>
    case ClaimEvent(_, _) =>
    case NoteEvent(_, _) =>
    case MarkEvent(_, _, _, _, _, _) =>
    case PatchEvent(_, _, _, _, _) =>
  }

  /** A key row is written by the enqueues that use it, over nothing or over an expired one. */
  lemma KeyStep(events: seq<Event>, e: Event, hash: string)
    requires ValidRun(events) && CanCommit(events, e)
    ensures var k := SendKeyKey(hash);
            Lookup(Commit(After(events), e), k) ==
              if Uses(e, hash) then Some(SendKeyRow(e.key.value)) else Lookup(After(events), k)
    ensures Uses(e, hash) ==> CondHolds(Lookup(After(events), SendKeyKey(hash)), NotExistsOrExpired(e.nowEpoch))
  {
    Step(events, e);
    WrittenKey(After(events), e, hash);
    assert Lookup(Commit(After(events), e), SendKeyKey(hash))
        == Lookup(After(events) + Written(After(events), e), SendKeyKey(hash));
  }

  /** The key's row is there and does not expire before `expiry`. */
  ghost predicate KeyLasts(row: Option<Row>, expiry: nat) {
    row.Some? && row.value.SendKeyRow? && row.value.key.expiresAt >= expiry
  }

  predicate UsesUntil(e: Event, hash: string, expiry: nat) {
    Uses(e, hash) && e.key.value.expiresAt == expiry
  }

  lemma KeyLastsStep(events: seq<Event>, e: Event, hash: string, expiry: nat)
    requires ValidRun(events) && CanCommit(events, e)
    requires KeyLasts(Lookup(After(events), SendKeyKey(hash)), expiry) || UsesUntil(e, hash, expiry)
    ensures KeyLasts(Lookup(Commit(After(events), e), SendKeyKey(hash)), expiry)
  {
    KeyStep(events, e, hash);
    if Uses(e, hash) && !UsesUntil(e, hash, expiry) {
      LiveKeyBlocks(events, e, hash, expiry);
      KeyTtl(events, e);
    }
  }

  lemma KeyTtl(events: seq<Event>, e: Event)
    requires Ready(events, e) && e.EnqueueEvent? && e.key.Some?
    ensures e.key.value.expiresAt == e.nowEpoch + KEY_TTL_SECONDS
  {
    ReadyNow(events, e);
  }

  /** After an enqueue, its key's row is that enqueue's or a later one's, and it never expires earlier. */
  lemma {:induction false} KeyOutlives(events: seq<Event>, i: nat, hash: string, expiry: nat)
    requires ValidRun(events) && i < |events| && UsesUntil(events[i], hash, expiry)
    ensures KeyLasts(Lookup(After(events), SendKeyKey(hash)), expiry)
  {
    var init := events[..|events| - 1];
    LastStep(events);
    if i < |init| {
      KeyOutlives(init, i, hash, expiry);
    }
    KeyLastsStep(init, events[|events| - 1], hash, expiry);
  }

  lemma LiveKeyBlocks(events: seq<Event>, e: Event, hash: string, expiry: nat)
    requires ValidRun(events) && CanCommit(events, e) && Uses(e, hash)
    requires KeyLasts(Lookup(After(events), SendKeyKey(hash)), expiry)
    ensures e.nowEpoch > expiry
  {
    CommitChecks(After(events), e);
    LiveKey(Lookup(After(events), SendKeyKey(hash)), expiry, e.nowEpoch);
  }

  lemma LiveKey(row: Option<Row>, expiry: nat, nowEpoch: nat)
    requires KeyLasts(row, expiry) && CondHolds(row, NotExistsOrExpired(nowEpoch))
    ensures nowEpoch > expiry
  {
  }

  /** Two enqueues under one key: the later request came after the earlier key had expired, over a day later. */
  lemma KeyReusedOnlyAfterExpiry(events: seq<Event>, i: nat, j: nat, hash: string)
    requires ValidRun(events) && i < j < |events|
    requires Uses(events[i], hash) && Uses(events[j], hash)
    ensures events[j].nowEpoch > events[i].key.value.expiresAt
    ensures events[j].nowEpoch > events[i].nowEpoch + KEY_TTL_SECONDS
  {
    StepAt(events, j);
    KeyOutlives(events[..j], i, hash, events[i].key.value.expiresAt);
    LiveKeyBlocks(events[..j], events[j], hash, events[i].key.value.expiresAt);
    EnqueueKeyTtl(events, i);
  }

  lemma EnqueueKeyTtl(events: seq<Event>, i: nat)
    requires ValidRun(events) && i < |events| && events[i].EnqueueEvent? && events[i].key.Some?
    ensures events[i].key.value.expiresAt == events[i].nowEpoch + KEY_TTL_SECONDS
  {
    StepAt(events, i);
    KeyTtl(events[..i], events[i]);
  }

  /** The message a key row names is stored, in the thread the key names. */
  ghost predicate KeyNames(db: Db, row: Row) {
    && row.SendKeyRow?
    && var mk := MessageKey(row.key.inboxId, row.key.messageId);
       HasMessage(db, mk) && db[mk].msg.threadId == row.key.threadId
  }

  ghost predicate KeysNameMessages(db: Db) {
    forall hash: string :: SendKeyKey(hash) in db ==> KeyNames(db, db[SendKeyKey(hash)])
  }

  lemma NewKeyNames(events: seq<Event>, e: Event, hash: string)
    requires ValidRun(events) && CanCommit(events, e) && Uses(e, hash)
    ensures KeyNames(Commit(After(events), e), SendKeyRow(e.key.value))
  {
    ReadyNow(events, e);
    EnqueueAdds(events, e);
  }

  lemma OldKeyNames(events: seq<Event>, e: Event, row: Row)
    requires ValidRun(events) && CanCommit(events, e) && KeyNames(After(events), row)
    ensures KeyNames(Commit(After(events), e), row)
  {
    MessageStep(events, e, MessageKey(row.key.inboxId, row.key.messageId));
  }

  /** A replayed key always answers with a message that exists. */
  lemma {:induction false} KeysAlwaysNameMessages(events: seq<Event>)
    requires ValidRun(events)
    ensures KeysNameMessages(After(events))
  {
    if events != [] {
      var init, e := events[..|events| - 1], events[|events| - 1];
      LastStep(events);
      KeysAlwaysNameMessages(init);
      forall hash: string | SendKeyKey(hash) in After(events)
        ensures KeyNames(After(events), After(events)[SendKeyKey(hash)])
      {
        KeyStep(init, e, hash);
        if Uses(e, hash) {
          NewKeyNames(init, e, hash);
        } else {
          OldKeyNames(init, e, After(init)[SendKeyKey(hash)]);
        }
      }
    }
  }
}
