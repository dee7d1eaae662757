/**
  Calls and their commits: what a caller asked for, and why asking again
  after an unclear answer is safe.
 */
module Calls {
  import opened Linear
  import opened Plan
  import opened Records
  import opened Runs
  import opened Sends

  /** One call of the mailbox, as its caller made it. */
  datatype Call =
    | CallInsert(msg: Message, candidates: seq<string>)
    | CallEnqueue(msg: Message, state: SendState, key: Option<SendKey>, nowEpoch: nat)
    | CallClaim(messageId: string, now: string)
    | CallNote(claimed: SendState, now: string)
    | CallMark(state: SendState, outcome: MarkOutcome, now: string)
    | CallPatch(inboxId: string, messageId: string, add: seq<string>, remove: seq<string>, now: string)

  /** The call a committed transaction belongs to. */
  function CallOf(e: Event): Call {
    match e
    case InsertEvent(msg, candidates, _, _) => CallInsert(msg, candidates)
    case EnqueueEvent(msg, s, key, _, nowEpoch, _) => CallEnqueue(msg, s, key, nowEpoch)
    case ClaimEvent(before, now) => CallClaim(before.messageId, now)
    case NoteEvent(claimed, now) => CallNote(claimed, now)
    case MarkEvent(s, outcome, _, _, now, _) => CallMark(s, outcome, now)
    case PatchEvent(msg, add, remove, _, now) => CallPatch(msg.inboxId, msg.messageId, add, remove, now)
  }

  // ---------------------------------------------------------------------
  // A call that guards on what it was given commits once
  // ---------------------------------------------------------------------

  /** Adding a message or moving a given send state: the call names the row it replaces. */
  predicate NamesItsRow(call: Call) {
    !call.CallClaim? && !call.CallPatch?
  }

  /** The row every commit of the call writes, and the version it leaves there. */
  function RowOf(call: Call): (Key, nat)
    requires NamesItsRow(call)
  {
    match call
    case CallInsert(msg, _) => (MessageKey(msg.inboxId, msg.messageId), msg.version)
    case CallEnqueue(msg, _, _, _) => (MessageKey(msg.inboxId, msg.messageId), msg.version)
    case CallNote(claimed, _) => (StateKey(claimed.messageId), claimed.version + 1)
    case CallMark(s, _, _) => (StateKey(s.messageId), s.version + 1)
  }

  lemma CommitWritesRow(db: Db, e: Event)
    requires NamesItsRow(CallOf(e))
    ensures var (k, version) := RowOf(CallOf(e));
            IsCore(k) && k in Written(db, e) && VersionOf(Written(db, e)[k]) == Some(version)
  {
    match e
    case InsertEvent(_, _, _, _) =>
    case EnqueueEvent(_, _, _, _, _, _) =>
    case NoteEvent(_, _) =>
    case MarkEvent(_, _, _, _, _, _) =>
  }

  /**
    However often it is retried, a call that adds a message or moves a send
    state it was given commits at most once.
   */
  lemma CallCommitsOnce(events: seq<Event>, i: nat, j: nat)
    requires ValidRun(events) && i < |events| && j < |events|
    requires CallOf(events[i]) == CallOf(events[j]) && NamesItsRow(CallOf(events[i]))
    ensures i == j
  {
    var (k, version) := RowOf(CallOf(events[i]));
    CommitWritesRow(After(events[..i]), events[i]);
    CommitWritesRow(After(events[..j]), events[j]);
    OneWriterPerVersion(events, i, j, k, version);
  }

  // ---------------------------------------------------------------------
  // What was seen stays seen
  // ---------------------------------------------------------------------

  lemma PrefixTransitive(a: seq<Event>, b: seq<Event>, c: seq<Event>)
    requires IsPrefix(a, b) && IsPrefix(b, c)
    ensures IsPrefix(a, c)
  {
    assert b[..|a|] == c[..|a|];
  }

  lemma SeenGrows(a: seq<Event>, b: seq<Event>, k: Key, row: Option<Row>)
    requires IsPrefix(a, b) && Seen(a, k, row)
    ensures Seen(b, k, row)
  {
    var n :| 0 <= n <= |a| && Lookup(After(a[..n]), k) == row;
    assert a[..n] == b[..n];
  }

  lemma AliasSeenGrows(a: seq<Event>, b: seq<Event>, inboxId: string, id: string, hit: Option<RfcHit>)
    requires IsPrefix(a, b) && AliasSeen(a, inboxId, id, hit)
    ensures AliasSeen(b, inboxId, id, hit)
  {
    if hit.None? {
      SeenGrows(a, b, AliasKey(inboxId, id), None);
    } else {
      var n :| 0 <= n <= |a| && NamesHit(Lookup(After(a[..n]), AliasKey(inboxId, id)), hit.value);
      assert a[..n] == b[..n];
    }
  }

  lemma LookupSeenGrows(a: seq<Event>, b: seq<Event>, inboxId: string, candidates: seq<string>, found: map<string, RfcHit>)
    requires IsPrefix(a, b) && LookupSeen(a, inboxId, candidates, found)
    ensures LookupSeen(b, inboxId, candidates, found)
  {
    forall c | c in candidates ensures AliasSeen(b, inboxId, c, if c in found then Some(found[c]) else None) {
      AliasSeenGrows(a, b, inboxId, c, if c in found then Some(found[c]) else None);
    }
  }

  lemma TakenSeenGrows(a: seq<Event>, b: seq<Event>, taken: set<Key>)
    requires IsPrefix(a, b) && TakenSeen(a, taken)
    ensures TakenSeen(b, taken)
  {
    forall k | k in taken ensures exists n :: 0 <= n <= |b| && HasRealAlias(After(b[..n]), k) {
      var n :| 0 <= n <= |a| && HasRealAlias(After(a[..n]), k);
      assert a[..n] == b[..n];
    }
  }

  lemma ClaimedEarlierGrows(a: seq<Event>, b: seq<Event>, claimed: SendState)
    requires IsPrefix(a, b) && ClaimedEarlier(a, claimed)
    ensures ClaimedEarlier(b, claimed)
  {
    var i :| 0 <= i < |a| && a[i].ClaimEvent? && claimed == ClaimedState(a[i].before, a[i].now);
    assert a[i] == b[i];
  }

  lemma MarkLegalGrows(a: seq<Event>, b: seq<Event>, e: Event)
    requires IsPrefix(a, b) && Legal(a, e) && e.MarkEvent?
    ensures Legal(b, e)
  {
    SeenGrows(a, b, StateKey(e.state.messageId), Some(StateRow(e.state)));
    SeenGrows(a, b, MessageKey(e.state.inboxId, e.state.messageId), Some(MessageRow(e.msg)));
    if e.thread.Some? {
      SeenGrows(a, b, ThreadKey(e.msg.inboxId, e.msg.threadId), ThreadRowOf(e.thread));
    }
    TakenSeenGrows(a, b, e.taken);
  }

  /** A transaction that could be submitted can still be submitted after others have committed. */
  lemma LegalGrows(a: seq<Event>, b: seq<Event>, e: Event)
    requires IsPrefix(a, b) && Legal(a, e)
    ensures Legal(b, e)
  {
    match e
    case InsertEvent(msg, candidates, found, thread) =>
      LookupSeenGrows(a, b, msg.inboxId, candidates, found);
      SeenGrows(a, b, ThreadKey(msg.inboxId, Resolved(msg, candidates, found).threadId), ThreadRowOf(thread));
    case EnqueueEvent(msg, _, _, thread, _, taken) =>
      SeenGrows(a, b, ThreadKey(msg.inboxId, msg.threadId), ThreadRowOf(thread));
      TakenSeenGrows(a, b, taken);
    case ClaimEvent(before, _) =>
      SeenGrows(a, b, StateKey(before.messageId), Some(StateRow(before)));
    case NoteEvent(claimed, _) =>
      ClaimedEarlierGrows(a, b, claimed);
    case MarkEvent(_, _, _, _, _, _) => MarkLegalGrows(a, b, e);
    case PatchEvent(msg, _, _, t, _) =>
      SeenGrows(a, b, MessageKey(msg.inboxId, msg.messageId), Some(MessageRow(msg)));
      SeenGrows(a, b, ThreadKey(msg.inboxId, msg.threadId), ThreadRowOf(Some(t)));
  }

  lemma LegalIsReady(events: seq<Event>, e: Event)
    requires Legal(events, e)
    ensures Ready(events, e)
  {
    forall later | IsPrefix(events, later) ensures Legal(later, e) {
      LegalGrows(events, later, e);
    }
  }

  lemma ReadyGrows(a: seq<Event>, b: seq<Event>, e: Event)
    requires IsPrefix(a, b) && Ready(a, e)
    ensures Ready(b, e)
  {
    forall later | IsPrefix(b, later) ensures Legal(later, e) {
      PrefixTransitive(a, b, later);
    }
  }

  /** `ops` is what the event's writer planned. */
  ghost predicate Plans(e: Event, ops: seq<PlannedOp>) {
    forall x {:trigger PlanOf(x)} :: x == e ==> PlanOf(x) == Planned(ops)
  }

  lemma ReadyCommits(events: seq<Event>, e: Event, ops: seq<PlannedOp>)
    requires Ready(events, e) && Plans(e, ops) && AllHold(After(events), ops)
    requires ValidRun(events)
    ensures ValidRun(events + [e]) && After(events + [e]) == ApplyAll(After(events), ops)
  {
    Extend(events, e);
  }

  /** Aliases known to be taken, now and from here on. */
  ghost predicate StayTaken(events: seq<Event>, taken: set<Key>) {
    forall later {:trigger TakenSeen(later, taken)} :: IsPrefix(events, later) ==> TakenSeen(later, taken)
  }

  lemma TakenStay(events: seq<Event>, taken: set<Key>)
    requires TakenSeen(events, taken)
    ensures StayTaken(events, taken)
  {
    forall later | IsPrefix(events, later) ensures TakenSeen(later, taken) {
      TakenSeenGrows(events, later, taken);
    }
  }

  lemma StayTakenGrows(a: seq<Event>, b: seq<Event>, taken: set<Key>)
    requires IsPrefix(a, b) && StayTaken(a, taken)
    ensures StayTaken(b, taken)
  {
    forall later | IsPrefix(b, later) ensures TakenSeen(later, taken) {
      PrefixTransitive(a, b, later);
    }
  }

  /** A lookup's findings, now and from here on. */
  ghost predicate StaysFound(events: seq<Event>, inboxId: string, ids: seq<string>, found: map<string, RfcHit>) {
    forall later {:trigger LookupSeen(later, inboxId, ids, found)} :: IsPrefix(events, later) ==> LookupSeen(later, inboxId, ids, found)
  }

  lemma FoundStays(events: seq<Event>, inboxId: string, ids: seq<string>, found: map<string, RfcHit>)
    requires LookupSeen(events, inboxId, ids, found)
    ensures StaysFound(events, inboxId, ids, found)
  {
    forall later | IsPrefix(events, later) ensures LookupSeen(later, inboxId, ids, found) {
      LookupSeenGrows(events, later, inboxId, ids, found);
    }
  }

  /** A row seen stays seen: wherever it is, it was there. */
  ghost predicate StaysSeen(events: seq<Event>, k: Key, row: Option<Row>) {
    forall later {:trigger Seen(later, k, row)} :: IsPrefix(events, later) ==> Seen(later, k, row)
  }

  lemma SeenStays(events: seq<Event>, k: Key, row: Option<Row>)
    requires Seen(events, k, row)
    ensures StaysSeen(events, k, row)
  {
    forall later | IsPrefix(events, later) ensures Seen(later, k, row) {
      SeenGrows(events, later, k, row);
    }
  }

  lemma StaysSeenGrows(a: seq<Event>, b: seq<Event>, k: Key, row: Option<Row>)
    requires IsPrefix(a, b) && StaysSeen(a, k, row)
    ensures StaysSeen(b, k, row)
  {
    forall later | IsPrefix(b, later) ensures Seen(later, k, row) {
      PrefixTransitive(a, b, later);
    }
  }
}
