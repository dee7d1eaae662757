/**
  The thread roll-ups agree, in every reachable state of every run, with a
  fresh recount over the messages that name the thread.
 */
module Rollups {
  import opened Labels
  import opened Linear
  import opened Plan
  import opened Records
  import opened Runs
  import opened Sends
  import opened Text
  import opened Threads

  // ---------------------------------------------------------------------
  // The recount
  // ---------------------------------------------------------------------

  predicate HasMessage(db: Db, k: Key) {
    k in db && k.MessageKey? && db[k].MessageRow?
  }

  /** The keys of the messages that name this thread. */
  ghost function Members(db: Db, inboxId: string, threadId: string): set<Key> {
    set k | k in db && HasMessage(db, k) && k.inboxId == inboxId && db[k].msg.threadId == threadId
  }

  /** Those of `ms` that carry `name`. */
  ghost function Carriers(db: Db, ms: set<Key>, name: string): set<Key> {
    set k | k in ms && HasMessage(db, k) && name in db[k].msg.labels
  }

  function SizeAt(db: Db, k: Key): nat {
    if HasMessage(db, k) then db[k].msg.size else 0
  }

  ghost function TotalSize(db: Db, ms: set<Key>): nat {
    if ms == {} then 0 else var k :| k in ms; SizeAt(db, k) + TotalSize(db, ms - {k})
  }

  lemma {:induction false} TotalSizePick(db: Db, ms: set<Key>, k: Key)
    requires k in ms
    ensures TotalSize(db, ms) == SizeAt(db, k) + TotalSize(db, ms - {k})
  {
    var j :| j in ms && TotalSize(db, ms) == SizeAt(db, j) + TotalSize(db, ms - {j});
    if j != k {
      TotalSizePick(db, ms - {j}, k);
      TotalSizePick(db, ms - {k}, j);
      assert ms - {j} - {k} == ms - {k} - {j};
    }
  }

  lemma {:induction false} TotalSizeSame(a: Db, b: Db, ms: set<Key>)
    requires forall k :: k in ms ==> SizeAt(a, k) == SizeAt(b, k)
    ensures TotalSize(a, ms) == TotalSize(b, ms)
  {
    if ms != {} {
      var k :| k in ms;
      TotalSizePick(a, ms, k);
      TotalSizePick(b, ms, k);
      TotalSizeSame(a, b, ms - {k});
    }
  }

  /** `ts` is the latest timestamp of the messages in one direction, if any. */
  ghost predicate IsLatest(db: Db, ms: set<Key>, direction: Direction, ts: Option<string>) {
    && (forall k :: k in ms && HasMessage(db, k) && db[k].msg.direction == direction ==>
          ts.Some? && !Less(ts.value, db[k].msg.timestamp))
    && (ts.Some? ==> exists k :: k in ms && HasMessage(db, k) && db[k].msg.direction == direction
                                 && db[k].msg.timestamp == ts.value)
  }

  /** Message count, size and label counts are those of a recount. */
  ghost predicate CountsAgree(db: Db, t: ThreadState) {
    var ms := Members(db, t.inboxId, t.threadId);
    && ms != {}
    && t.messageCount == |ms|
    && t.size == TotalSize(db, ms)
    && Positive(t.labelCounts) && InSync(t.labels, t.labelCounts)
    && forall l :: Count(t.labelCounts, l) == |Carriers(db, ms, l)|
  }

  /** The TTL is the latest of the messages'. */
  ghost predicate IsLatestExpiry(db: Db, ms: set<Key>, expiresAt: nat) {
    && (forall k :: k in ms ==> HasMessage(db, k) && db[k].msg.expiresAt <= expiresAt)
    && (exists k :: k in ms && HasMessage(db, k) && db[k].msg.expiresAt == expiresAt)
  }

  /** Timestamps, preview and TTL are those of the newest messages. */
  ghost predicate MaximaAgree(db: Db, t: ThreadState) {
    var ms := Members(db, t.inboxId, t.threadId);
    var last := MessageKey(t.inboxId, t.lastMessageId);
    && last in ms && db[last].msg.timestamp == t.timestamp && db[last].msg.preview == t.preview
    && (forall k :: k in ms ==> !Less(t.timestamp, db[k].msg.timestamp))
    && IsLatest(db, ms, Inbound, t.receivedTimestamp)
    && IsLatest(db, ms, Outbound, t.sentTimestamp)
    && IsLatestExpiry(db, ms, t.expiresAt)
  }

  /** Every message is sorted into a thread that exists. */
  ghost predicate MessagesFiled(db: Db) {
    forall k :: HasMessage(db, k) ==>
      && StrictlyAscending(db[k].msg.labels)
      && ThreadKey(k.inboxId, db[k].msg.threadId) in db
  }

  ghost predicate RollupsAgree(db: Db) {
    && MessagesFiled(db)
    && forall k :: k in db && k.ThreadKey? && db[k].ThreadRow? ==>
         CountsAgree(db, db[k].thread) && MaximaAgree(db, db[k].thread)
  }

  // ---------------------------------------------------------------------
  // Threads a write does not touch
  // ---------------------------------------------------------------------

  /** The thread's messages are the same rows in both states. */
  ghost predicate SameMembers(a: Db, b: Db, inboxId: string, threadId: string) {
    && Members(a, inboxId, threadId) == Members(b, inboxId, threadId)
    && forall k :: k in Members(a, inboxId, threadId) ==> a[k] == b[k]
  }

  lemma CountsFramed(a: Db, b: Db, t: ThreadState)
    requires CountsAgree(a, t) && SameMembers(a, b, t.inboxId, t.threadId)
    ensures CountsAgree(b, t)
  {
    var ms := Members(a, t.inboxId, t.threadId);
    TotalSizeSame(a, b, ms);
    forall l ensures Carriers(a, ms, l) == Carriers(b, ms, l) {}
  }

  lemma MaximaFramed(a: Db, b: Db, t: ThreadState)
    requires MaximaAgree(a, t) && SameMembers(a, b, t.inboxId, t.threadId)
    ensures MaximaAgree(b, t)
  {
    var ms := Members(a, t.inboxId, t.threadId);
    ExpiryFramed(a, b, ms, t.expiresAt);
    LatestFramed(a, b, ms, Inbound, t.receivedTimestamp);
    LatestFramed(a, b, ms, Outbound, t.sentTimestamp);
  }

  lemma ExpiryFramed(a: Db, b: Db, ms: set<Key>, expiresAt: nat)
    requires IsLatestExpiry(a, ms, expiresAt)
    requires forall k :: k in ms ==> HasMessage(b, k) && a[k].msg.expiresAt == b[k].msg.expiresAt
    ensures IsLatestExpiry(b, ms, expiresAt)
  {
    var k :| k in ms && HasMessage(a, k) && a[k].msg.expiresAt == expiresAt;
    assert HasMessage(b, k) && b[k].msg.expiresAt == expiresAt;
  }

  lemma LatestFramed(a: Db, b: Db, ms: set<Key>, direction: Direction, ts: Option<string>)
    requires IsLatest(a, ms, direction, ts)
    requires forall k :: k in ms ==>
      && HasMessage(a, k) && HasMessage(b, k)
      && a[k].msg.direction == b[k].msg.direction && a[k].msg.timestamp == b[k].msg.timestamp
    ensures IsLatest(b, ms, direction, ts)
  {
    if ts.Some? {
      var k :| k in ms && HasMessage(a, k) && a[k].msg.direction == direction && a[k].msg.timestamp == ts.value;
      assert HasMessage(b, k) && b[k].msg.direction == direction && b[k].msg.timestamp == ts.value;
    }
  }

  // ---------------------------------------------------------------------
  // A message joins
  // ---------------------------------------------------------------------

  /** `b` is `a` with one new message, and its thread rolled forward. */
  ghost predicate AddsMessage(a: Db, b: Db, m: Message, stored: Message, before: Option<ThreadState>) {
    var mk, tk := MessageKey(m.inboxId, m.messageId), ThreadKey(m.inboxId, m.threadId);
    && mk !in a && StrictlyAscending(m.labels)
    && stored == m.(snapshot := stored.snapshot)
    && Lookup(a, tk) == ThreadRowOf(before)
    && (before.Some? ==> before.value.inboxId == m.inboxId && before.value.threadId == m.threadId)
    && Lookup(b, mk) == Some(MessageRow(stored))
    && Lookup(b, tk) == Some(ThreadRow(ThreadFor(m, before)))
    && forall k: Key :: (k.MessageKey? || k.ThreadKey?) && k != mk && k != tk ==> Lookup(b, k) == Lookup(a, k)
  }

  lemma MembersAfterAdd(a: Db, b: Db, m: Message, stored: Message, before: Option<ThreadState>)
    requires AddsMessage(a, b, m, stored, before)
    ensures Members(b, m.inboxId, m.threadId) == Members(a, m.inboxId, m.threadId) + {MessageKey(m.inboxId, m.messageId)}
    ensures MessageKey(m.inboxId, m.messageId) !in Members(a, m.inboxId, m.threadId)
    ensures forall k :: k in Members(a, m.inboxId, m.threadId) ==> k in b && b[k] == a[k]
  {
    var mk := MessageKey(m.inboxId, m.messageId);
    forall k ensures k in Members(b, m.inboxId, m.threadId) <==> k in Members(a, m.inboxId, m.threadId) || k == mk {
      assert k.MessageKey? && k != mk ==> Lookup(b, k) == Lookup(a, k);
    }
    forall k | k in Members(a, m.inboxId, m.threadId) ensures k in b && b[k] == a[k] {
      assert Lookup(b, k) == Lookup(a, k);
    }
  }

  lemma OthersAfterAdd(a: Db, b: Db, m: Message, stored: Message, before: Option<ThreadState>, inboxId: string, threadId: string)
    requires AddsMessage(a, b, m, stored, before)
    requires inboxId != m.inboxId || threadId != m.threadId
    ensures SameMembers(a, b, inboxId, threadId)
  {
    var mk := MessageKey(m.inboxId, m.messageId);
    forall k ensures k in Members(b, inboxId, threadId) <==> k in Members(a, inboxId, threadId) {
      assert k.MessageKey? && k != mk ==> Lookup(b, k) == Lookup(a, k);
    }
    forall k | k in Members(a, inboxId, threadId) ensures b[k] == a[k] {
      assert Lookup(b, k) == Lookup(a, k);
    }
  }

  /** No messages name a thread that does not exist. */
  lemma NoThreadNoMembers(db: Db, inboxId: string, threadId: string)
    requires MessagesFiled(db) && ThreadKey(inboxId, threadId) !in db
    ensures Members(db, inboxId, threadId) == {}
  {
  }

  lemma SizeAfterAdd(a: Db, b: Db, ms: set<Key>, mk: Key)
    requires mk !in ms
    requires forall k :: k in ms ==> SizeAt(a, k) == SizeAt(b, k)
    ensures TotalSize(b, ms + {mk}) == TotalSize(a, ms) + SizeAt(b, mk)
  {
    TotalSizePick(b, ms + {mk}, mk);
    assert ms + {mk} - {mk} == ms;
    TotalSizeSame(a, b, ms);
  }

  lemma CarriersAfterAdd(a: Db, b: Db, ms: set<Key>, mk: Key, name: string)
    requires mk !in ms && HasMessage(b, mk)
    requires forall k :: k in ms ==> HasMessage(a, k) && k in b && b[k] == a[k]
    ensures |Carriers(b, ms + {mk}, name)| == |Carriers(a, ms, name)| + if name in b[mk].msg.labels then 1 else 0
  {
    if name in b[mk].msg.labels {
      assert Carriers(b, ms + {mk}, name) == Carriers(a, ms, name) + {mk};
    } else {
      assert Carriers(b, ms + {mk}, name) == Carriers(a, ms, name);
    }
  }

  /** What a roll-up must start from when there is no thread yet. */
  function BeforeCounts(before: Option<ThreadState>): map<string, nat> {
    if before.None? then map[] else before.value.labelCounts
  }

  function BeforeLabels(before: Option<ThreadState>): seq<string> {
    if before.None? then [] else before.value.labels
  }

  lemma LabelsAfterAdd(before: Option<ThreadState>, m: Message)
    requires StrictlyAscending(m.labels)
    requires Positive(BeforeCounts(before)) && InSync(BeforeLabels(before), BeforeCounts(before))
    ensures var t := ThreadFor(m, before);
            && Positive(t.labelCounts) && InSync(t.labels, t.labelCounts)
            && forall l :: Count(t.labelCounts, l) == Count(BeforeCounts(before), l) + if l in m.labels then 1 else 0
  {
    AscendingHasNoDuplicates(m.labels);
    CountLabelsAddsOne(BeforeCounts(before), m.labels);
    AddLabelsAscends(BeforeLabels(before), m.labels);
  }

  lemma CountsAfterAdd(a: Db, b: Db, m: Message, stored: Message, before: Option<ThreadState>)
    requires AddsMessage(a, b, m, stored, before) && MessagesFiled(a)
    requires before.Some? ==> CountsAgree(a, before.value)
    ensures CountsAgree(b, ThreadFor(m, before))
  {
    var mk := MessageKey(m.inboxId, m.messageId);
    var t, ms := ThreadFor(m, before), Members(a, m.inboxId, m.threadId);
    MembersAfterAdd(a, b, m, stored, before);
    if before.None? {
      NoThreadNoMembers(a, m.inboxId, m.threadId);
    }
    SizeAfterAdd(a, b, ms, mk);
    LabelsAfterAdd(before, m);
    forall l ensures Count(t.labelCounts, l) == |Carriers(b, ms + {mk}, l)| {
      CarriersAfterAdd(a, b, ms, mk, l);
      if before.None? { assert Carriers(a, ms, l) == {}; }
    }
  }

  lemma LatestAfterAdd(a: Db, b: Db, ms: set<Key>, mk: Key, direction: Direction, ts: Option<string>, ts': Option<string>)
    requires IsLatest(a, ms, direction, ts) && HasMessage(b, mk)
    requires forall k :: k in ms ==> HasMessage(a, k) && k in b && b[k] == a[k]
    requires ts' == if b[mk].msg.direction == direction then Later(ts, b[mk].msg.timestamp) else ts
    ensures IsLatest(b, ms + {mk}, direction, ts')
  {
    LatestFramed(a, b, ms, direction, ts);
    forall k | k in ms + {mk} && HasMessage(b, k) && b[k].msg.direction == direction
      ensures ts'.Some? && !Less(ts'.value, b[k].msg.timestamp)
    {
      if k == mk {
        LessIrreflexive(b[mk].msg.timestamp);
        if ts.Some? && Less(b[mk].msg.timestamp, ts.value) { LessAsymmetric(b[mk].msg.timestamp, ts.value); }
      } else if ts' != ts {
        NotAboveTransitive(b[k].msg.timestamp, ts.value, b[mk].msg.timestamp);
      }
    }
  }

  /** Nothing is latest among no messages. */
  lemma LatestOfNone(db: Db, direction: Direction)
    ensures IsLatest(db, {}, direction, None)
  {
  }

  lemma NewestAfterJoin(a: Db, b: Db, ms: set<Key>, t: ThreadState, m: Message, k: Key)
    requires k in ms ==> k in a && k in b && a[k] == b[k] && a[k].MessageRow? && !Less(t.timestamp, a[k].msg.timestamp)
    requires k !in ms ==> k in b && b[k].MessageRow? && b[k].msg.timestamp == m.timestamp
    ensures !Less(Joined(t, m).timestamp, b[k].msg.timestamp)
  {
    LessIrreflexive(m.timestamp);
    if k in ms {
      if !Less(m.timestamp, t.timestamp) {
        NotAboveTransitive(b[k].msg.timestamp, t.timestamp, m.timestamp);
      }
    } else if Less(m.timestamp, t.timestamp) {
      LessAsymmetric(m.timestamp, t.timestamp);
    }
  }

  lemma ExpiryAfterAdd(a: Db, b: Db, ms: set<Key>, mk: Key, expiresAt: nat)
    requires IsLatestExpiry(a, ms, expiresAt) && HasMessage(b, mk)
    requires forall k :: k in ms ==> k in b && b[k] == a[k]
    ensures IsLatestExpiry(b, ms + {mk}, if b[mk].msg.expiresAt > expiresAt then b[mk].msg.expiresAt else expiresAt)
  {
    ExpiryFramed(a, b, ms, expiresAt);
    var k :| k in ms && HasMessage(b, k) && b[k].msg.expiresAt == expiresAt;
    assert k in ms + {mk} && mk in ms + {mk};
  }

  lemma MaximaAfterJoin(a: Db, b: Db, m: Message, stored: Message, t: ThreadState)
    requires AddsMessage(a, b, m, stored, Some(t)) && MaximaAgree(a, t)
    ensures MaximaAgree(b, Joined(t, m))
  {
    var mk := MessageKey(m.inboxId, m.messageId);
    var next, ms := Joined(t, m), Members(a, m.inboxId, m.threadId);
    MembersAfterAdd(a, b, m, stored, Some(t));
    LatestAfterAdd(a, b, ms, mk, Inbound, t.receivedTimestamp, next.receivedTimestamp);
    LatestAfterAdd(a, b, ms, mk, Outbound, t.sentTimestamp, next.sentTimestamp);
    forall k | k in ms + {mk} ensures !Less(next.timestamp, b[k].msg.timestamp) {
      NewestAfterJoin(a, b, ms, t, m, k);
    }
    ExpiryAfterAdd(a, b, ms, mk, t.expiresAt);
  }

  lemma MaximaAfterStart(a: Db, b: Db, m: Message, stored: Message)
    requires AddsMessage(a, b, m, stored, None) && MessagesFiled(a)
    ensures MaximaAgree(b, Started(m))
  {
    var mk := MessageKey(m.inboxId, m.messageId);
    var t := Started(m);
    MembersAfterAdd(a, b, m, stored, None);
    NoThreadNoMembers(a, m.inboxId, m.threadId);
    assert Members(b, m.inboxId, m.threadId) == {} + {mk};
    LatestOfNone(a, Inbound);
    LatestOfNone(a, Outbound);
    LatestAfterAdd(a, b, {}, mk, Inbound, None, t.receivedTimestamp);
    LatestAfterAdd(a, b, {}, mk, Outbound, None, t.sentTimestamp);
    LessIrreflexive(m.timestamp);
    assert b[mk].msg.expiresAt == t.expiresAt;
  }

  lemma FiledAfterAdd(a: Db, b: Db, m: Message, stored: Message, before: Option<ThreadState>)
    requires AddsMessage(a, b, m, stored, before) && MessagesFiled(a)
    ensures MessagesFiled(b)
  {
    forall k | HasMessage(b, k)
      ensures StrictlyAscending(b[k].msg.labels) && ThreadKey(k.inboxId, b[k].msg.threadId) in b
    {
      if k != MessageKey(m.inboxId, m.messageId) {
        assert Lookup(b, k) == Lookup(a, k);
        var tk := ThreadKey(k.inboxId, b[k].msg.threadId);
        assert tk != ThreadKey(m.inboxId, m.threadId) ==> Lookup(b, tk) == Lookup(a, tk);
      }
    }
  }

  lemma RollupsAfterAdd(a: Db, b: Db, m: Message, stored: Message, before: Option<ThreadState>)
    requires RollupsAgree(a) && Typed(a) && Typed(b) && AddsMessage(a, b, m, stored, before)
    ensures RollupsAgree(b)
  {
    FiledAfterAdd(a, b, m, stored, before);
    forall k | k in b && k.ThreadKey? && b[k].ThreadRow?
      ensures CountsAgree(b, b[k].thread) && MaximaAgree(b, b[k].thread)
    {
      if k == ThreadKey(m.inboxId, m.threadId) {
        CountsAfterAdd(a, b, m, stored, before);
        if before.None? { MaximaAfterStart(a, b, m, stored); } else { MaximaAfterJoin(a, b, m, stored, before.value); }
      } else {
        assert Lookup(b, k) == Lookup(a, k);
        assert KeyOf(a[k]) == k;
        OthersAfterAdd(a, b, m, stored, before, k.inboxId, k.threadId);
        CountsFramed(a, b, b[k].thread);
        MaximaFramed(a, b, b[k].thread);
      }
    }
  }

  // ---------------------------------------------------------------------
  // A message is relabelled
  // ---------------------------------------------------------------------

  /** The parts of a message no update touches. */
  ghost predicate SameFiling(a: Message, b: Message) {
    && a.inboxId == b.inboxId && a.messageId == b.messageId && a.threadId == b.threadId
    && a.direction == b.direction && a.timestamp == b.timestamp && a.preview == b.preview
    && a.size == b.size && a.expiresAt == b.expiresAt && a.snapshot == b.snapshot
  }

  /** `b` is `a` with one message relabelled, and its thread told of the change. */
  ghost predicate RelabelsMessage(a: Db, b: Db, m: Message, m': Message, added: seq<string>, removed: seq<string>,
                                  thread: Option<ThreadState>, now: string)
  {
    var mk, tk := MessageKey(m.inboxId, m.messageId), ThreadKey(m.inboxId, m.threadId);
    && Lookup(a, mk) == Some(MessageRow(m)) && Lookup(b, mk) == Some(MessageRow(m'))
    && SameFiling(m, m') && IsChange(m.labels, m'.labels, added, removed)
    && (thread.Some? ==>
          && thread.value.inboxId == m.inboxId && thread.value.threadId == m.threadId
          && Lookup(a, tk) == Some(ThreadRow(thread.value))
          && Lookup(b, tk) == Some(ThreadRow(Relabelled(thread.value, added, removed, now))))
    && (thread.None? ==> added == [] && removed == [] && Lookup(b, tk) == Lookup(a, tk))
    && forall k: Key :: (k.MessageKey? || k.ThreadKey?) && k != mk && k != tk ==> Lookup(b, k) == Lookup(a, k)
  }

  lemma MembersAfterRelabel(a: Db, b: Db, m: Message, m': Message, added: seq<string>, removed: seq<string>,
                            thread: Option<ThreadState>, now: string, inboxId: string, threadId: string)
    requires RelabelsMessage(a, b, m, m', added, removed, thread, now)
    ensures Members(b, inboxId, threadId) == Members(a, inboxId, threadId)
    ensures forall k :: k in Members(a, inboxId, threadId) && k != MessageKey(m.inboxId, m.messageId) ==> b[k] == a[k]
    ensures inboxId == m.inboxId && threadId == m.threadId ==> MessageKey(m.inboxId, m.messageId) in Members(a, inboxId, threadId)
  {
    var mk := MessageKey(m.inboxId, m.messageId);
    forall k ensures k in Members(b, inboxId, threadId) <==> k in Members(a, inboxId, threadId) {
      assert k.MessageKey? && k != mk ==> Lookup(b, k) == Lookup(a, k);
    }
    forall k | k in Members(a, inboxId, threadId) && k != mk ensures b[k] == a[k] {
      assert Lookup(b, k) == Lookup(a, k);
    }
  }

  lemma CarriersSplit(db: Db, ms: set<Key>, mk: Key, name: string)
    requires mk in ms && HasMessage(db, mk)
    ensures |Carriers(db, ms, name)| == |Carriers(db, ms - {mk}, name)| + if name in db[mk].msg.labels then 1 else 0
  {
    if name in db[mk].msg.labels {
      assert Carriers(db, ms, name) == Carriers(db, ms - {mk}, name) + {mk};
    } else {
      assert Carriers(db, ms, name) == Carriers(db, ms - {mk}, name);
    }
  }

  /** One message's change of labels moves each count by exactly its own difference. */
  lemma CarriersAfterRelabel(a: Db, b: Db, ms: set<Key>, mk: Key, name: string)
    requires mk in ms && HasMessage(a, mk) && HasMessage(b, mk)
    requires forall k :: k in ms ==> HasMessage(a, k) && HasMessage(b, k) && (k != mk ==> b[k] == a[k])
    ensures |Carriers(b, ms, name)| == |Carriers(a, ms, name)|
              + (if name in b[mk].msg.labels then 1 else 0) - (if name in a[mk].msg.labels then 1 else 0)
    ensures name in a[mk].msg.labels ==> |Carriers(a, ms, name)| >= 1
  {
    CarriersSplit(a, ms, mk, name);
    CarriersSplit(b, ms, mk, name);
    assert Carriers(a, ms - {mk}, name) == Carriers(b, ms - {mk}, name);
  }

  /** The thread's counts move by the same difference, and stay in step. */
  lemma LabelsAfterRelabel(t: ThreadState, before: seq<string>, after: seq<string>, added: seq<string>, removed: seq<string>, now: string)
    requires IsChange(before, after, added, removed)
    requires Positive(t.labelCounts) && InSync(t.labels, t.labelCounts)
    requires forall l :: l in before ==> Count(t.labelCounts, l) >= 1
    ensures var t' := Relabelled(t, added, removed, now);
            && Positive(t'.labelCounts) && InSync(t'.labels, t'.labelCounts)
            && forall l :: Count(t'.labelCounts, l) == Count(t.labelCounts, l)
                             + (if l in after then 1 else 0) - (if l in before then 1 else 0)
  {
    CountLabelsAddsOne(t.labelCounts, added);
    AddLabelsAscends(t.labels, added);
    var labels, counts := AddLabels(t.labels, added), CountLabels(t.labelCounts, added);
    ReleaseLabelsTakesOne(labels, counts, removed);
  }

  /** The thread's state after a relabelling that may not have touched it. */
  function AfterRelabel(t: ThreadState, added: seq<string>, removed: seq<string>, touched: bool, now: string): ThreadState {
    if touched then Relabelled(t, added, removed, now) else t
  }

  lemma CountsAfterRelabel(a: Db, b: Db, m: Message, m': Message, added: seq<string>, removed: seq<string>,
                           thread: Option<ThreadState>, now: string, t: ThreadState)
    requires RelabelsMessage(a, b, m, m', added, removed, thread, now) && CountsAgree(a, t)
    requires Lookup(a, ThreadKey(m.inboxId, m.threadId)) == Some(ThreadRow(t))
    requires t.inboxId == m.inboxId && t.threadId == m.threadId
    ensures CountsAgree(b, AfterRelabel(t, added, removed, thread.Some?, now))
  {
    var mk := MessageKey(m.inboxId, m.messageId);
    var ms := Members(a, m.inboxId, m.threadId);
    MembersAfterRelabel(a, b, m, m', added, removed, thread, now, m.inboxId, m.threadId);
    TotalSizeSame(a, b, ms);
    forall l ensures |Carriers(b, ms, l)| == |Carriers(a, ms, l)| + (if l in m'.labels then 1 else 0) - (if l in m.labels then 1 else 0)
             ensures l in m.labels ==> |Carriers(a, ms, l)| >= 1
    {
      CarriersAfterRelabel(a, b, ms, mk, l);
    }
    if thread.Some? {
      LabelsAfterRelabel(t, m.labels, m'.labels, added, removed, now);
    }
  }

  lemma MaximaAfterRelabel(a: Db, b: Db, m: Message, m': Message, added: seq<string>, removed: seq<string>,
                           thread: Option<ThreadState>, now: string, t: ThreadState, touched: bool)
    requires RelabelsMessage(a, b, m, m', added, removed, thread, now) && MaximaAgree(a, t)
    ensures MaximaAgree(b, AfterRelabel(t, added, removed, touched, now))
  {
    var ms := Members(a, t.inboxId, t.threadId);
    MembersAfterRelabel(a, b, m, m', added, removed, thread, now, t.inboxId, t.threadId);
    ExpiryFramed(a, b, ms, t.expiresAt);
    LatestFramed(a, b, ms, Inbound, t.receivedTimestamp);
    LatestFramed(a, b, ms, Outbound, t.sentTimestamp);
  }

  lemma FiledAfterRelabel(a: Db, b: Db, m: Message, m': Message, added: seq<string>, removed: seq<string>,
                          thread: Option<ThreadState>, now: string)
    requires RelabelsMessage(a, b, m, m', added, removed, thread, now) && MessagesFiled(a)
    ensures MessagesFiled(b)
  {
    forall k | HasMessage(b, k)
      ensures StrictlyAscending(b[k].msg.labels) && ThreadKey(k.inboxId, b[k].msg.threadId) in b
    {
      assert k != MessageKey(m.inboxId, m.messageId) ==> Lookup(b, k) == Lookup(a, k);
      var tk := ThreadKey(k.inboxId, b[k].msg.threadId);
      assert tk != ThreadKey(m.inboxId, m.threadId) ==> Lookup(b, tk) == Lookup(a, tk);
    }
  }

  lemma RollupsAfterRelabel(a: Db, b: Db, m: Message, m': Message, added: seq<string>, removed: seq<string>,
                            thread: Option<ThreadState>, now: string)
    requires RollupsAgree(a) && Typed(a) && Typed(b)
    requires RelabelsMessage(a, b, m, m', added, removed, thread, now)
    ensures RollupsAgree(b)
  {
    FiledAfterRelabel(a, b, m, m', added, removed, thread, now);
    forall k | k in b && k.ThreadKey? && b[k].ThreadRow?
      ensures CountsAgree(b, b[k].thread) && MaximaAgree(b, b[k].thread)
    {
      if k == ThreadKey(m.inboxId, m.threadId) {
        assert KeyOf(a[k]) == k;
        CountsAfterRelabel(a, b, m, m', added, removed, thread, now, a[k].thread);
        MaximaAfterRelabel(a, b, m, m', added, removed, thread, now, a[k].thread, thread.Some?);
      } else {
        OtherThreadAfterRelabel(a, b, m, m', added, removed, thread, now, k);
      }
    }
  }

  lemma OtherThreadAfterRelabel(a: Db, b: Db, m: Message, m': Message, added: seq<string>, removed: seq<string>,
                                thread: Option<ThreadState>, now: string, k: Key)
    requires RollupsAgree(a) && Typed(a) && RelabelsMessage(a, b, m, m', added, removed, thread, now)
    requires k in b && k.ThreadKey? && b[k].ThreadRow? && k != ThreadKey(m.inboxId, m.threadId)
    ensures CountsAgree(b, b[k].thread) && MaximaAgree(b, b[k].thread)
  {
    assert Lookup(b, k) == Lookup(a, k);
    assert KeyOf(a[k]) == k;
    MembersAfterRelabel(a, b, m, m', added, removed, thread, now, k.inboxId, k.threadId);
    CountsFramed(a, b, b[k].thread);
    MaximaAfterRelabel(a, b, m, m', added, removed, thread, now, b[k].thread, false);
  }

  // ---------------------------------------------------------------------
  // Every reachable state
  // ---------------------------------------------------------------------

  lemma RollupsFramed(a: Db, b: Db)
    requires RollupsAgree(a)
    requires forall k: Key :: k.MessageKey? || k.ThreadKey? ==> Lookup(b, k) == Lookup(a, k)
    ensures RollupsAgree(b)
  {
    forall k | HasMessage(b, k)
      ensures StrictlyAscending(b[k].msg.labels) && ThreadKey(k.inboxId, b[k].msg.threadId) in b
    {
      assert Lookup(b, k) == Lookup(a, k);
      assert Lookup(b, ThreadKey(k.inboxId, b[k].msg.threadId)) == Lookup(a, ThreadKey(k.inboxId, b[k].msg.threadId));
    }
    forall k | k in b && k.ThreadKey? && b[k].ThreadRow?
      ensures CountsAgree(b, b[k].thread) && MaximaAgree(b, b[k].thread)
    {
      assert Lookup(b, k) == Lookup(a, k);
      var t := b[k].thread;
      forall j ensures j in Members(b, t.inboxId, t.threadId) <==> j in Members(a, t.inboxId, t.threadId) {
        assert j.MessageKey? ==> Lookup(b, j) == Lookup(a, j);
      }
      forall j | j in Members(a, t.inboxId, t.threadId) ensures a[j] == b[j] {
        assert Lookup(b, j) == Lookup(a, j);
      }
      CountsFramed(a, b, t);
      MaximaFramed(a, b, t);
    }
  }

  /** Of messages and threads, `written` holds at most these two rows. */
  ghost predicate WritesPair(written: map<Key, Row>, mk: Key, m: Row, tk: Key, t: Option<Row>) {
    && mk in written && written[mk] == m
    && Lookup(written, tk) == t
    && forall k: Key :: k in written && (k.MessageKey? || k.ThreadKey?) ==> k == mk || k == tk
  }

  lemma PairIsWritten(a: Db, b: Db, written: map<Key, Row>, mk: Key, m: Row, tk: Key, t: Option<Row>)
    requires SameCore(b, a + written) && WritesPair(written, mk, m, tk, t) && mk.MessageKey? && tk.ThreadKey?
    ensures Lookup(b, mk) == Some(m)
    ensures Lookup(b, tk) == if t.Some? then t else Lookup(a, tk)
    ensures forall k: Key :: (k.MessageKey? || k.ThreadKey?) && k != mk && k != tk ==> Lookup(b, k) == Lookup(a, k)
  {
    assert Lookup(b, mk) == Lookup(a + written, mk) && Lookup(b, tk) == Lookup(a + written, tk);
    forall k: Key | (k.MessageKey? || k.ThreadKey?) && k != mk && k != tk ensures Lookup(b, k) == Lookup(a, k) {
      assert Lookup(b, k) == Lookup(a + written, k);
    }
  }

  lemma InsertAdds(events: seq<Event>, e: Event)
    requires e.InsertEvent? && ValidRun(events) && CanCommit(events, e)
    ensures var m := Resolved(e.msg, e.candidates, e.found);
            AddsMessage(After(events), Commit(After(events), e), m, StoredMessage(m, ThreadFor(m, e.thread)), e.thread)
  {
    ReadyNow(events, e);
    var a, b := After(events), Commit(After(events), e);
    var m := Resolved(e.msg, e.candidates, e.found);
    var t := ThreadFor(m, e.thread);
    var mk, tk := MessageKey(m.inboxId, m.messageId), ThreadKey(m.inboxId, m.threadId);
    Step(events, e);
    JoinedThreadKey(events, m, e.thread);
    PairIsWritten(a, b, Written(a, e), mk, MessageRow(StoredMessage(m, t)), tk, Some(ThreadRow(t)));
  }

  lemma EnqueueWritesPair(db: Db, e: Event)
    requires e.EnqueueEvent?
    ensures var t := ThreadFor(e.msg, e.thread);
            WritesPair(Written(db, e), MessageKey(e.msg.inboxId, e.msg.messageId), MessageRow(StoredMessage(e.msg, t)),
                       ThreadKey(t.inboxId, t.threadId), Some(ThreadRow(t)))
  {
  }

  lemma EnqueueAdds(events: seq<Event>, e: Event)
    requires e.EnqueueEvent? && ValidRun(events) && CanCommit(events, e)
    ensures AddsMessage(After(events), Commit(After(events), e), e.msg, StoredMessage(e.msg, ThreadFor(e.msg, e.thread)), e.thread)
  {
    ReadyNow(events, e);
    var a, b := After(events), Commit(After(events), e);
    var t := ThreadFor(e.msg, e.thread);
    Step(events, e);
    JoinedThreadKey(events, e.msg, e.thread);
    EnqueueWritesPair(a, e);
    PairIsWritten(a, b, Written(a, e), MessageKey(e.msg.inboxId, e.msg.messageId), MessageRow(StoredMessage(e.msg, t)),
                  ThreadKey(e.msg.inboxId, e.msg.threadId), Some(ThreadRow(t)));
  }

  lemma MarkWritesPair(db: Db, e: Event)
    requires e.MarkEvent? && Current(db, e)
    ensures WritesPair(Written(db, e), MessageKey(e.msg.inboxId, e.msg.messageId),
                       MessageRow(Amended(e.msg, MarkPatch(e.state, e.msg, e.outcome, e.now))),
                       ThreadKey(e.msg.inboxId, e.msg.threadId),
                       if e.thread.None? then None else Some(ThreadRow(MarkedThread(e.thread.value, e.msg, e.outcome, e.now))))
  {
    var change := MarkChange(e.thread, e.msg, e.outcome, e.now);
    RowsArePair(MarkedState(e.state, e.msg, e.outcome, e.now), MessageKey(e.msg.inboxId, e.msg.messageId),
                Amended(e.msg, MarkPatch(e.state, e.msg, e.outcome, e.now)), change, ThreadKey(e.msg.inboxId, e.msg.threadId));
  }

  lemma RowsArePair(s: SendState, mk: Key, m: Message, change: Option<ThreadChange>, tk: Key)
    requires mk.MessageKey? && tk.ThreadKey?
    requires change.Some? ==> tk == ThreadKey(change.value.after.inboxId, change.value.after.threadId)
    ensures WritesPair(MarkRows(s, mk, m, change), mk, MessageRow(m), tk,
                       if change.None? then None else Some(ThreadRow(change.value.after)))
  {
  }

  lemma MarkRelabels(events: seq<Event>, e: Event)
    requires e.MarkEvent? && ValidRun(events) && CanCommit(events, e)
    requires StrictlyAscending(e.msg.labels)
    ensures RelabelsMessage(After(events), Commit(After(events), e), e.msg, Amended(e.msg, MarkPatch(e.state, e.msg, e.outcome, e.now)),
                            MarkAdded(e.msg, e.outcome), MarkRemoved(e.msg, e.outcome), e.thread, e.now)
  {
    ReadyNow(events, e);
    var a, b := After(events), Commit(After(events), e);
    Step(events, e);
    MarkedLabelsAscend(e.msg.labels, e.outcome);
    DifferencesAreChange(e.msg.labels, MarkedLabels(e.msg.labels, e.outcome));
    MarkWritesPair(a, e);
    PairIsWritten(a, b, Written(a, e), MessageKey(e.msg.inboxId, e.msg.messageId),
                  MessageRow(Amended(e.msg, MarkPatch(e.state, e.msg, e.outcome, e.now))),
                  ThreadKey(e.msg.inboxId, e.msg.threadId),
                  if e.thread.None? then None else Some(ThreadRow(MarkedThread(e.thread.value, e.msg, e.outcome, e.now))));
  }

  lemma PatchWritesPair(db: Db, e: Event)
    requires e.PatchEvent? && Current(db, e)
    ensures WritesPair(Written(db, e), MessageKey(e.msg.inboxId, e.msg.messageId),
                       MessageRow(Amended(e.msg, LabelPatchOf(e.msg, e.add, e.remove, e.now))),
                       ThreadKey(e.msg.inboxId, e.msg.threadId),
                       Some(ThreadRow(PatchedThread(e.threadRead, e.msg, e.add, e.remove, e.now))))
  {
  }

  lemma PatchRelabels(events: seq<Event>, e: Event)
    requires e.PatchEvent? && ValidRun(events) && CanCommit(events, e)
    requires StrictlyAscending(e.msg.labels)
    ensures var patch := Patched(e.msg.labels, e.add, e.remove);
            RelabelsMessage(After(events), Commit(After(events), e), e.msg, Amended(e.msg, LabelPatchOf(e.msg, e.add, e.remove, e.now)),
                            patch.added, patch.removed, Some(e.threadRead), e.now)
  {
    var a, b := After(events), Commit(After(events), e);
    Step(events, e);
    PatchedIsChange(e.msg.labels, e.add, e.remove);
    PatchWritesPair(a, e);
    PairIsWritten(a, b, Written(a, e), MessageKey(e.msg.inboxId, e.msg.messageId),
                  MessageRow(Amended(e.msg, LabelPatchOf(e.msg, e.add, e.remove, e.now))),
                  ThreadKey(e.msg.inboxId, e.msg.threadId),
                  Some(ThreadRow(PatchedThread(e.threadRead, e.msg, e.add, e.remove, e.now))));
  }

  lemma StateStepsKeepThreads(events: seq<Event>, e: Event)
    requires (e.ClaimEvent? || e.NoteEvent?) && ValidRun(events) && CanCommit(events, e)
    ensures forall k: Key :: k.MessageKey? || k.ThreadKey? ==> Lookup(Commit(After(events), e), k) == Lookup(After(events), k)
  {
    var a, b := After(events), Commit(After(events), e);
    Step(events, e);
    forall k: Key | k.MessageKey? || k.ThreadKey? ensures Lookup(b, k) == Lookup(a, k) {
      assert Lookup(b, k) == Lookup(a + Written(a, e), k);
    }
  }

  lemma StepKeepsRollups(events: seq<Event>, e: Event)
    requires ValidRun(events) && CanCommit(events, e) && RollupsAgree(After(events))
    ensures RollupsAgree(Commit(After(events), e))
  {
    var a, b := After(events), Commit(After(events), e);
    Step(events, e);
    match e
    case InsertEvent(msg, candidates, found, thread) =>
      var m := Resolved(msg, candidates, found);
      InsertAdds(events, e);
      RollupsAfterAdd(a, b, m, StoredMessage(m, ThreadFor(m, thread)), thread);
    case EnqueueEvent(msg, _, _, thread, _, _) =>
      EnqueueAdds(events, e);
      RollupsAfterAdd(a, b, msg, StoredMessage(msg, ThreadFor(msg, thread)), thread);
    case ClaimEvent(_, _) =>
      StateStepsKeepThreads(events, e);
      RollupsFramed(a, b);
    case NoteEvent(_, _) =>
      StateStepsKeepThreads(events, e);
      RollupsFramed(a, b);
    case MarkEvent(s, outcome, msg, thread, now, _) =>
      assert HasMessage(a, MessageKey(msg.inboxId, msg.messageId));
      MarkRelabels(events, e);
      RollupsAfterRelabel(a, b, msg, Amended(msg, MarkPatch(s, msg, outcome, now)),
                          MarkAdded(msg, outcome), MarkRemoved(msg, outcome), thread, now);
    case PatchEvent(msg, add, remove, t, now) =>
      assert HasMessage(a, MessageKey(msg.inboxId, msg.messageId));
      var patch := Patched(msg.labels, add, remove);
      PatchRelabels(events, e);
      RollupsAfterRelabel(a, b, msg, Amended(msg, LabelPatchOf(msg, add, remove, now)), patch.added, patch.removed, Some(t), now);
  }

  /**
    In every state any interleaving of inserts, enqueues, claims, notes, marks
    and label patches can reach, every thread's counts, size, labels,
    timestamps, preview and TTL are those of a recount over its messages.
   */
  lemma {:induction false} RollupsAlwaysAgree(events: seq<Event>)
    requires ValidRun(events)
    ensures RollupsAgree(After(events))
  {
    if events != [] {
      LastStep(events);
      RollupsAlwaysAgree(events[..|events| - 1]);
      StepKeepsRollups(events[..|events| - 1], events[|events| - 1]);
    }
  }
}
