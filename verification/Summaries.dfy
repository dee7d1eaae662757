/**
  What a thread summarises of its messages in the order they were committed,
  and the snapshot of it that an inbound message carries.
 */
module Summaries {
  import opened Effects
  import opened Newest
  import opened Participants
  import opened Plan
  import opened Records
  import opened Rollups
  import opened Runs
  import opened Sending
  import opened Threads

  /** The messages a run filed in the thread at `k`, in commit order. */
  ghost function AddedTo(events: seq<Event>, k: Key): seq<Message> {
    if events == [] then []
    else
      AddedTo(events[..|events| - 1], k)
      + if AddsTo(events[|events| - 1], k) then [AddedMessage(events[|events| - 1]).value] else []
  }

  /** Their attachments; of the first message's only the first 20. */
  function Attached(ms: seq<Message>): seq<Attachment> {
    if ms == [] then []
    else if |ms| == 1 then FirstOf(ms[0].attachments, ATTACHMENT_SUMMARIES)
    else Attached(ms[..|ms| - 1]) + ms[|ms| - 1].attachments
  }

  /** Their senders, and all they were sent to. */
  function Senders(ms: seq<Message>): seq<Participant> {
    if ms == [] then [] else Senders(ms[..|ms| - 1]) + [ms[|ms| - 1].from]
  }

  function Recipients(ms: seq<Message>): seq<Participant> {
    if ms == [] then []
    else Recipients(ms[..|ms| - 1]) + (ms[|ms| - 1].to + ms[|ms| - 1].cc + ms[|ms| - 1].bcc)
  }

  /** The thread's fixed fields are the first message's, its attachments the last 20, its participants as they fit. */
  ghost predicate Summarises(t: ThreadState, ms: seq<Message>) {
    && ms != [] && t.messageCount == |ms|
    && t.subject == ms[0].subject && t.createdAt == ms[0].createdAt
    && t.attachments == LastOf(Attached(ms), ATTACHMENT_SUMMARIES)
    && t.senders == AddParticipants([], Senders(ms)) && t.recipients == AddParticipants([], Recipients(ms))
  }

  lemma LastOfLast(a: seq<Attachment>, b: seq<Attachment>, n: nat)
    ensures LastOf(LastOf(a, n) + b, n) == LastOf(a + b, n)
  {
  }

  lemma StartSummarises(m: Message)
    ensures Summarises(Started(m), [m])
  {
    assert [m][..0] == [] && Senders([m]) == [] + [m.from];
    assert Recipients([m]) == [] + (m.to + m.cc + m.bcc) == m.to + m.cc + m.bcc;
  }

  lemma JoinSummarises(t: ThreadState, ms: seq<Message>, m: Message)
    requires Summarises(t, ms)
    ensures Summarises(Joined(t, m), ms + [m])
  {
    assert (ms + [m])[..|ms|] == ms;
    LastOfLast(Attached(ms), m.attachments, ATTACHMENT_SUMMARIES);
    AddInTwo([], Senders(ms), [m.from]);
    AddInTwo([], Recipients(ms), m.to + m.cc + m.bcc);
  }

  /** What a thread key holds after a run, against the messages filed there. */
  ghost predicate SummaryHolds(row: Option<Row>, ms: seq<Message>) {
    if row.None? then ms == [] else row.value.ThreadRow? && Summarises(row.value.thread, ms)
  }

  lemma SummaryStep(a: Db, b: Db, e: Event, k: Key, ms: seq<Message>)
    requires ThreadStep(a, b, e, k) && SummaryHolds(Lookup(a, k), ms) && (k in b ==> b[k].ThreadRow?)
    ensures SummaryHolds(Lookup(b, k), ms + if AddsTo(e, k) then [AddedMessage(e).value] else [])
  {
    if AddsTo(e, k) {
      var m := AddedMessage(e).value;
      if Lookup(a, k).None? {
        StartSummarises(m);
        assert ms + [m] == [m];
      } else {
        JoinSummarises(a[k].thread, ms, m);
      }
    } else {
      assert ms + [] == ms;
    }
  }

  lemma ThreadKeyHoldsThread(events: seq<Event>, k: Key)
    requires ValidRun(events) && k.ThreadKey? && k in After(events)
    ensures After(events)[k].ThreadRow?
  {
    RunGrows(events, 0);
    assert KeyOf(After(events)[k]) == k;
  }

  /**
    Every thread counts the messages committed to it, keeps the subject and
    creation time of the first, and lists the last 20 attachments in commit order.
   */
  lemma {:induction false} ThreadsSummarise(events: seq<Event>, k: Key)
    requires ValidRun(events) && k.ThreadKey?
    ensures SummaryHolds(Lookup(After(events), k), AddedTo(events, k))
  {
    if events != [] {
      var init, e := events[..|events| - 1], events[|events| - 1];
      LastStep(events);
      ThreadsSummarise(init, k);
      ThreadSteps(init, e, k);
      if k in After(events) { ThreadKeyHoldsThread(events, k); }
      SummaryStep(After(init), After(events), e, k, AddedTo(init, k));
    }
  }

  // ---------------------------------------------------------------------
  // Participants
  // ---------------------------------------------------------------------

  lemma {:induction false} EveryoneIsIn(ms: seq<Message>, m: Message)
    requires m in ms
    ensures m.from in Senders(ms) && forall p :: p in m.to + m.cc + m.bcc ==> p in Recipients(ms)
  {
    var init, last := ms[..|ms| - 1], ms[|ms| - 1];
    assert ms == init + [last];
    if m != last { EveryoneIsIn(init, m); }
  }

  lemma {:induction false} SomeoneSent(ms: seq<Message>, p: Participant)
    ensures p in Senders(ms) ==> exists m :: m in ms && m.from == p
    ensures p in Recipients(ms) ==> exists m :: m in ms && (p in m.to || p in m.cc || p in m.bcc)
  {
    if ms != [] {
      var init, last := ms[..|ms| - 1], ms[|ms| - 1];
      assert ms == init + [last];
      SomeoneSent(init, p);
    }
  }

  /** What a thread lists: at most 50 of each, sorted, one per mailbox, and all of them its messages' own. */
  ghost predicate ListsParticipants(t: ThreadState, ms: seq<Message>) {
    && IsList(t.senders) && IsList(t.recipients)
    && (forall p :: p in t.senders ==> exists m :: m in ms && m.from == p)
    && (forall p :: p in t.recipients ==> exists m :: m in ms && (p in m.to || p in m.cc || p in m.bcc))
    && (forall m :: m in ms ==> Covers(t.senders, m.from))
    && (forall m, p :: m in ms && (p in m.to || p in m.cc || p in m.bcc) ==> Covers(t.recipients, p))
  }

  lemma SummaryLists(t: ThreadState, ms: seq<Message>)
    requires Summarises(t, ms)
    ensures ListsParticipants(t, ms)
  {
    AddsUp([], Senders(ms));
    AddsUp([], Recipients(ms));
    forall m | m in ms
      ensures Covers(t.senders, m.from)
      ensures forall p :: p in m.to || p in m.cc || p in m.bcc ==> Covers(t.recipients, p)
    {
      EveryoneIsIn(ms, m);
    }
    forall p ensures p in t.senders ==> exists m :: m in ms && m.from == p {
      SomeoneSent(ms, p);
    }
    forall p ensures p in t.recipients ==> exists m :: m in ms && (p in m.to || p in m.cc || p in m.bcc) {
      SomeoneSent(ms, p);
    }
  }

  /**
    In every reachable state a thread lists its messages' participants: one entry
    per mailbox, none of anyone else, and nobody left out before 50 are listed.
   */
  lemma ParticipantsAreListed(events: seq<Event>, k: Key)
    requires ValidRun(events) && k.ThreadKey? && k in After(events)
    ensures After(events)[k].ThreadRow? && ListsParticipants(After(events)[k].thread, AddedTo(events, k))
  {
    ThreadsSummarise(events, k);
    SummaryLists(After(events)[k].thread, AddedTo(events, k));
  }

  lemma {:induction false} FiledSoFar(events: seq<Event>, k: Key, n: nat) returns (later: seq<Message>)
    requires n <= |events|
    ensures AddedTo(events, k) == AddedTo(events[..n], k) + later
  {
    if n == |events| {
      assert events[..n] == events;
      later := [];
    } else {
      assert events[..|events| - 1][..n] == events[..n];
      later := FiledSoFar(events[..|events| - 1], k, n);
      later := later + if AddsTo(events[|events| - 1], k) then [AddedMessage(events[|events| - 1]).value] else [];
    }
  }

  lemma {:induction false} JoinedSenders(a: seq<Message>, b: seq<Message>)
    ensures Senders(a + b) == Senders(a) + Senders(b)
  {
    if b == [] {
      assert a + b == a;
    } else {
      assert (a + b)[..|a + b| - 1] == a + b[..|b| - 1];
      JoinedSenders(a, b[..|b| - 1]);
    }
  }

  lemma {:induction false} JoinedRecipients(a: seq<Message>, b: seq<Message>)
    ensures Recipients(a + b) == Recipients(a) + Recipients(b)
  {
    if b == [] {
      assert a + b == a;
    } else {
      assert (a + b)[..|a + b| - 1] == a + b[..|b| - 1];
      JoinedRecipients(a, b[..|b| - 1]);
    }
  }

  /** Whoever a thread lists, it lists from then on. */
  lemma ParticipantsStay(events: seq<Event>, k: Key, n: nat)
    requires ValidRun(events) && n <= |events| && k.ThreadKey? && k in After(events[..n])
    ensures k in After(events) && After(events)[k].ThreadRow? && After(events[..n])[k].ThreadRow?
    ensures forall p :: p in After(events[..n])[k].thread.senders ==> p in After(events)[k].thread.senders
    ensures forall p :: p in After(events[..n])[k].thread.recipients ==> p in After(events)[k].thread.recipients
  {
    PrefixValid(events, n);
    RunGrows(events, n);
    ThreadsSummarise(events[..n], k);
    ThreadsSummarise(events, k);
    var earlier := AddedTo(events[..n], k);
    var later := FiledSoFar(events, k, n);
    JoinedSenders(earlier, later);
    JoinedRecipients(earlier, later);
    AddInTwo([], Senders(earlier), Senders(later));
    AddInTwo([], Recipients(earlier), Recipients(later));
    AddsUp([], Senders(earlier));
    AddsUp([], Recipients(earlier));
    AddsUp(AddParticipants([], Senders(earlier)), Senders(later));
    AddsUp(AddParticipants([], Recipients(earlier)), Recipients(later));
  }

  // ---------------------------------------------------------------------
  // Snapshots
  // ---------------------------------------------------------------------

  /** `events[n]` filed the message at `k`, which shows its thread as that commit left it. */
  ghost predicate SnapshotFrom(events: seq<Event>, k: Key, msg: Message, n: nat) {
    && n < |events| && AddedMessage(events[n]).Some?
    && var m := AddedMessage(events[n]).value;
       var t := ThreadKey(m.inboxId, m.threadId);
    && k == MessageKey(m.inboxId, m.messageId)
    && t in After(events[..n + 1]) && After(events[..n + 1])[t].ThreadRow?
    && msg.snapshot == if m.direction.Inbound? then Some(Snapshot(After(events[..n + 1])[t].thread)) else m.snapshot
  }

  /** The message a commit adds is stored with its thread's snapshot. */
  lemma NewSnapshot(events: seq<Event>, e: Event, k: Key)
    requires ValidRun(events) && CanCommit(events, e)
    requires !HasMessage(After(events), k) && HasMessage(Commit(After(events), e), k)
    ensures AddedMessage(e).Some?
    ensures var m, b := AddedMessage(e).value, Commit(After(events), e);
            var t := ThreadKey(m.inboxId, m.threadId);
            && k == MessageKey(m.inboxId, m.messageId)
            && t in b && b[t].ThreadRow?
            && b[k].msg.snapshot == if m.direction.Inbound? then Some(Snapshot(b[t].thread)) else m.snapshot
  {
    NewMessageMirror(events, e, k);
    if e.InsertEvent? { InsertAdds(events, e); } else { EnqueueAdds(events, e); }
  }

  lemma SnapshotKept(init: seq<Event>, e: Event, k: Key, msg: Message, msg': Message, n: nat)
    requires SnapshotFrom(init, k, msg, n) && msg'.snapshot == msg.snapshot
    ensures SnapshotFrom(init + [e], k, msg', n)
  {
    assert (init + [e])[..n + 1] == init[..n + 1];
  }

  /** Every stored message's snapshot is its thread right after the commit that filed it. */
  lemma {:induction false} SnapshotsAreHonest(events: seq<Event>, k: Key) returns (n: nat)
    requires ValidRun(events) && HasMessage(After(events), k)
    ensures SnapshotFrom(events, k, After(events)[k].msg, n)
  {
    var init, e := events[..|events| - 1], events[|events| - 1];
    LastStep(events);
    if HasMessage(After(init), k) {
      n := SnapshotsAreHonest(init, k);
      MessageStep(init, e, k);
      SnapshotKept(init, e, k, After(init)[k].msg, After(events)[k].msg, n);
    } else {
      NewSnapshot(init, e, k);
      n := |init|;
      assert events[..n + 1] == events;
    }
  }
}
