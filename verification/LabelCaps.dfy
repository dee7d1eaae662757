/**
  The cap on a caller's own labels, over any run. Only enqueues and label
  patches are checked against it; inbound mail and send outcomes are let
  through unchecked, and the cap holds all the same.
 */
module LabelCaps {
  import opened Effects
  import opened Labels
  import opened Newest
  import opened Plan
  import opened Records
  import opened Rollups
  import opened Runs
  import opened Sends
  import opened Text
  import opened Threads

  predicate OnlySystem(labels: seq<string>) {
    forall l :: l in labels ==> !IsUserLabel(l)
  }

  /** Inbound mail arrives with the pipeline's own labels only. */
  predicate SystemInsert(e: Event) {
    e.InsertEvent? ==> OnlySystem(e.msg.labels)
  }

  ghost predicate SystemInserts(events: seq<Event>) {
    forall i :: 0 <= i < |events| ==> SystemInsert(events[i])
  }

  ghost predicate ThreadsWithinCap(db: Db) {
    forall k :: k in db && k.ThreadKey? && db[k].ThreadRow? ==> UserLabelCount(db[k].thread.labels) <= THREAD_USER_LABEL_CAP
  }

  ghost predicate MessagesWithinCap(db: Db) {
    forall k :: HasMessage(db, k) ==> UserLabelCount(db[k].msg.labels) <= MESSAGE_USER_LABEL_CAP
  }

  // ---------------------------------------------------------------------
  // Counting user labels
  // ---------------------------------------------------------------------

  lemma SubsetCard(a: set<string>, b: set<string>)
    requires a <= b
    ensures |a| <= |b|
  {
    assert b == a + (b - a);
  }

  /** A sorted list whose user labels are all in another has no more of them. */
  lemma FewerUserLabels(fewer: seq<string>, more: seq<string>)
    requires StrictlyAscending(fewer) && StrictlyAscending(more)
    requires forall l :: l in fewer && IsUserLabel(l) ==> l in more
    ensures UserLabelCount(fewer) <= UserLabelCount(more)
  {
    AscendingHasNoDuplicates(fewer);
    AscendingHasNoDuplicates(more);
    UserLabelCountIsCardinality(fewer);
    UserLabelCountIsCardinality(more);
    SubsetCard(UserLabels(fewer), UserLabels(more));
  }

  lemma {:induction false} ReleaseOnlyRemoves(labels: seq<string>, counts: map<string, nat>, gone: seq<string>)
    requires StrictlyAscending(labels)
    ensures StrictlyAscending(ReleaseLabels(labels, counts, gone).0)
    ensures forall l :: l in ReleaseLabels(labels, counts, gone).0 ==> l in labels
  {
    if gone != [] {
      ReleaseOnlyRemoves(labels, counts, gone[..|gone| - 1]);
      WithoutKeepsAscending(ReleaseLabels(labels, counts, gone[..|gone| - 1]).0, gone[|gone| - 1]);
    }
  }

  /** Relabelling a thread with system labels adds none of the caller's. */
  lemma RelabelledWithinCap(t: ThreadState, added: seq<string>, removed: seq<string>, now: string)
    requires StrictlyAscending(t.labels) && OnlySystem(added)
    ensures UserLabelCount(Relabelled(t, added, removed, now).labels) <= UserLabelCount(t.labels)
  {
    AddLabelsAscends(t.labels, added);
    ReleaseOnlyRemoves(AddLabels(t.labels, added), CountLabels(t.labelCounts, added), removed);
    FewerUserLabels(Relabelled(t, added, removed, now).labels, t.labels);
  }

  /** A message with system labels brings none of the caller's to its thread. */
  lemma ThreadForWithinCap(m: Message, before: Option<ThreadState>)
    requires OnlySystem(m.labels)
    requires StrictlyAscending(BeforeLabels(before))
    ensures UserLabelCount(ThreadFor(m, before).labels) <= UserLabelCount(BeforeLabels(before))
  {
    AddLabelsAscends(BeforeLabels(before), m.labels);
    FewerUserLabels(ThreadFor(m, before).labels, BeforeLabels(before));
  }

  lemma MarkAddsSystem(msg: Message, outcome: MarkOutcome)
    ensures OnlySystem(MarkAdded(msg, outcome))
  {
    forall l | l in MarkAdded(msg, outcome) ensures !IsUserLabel(l) {
      assert l in MarkedLabels(msg.labels, outcome) && l !in msg.labels;
    }
  }

  // ---------------------------------------------------------------------
  // The cap over a run
  // ---------------------------------------------------------------------

  lemma ThreadIsSorted(events: seq<Event>, k: Key)
    requires ValidRun(events) && k in After(events) && k.ThreadKey? && After(events)[k].ThreadRow?
    ensures StrictlyAscending(After(events)[k].thread.labels)
  {
    RollupsAlwaysAgree(events);
  }

  lemma AddKeepsCap(a: Db, b: Db, m: Message, stored: Message, before: Option<ThreadState>)
    requires AddsMessage(a, b, m, stored, before) && ThreadsWithinCap(a)
    requires UserLabelCount(ThreadFor(m, before).labels) <= THREAD_USER_LABEL_CAP
    ensures ThreadsWithinCap(b)
  {
    forall k | k in b && k.ThreadKey? && b[k].ThreadRow?
      ensures UserLabelCount(b[k].thread.labels) <= THREAD_USER_LABEL_CAP
    {
      if k != ThreadKey(m.inboxId, m.threadId) { assert Lookup(b, k) == Lookup(a, k); }
    }
  }

  lemma RelabelKeepsCap(a: Db, b: Db, m: Message, m': Message, added: seq<string>, removed: seq<string>,
                        thread: Option<ThreadState>, now: string)
    requires RelabelsMessage(a, b, m, m', added, removed, thread, now) && ThreadsWithinCap(a)
    requires thread.Some? ==> UserLabelCount(Relabelled(thread.value, added, removed, now).labels) <= THREAD_USER_LABEL_CAP
    ensures ThreadsWithinCap(b)
  {
    forall k | k in b && k.ThreadKey? && b[k].ThreadRow?
      ensures UserLabelCount(b[k].thread.labels) <= THREAD_USER_LABEL_CAP
    {
      if k != ThreadKey(m.inboxId, m.threadId) || thread.None? { assert Lookup(b, k) == Lookup(a, k); }
    }
  }

  lemma InsertKeepsCap(events: seq<Event>, e: Event)
    requires ValidRun(events) && CanCommit(events, e) && e.InsertEvent? && SystemInsert(e) && ThreadsWithinCap(After(events))
    ensures ThreadsWithinCap(Commit(After(events), e))
  {
    var m := Resolved(e.msg, e.candidates, e.found);
    InsertAdds(events, e);
    if e.thread.Some? { ThreadIsSorted(events, ThreadKey(m.inboxId, m.threadId)); }
    ThreadForWithinCap(m, e.thread);
    AddKeepsCap(After(events), Commit(After(events), e), m, StoredMessage(m, ThreadFor(m, e.thread)), e.thread);
  }

  lemma EnqueueKeepsCap(events: seq<Event>, e: Event)
    requires ValidRun(events) && CanCommit(events, e) && e.EnqueueEvent? && ThreadsWithinCap(After(events))
    ensures ThreadsWithinCap(Commit(After(events), e))
  {
    EnqueueAdds(events, e);
    AddKeepsCap(After(events), Commit(After(events), e), e.msg, StoredMessage(e.msg, ThreadFor(e.msg, e.thread)), e.thread);
  }

  lemma MarkKeepsCap(events: seq<Event>, e: Event)
    requires ValidRun(events) && CanCommit(events, e) && e.MarkEvent? && ThreadsWithinCap(After(events))
    ensures ThreadsWithinCap(Commit(After(events), e))
  {
    MessageIsSorted(events, e);
    MarkRelabels(events, e);
    if e.thread.Some? {
      ThreadIsSorted(events, ThreadKey(e.msg.inboxId, e.msg.threadId));
      MarkAddsSystem(e.msg, e.outcome);
      RelabelledWithinCap(e.thread.value, MarkAdded(e.msg, e.outcome), MarkRemoved(e.msg, e.outcome), e.now);
    }
    RelabelKeepsCap(After(events), Commit(After(events), e), e.msg, Amended(e.msg, MarkPatch(e.state, e.msg, e.outcome, e.now)),
                    MarkAdded(e.msg, e.outcome), MarkRemoved(e.msg, e.outcome), e.thread, e.now);
  }

  lemma PatchKeepsCap(events: seq<Event>, e: Event)
    requires ValidRun(events) && CanCommit(events, e) && e.PatchEvent? && ThreadsWithinCap(After(events))
    ensures ThreadsWithinCap(Commit(After(events), e))
  {
    MessageIsSorted(events, e);
    PatchRelabels(events, e);
    var patch := Patched(e.msg.labels, e.add, e.remove);
    RelabelKeepsCap(After(events), Commit(After(events), e), e.msg, Amended(e.msg, LabelPatchOf(e.msg, e.add, e.remove, e.now)),
                    patch.added, patch.removed, Some(e.threadRead), e.now);
  }

  lemma StateKeepsCap(events: seq<Event>, e: Event)
    requires ValidRun(events) && CanCommit(events, e) && (e.ClaimEvent? || e.NoteEvent?) && ThreadsWithinCap(After(events))
    ensures ThreadsWithinCap(Commit(After(events), e))
  {
    StateStepsKeepThreads(events, e);
    var a, b := After(events), Commit(After(events), e);
    forall k | k in b && k.ThreadKey? && b[k].ThreadRow?
      ensures UserLabelCount(b[k].thread.labels) <= THREAD_USER_LABEL_CAP
    {
      assert Lookup(b, k) == Lookup(a, k);
    }
  }

  lemma {:induction false} ThreadsStayWithinCap(events: seq<Event>)
    requires ValidRun(events) && SystemInserts(events)
    ensures ThreadsWithinCap(After(events))
  {
    if events != [] {
      var init, e := events[..|events| - 1], events[|events| - 1];
      LastStep(events);
      ThreadsStayWithinCap(init);
      match e
      case InsertEvent(_, _, _, _) => InsertKeepsCap(init, e);
      case EnqueueEvent(_, _, _, _, _, _) => EnqueueKeepsCap(init, e);
      case ClaimEvent(_, _) => StateKeepsCap(init, e);
      case NoteEvent(_, _) => StateKeepsCap(init, e);
      case MarkEvent(_, _, _, _, _, _) => MarkKeepsCap(init, e);
      case PatchEvent(_, _, _, _, _) => PatchKeepsCap(init, e);
    }
  }

  /** A message carries no label its thread does not list. */
  lemma MessageLabelsAreListed(db: Db, k: Key, name: string)
    requires RollupsAgree(db) && Typed(db) && HasMessage(db, k) && name in db[k].msg.labels
    ensures var tk := ThreadKey(k.inboxId, db[k].msg.threadId);
            tk in db && db[tk].ThreadRow? && name in db[tk].thread.labels
  {
    var tk := ThreadKey(k.inboxId, db[k].msg.threadId);
    assert KeyOf(db[tk]) == tk;
    var t := db[tk].thread;
    assert k in Carriers(db, Members(db, t.inboxId, t.threadId), name);
    assert Count(t.labelCounts, name) > 0;
  }

  /** Every reachable message and thread holds at most 20 of the caller's own labels. */
  lemma UserLabelsStayCapped(events: seq<Event>)
    requires ValidRun(events) && SystemInserts(events)
    ensures ThreadsWithinCap(After(events)) && MessagesWithinCap(After(events))
  {
    var db := After(events);
    ThreadsStayWithinCap(events);
    RollupsAlwaysAgree(events);
    RunGrows(events, 0);
    forall k | HasMessage(db, k) ensures UserLabelCount(db[k].msg.labels) <= MESSAGE_USER_LABEL_CAP {
      var tk := ThreadKey(k.inboxId, db[k].msg.threadId);
      assert KeyOf(db[tk]) == tk;
      forall l | l in db[k].msg.labels ensures l in db[tk].thread.labels {
        MessageLabelsAreListed(db, k, l);
      }
      FewerUserLabels(db[k].msg.labels, db[tk].thread.labels);
    }
  }

  // ---------------------------------------------------------------------
  // What the cap refuses
  // ---------------------------------------------------------------------

  lemma SeenThreadWithinCap(events: seq<Event>, k: Key, t: ThreadState)
    requires ValidRun(events) && SystemInserts(events) && k.ThreadKey? && Seen(events, k, Some(ThreadRow(t)))
    ensures StrictlyAscending(t.labels) && UserLabelCount(t.labels) <= THREAD_USER_LABEL_CAP
  {
    var n :| 0 <= n <= |events| && Lookup(After(events[..n]), k) == Some(ThreadRow(t));
    PrefixValid(events, n);
    UserLabelsStayCapped(events[..n]);
    ThreadIsSorted(events[..n], k);
  }

  lemma SeenMessageWithinCap(events: seq<Event>, k: Key, m: Message)
    requires ValidRun(events) && SystemInserts(events) && k.MessageKey? && Seen(events, k, Some(MessageRow(m)))
    ensures StrictlyAscending(m.labels) && UserLabelCount(m.labels) <= MESSAGE_USER_LABEL_CAP
  {
    var n :| 0 <= n <= |events| && Lookup(After(events[..n]), k) == Some(MessageRow(m));
    PrefixValid(events, n);
    UserLabelsStayCapped(events[..n]);
    RollupsAlwaysAgree(events[..n]);
    assert HasMessage(After(events[..n]), k);
  }

  /**
    Inbound mail and send outcomes are never refused for labels; nor is a
    label patch that adds none of the caller's own, whatever it read.
   */
  lemma OnlyNewUserLabelsAreRefused(events: seq<Event>, e: Event)
    requires ValidRun(events) && SystemInserts(events) && Legal(events, e) && !e.EnqueueEvent?
    requires e.PatchEvent? ==> OnlySystem(e.add)
    ensures PlanOf(e).Planned?
  {
    if e.PatchEvent? {
      var patch := Patched(e.msg.labels, e.add, e.remove);
      SeenThreadWithinCap(events, ThreadKey(e.msg.inboxId, e.msg.threadId), e.threadRead);
      SeenMessageWithinCap(events, MessageKey(e.msg.inboxId, e.msg.messageId), e.msg);
      PatchedIsChange(e.msg.labels, e.add, e.remove);
      FewerUserLabels(patch.labels, e.msg.labels);
      RelabelledWithinCap(e.threadRead, patch.added, patch.removed, e.now);
    }
  }
}
