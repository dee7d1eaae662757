/**
  Which message a thread shows: over any commit order, mixed with label
  patches and send outcomes, the one at the latest timestamp, and of several
  at that timestamp the one that committed last.
 */
module Newest {
  import opened Labels
  import opened Linear
  import opened Plan
  import opened Records
  import opened Rollups
  import opened Runs
  import opened Text
  import opened Threads

  /** The message an event adds, in the thread it was filed under. */
  function AddedMessage(e: Event): Option<Message> {
    match e
    case InsertEvent(msg, candidates, found, _) => Some(Resolved(msg, candidates, found))
    case EnqueueEvent(msg, _, _, _, _, _) => Some(msg)
    case _ => None
  }

  ghost predicate AddsTo(e: Event, k: Key) {
    AddedMessage(e).Some? && k == ThreadKey(AddedMessage(e).value.inboxId, AddedMessage(e).value.threadId)
  }

  /** `events[j]` added the message `t` shows, and nothing as new came after. */
  ghost predicate ShownFrom(events: seq<Event>, k: Key, t: ThreadState, j: nat) {
    && j < |events| && AddsTo(events[j], k)
    && var m := AddedMessage(events[j]).value;
    && t.lastMessageId == m.messageId && t.timestamp == m.timestamp && t.preview == m.preview
    && forall i :: j < i < |events| && AddsTo(events[i], k) ==> Less(AddedMessage(events[i]).value.timestamp, t.timestamp)
  }

  lemma ShownStays(init: seq<Event>, e: Event, k: Key, t: ThreadState, t': ThreadState, j: nat)
    requires ShownFrom(init, k, t, j)
    requires t'.lastMessageId == t.lastMessageId && t'.timestamp == t.timestamp && t'.preview == t.preview
    requires AddsTo(e, k) ==> Less(AddedMessage(e).value.timestamp, t.timestamp)
    ensures ShownFrom(init + [e], k, t', j)
  {
    var events := init + [e];
    forall i | j < i < |events| && AddsTo(events[i], k)
      ensures Less(AddedMessage(events[i]).value.timestamp, t'.timestamp)
    {
      if i < |init| { assert events[i] == init[i]; }
    }
  }

  /** What one commit does to the thread at `k`, its labels aside. */
  ghost predicate ThreadStep(a: Db, b: Db, e: Event, k: Key) {
    if AddsTo(e, k) then
      exists before :: && Lookup(a, k) == ThreadRowOf(before)
                       && Lookup(b, k) == Some(ThreadRow(ThreadFor(AddedMessage(e).value, before)))
    else
      && Lookup(b, k).Some? == Lookup(a, k).Some?
      && (k in a && k in b && b[k].ThreadRow? ==>
            && a[k].ThreadRow? && a[k].thread.lastMessageId == b[k].thread.lastMessageId
            && a[k].thread.timestamp == b[k].thread.timestamp && a[k].thread.preview == b[k].thread.preview
            && a[k].thread.subject == b[k].thread.subject && a[k].thread.createdAt == b[k].thread.createdAt
            && a[k].thread.messageCount == b[k].thread.messageCount && a[k].thread.attachments == b[k].thread.attachments
            && a[k].thread.senders == b[k].thread.senders && a[k].thread.recipients == b[k].thread.recipients)
  }

  lemma AddStep(a: Db, b: Db, e: Event, k: Key, m: Message, stored: Message, before: Option<ThreadState>)
    requires AddsMessage(a, b, m, stored, before) && AddedMessage(e) == Some(m) && k.ThreadKey?
    ensures ThreadStep(a, b, e, k)
  {
    if k != ThreadKey(m.inboxId, m.threadId) {
      assert Lookup(b, k) == Lookup(a, k);
    }
  }

  lemma RelabelStep(a: Db, b: Db, e: Event, k: Key, m: Message, m': Message, added: seq<string>, removed: seq<string>,
                    thread: Option<ThreadState>, now: string)
    requires RelabelsMessage(a, b, m, m', added, removed, thread, now) && AddedMessage(e) == None && k.ThreadKey?
    ensures ThreadStep(a, b, e, k)
  {
    if k != ThreadKey(m.inboxId, m.threadId) {
      assert Lookup(b, k) == Lookup(a, k);
    }
  }

  lemma MessageIsSorted(events: seq<Event>, e: Event)
    requires ValidRun(events) && CanCommit(events, e) && (e.MarkEvent? || e.PatchEvent?)
    ensures StrictlyAscending(e.msg.labels)
  {
    RollupsAlwaysAgree(events);
    ReadsAreCurrent(events, e);
    assert HasMessage(After(events), MessageKey(e.msg.inboxId, e.msg.messageId));
  }

  lemma ThreadSteps(events: seq<Event>, e: Event, k: Key)
    requires ValidRun(events) && CanCommit(events, e) && k.ThreadKey?
    ensures ThreadStep(After(events), Commit(After(events), e), e, k)
  {
    var a, b := After(events), Commit(After(events), e);
    match e
    case InsertEvent(msg, candidates, found, thread) =>
      var m := Resolved(msg, candidates, found);
      InsertAdds(events, e);
      AddStep(a, b, e, k, m, StoredMessage(m, ThreadFor(m, thread)), thread);
    case EnqueueEvent(msg, _, _, thread, _, _) =>
      EnqueueAdds(events, e);
      AddStep(a, b, e, k, msg, StoredMessage(msg, ThreadFor(msg, thread)), thread);
    case ClaimEvent(_, _) =>
      StateStepsKeepThreads(events, e);
      assert Lookup(b, k) == Lookup(a, k);
    case NoteEvent(_, _) =>
      StateStepsKeepThreads(events, e);
      assert Lookup(b, k) == Lookup(a, k);
    case MarkEvent(s, outcome, msg, thread, now, _) =>
      MessageIsSorted(events, e);
      MarkRelabels(events, e);
      RelabelStep(a, b, e, k, msg, Amended(msg, MarkPatch(s, msg, outcome, now)),
                  MarkAdded(msg, outcome), MarkRemoved(msg, outcome), thread, now);
    case PatchEvent(msg, add, remove, t, now) =>
      MessageIsSorted(events, e);
      PatchRelabels(events, e);
      var patch := Patched(msg.labels, add, remove);
      RelabelStep(a, b, e, k, msg, Amended(msg, LabelPatchOf(msg, add, remove, now)), patch.added, patch.removed, Some(t), now);
  }

  /**
    The shown message is the last committed of those at the latest timestamp:
    every other message of the thread is older, or as old and committed before.
   */
  lemma {:induction false} ShownMessageIsNewest(events: seq<Event>, k: Key) returns (j: nat)
    requires ValidRun(events) && k.ThreadKey? && k in After(events) && After(events)[k].ThreadRow?
    ensures ShownFrom(events, k, After(events)[k].thread, j)
  {
    var init, e := events[..|events| - 1], events[|events| - 1];
    LastStep(events);
    var a, t' := After(init), After(events)[k].thread;
    ThreadSteps(init, e, k);
    if !AddsTo(e, k) || (k in a && a[k].ThreadRow? && Less(AddedMessage(e).value.timestamp, a[k].thread.timestamp)) {
      j := ShownMessageIsNewest(init, k);
      ShownStays(init, e, k, a[k].thread, t', j);
    } else {
      j := |events| - 1;
    }
  }
}
