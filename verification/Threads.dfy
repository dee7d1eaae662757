/**
  The thread roll-up: what one message, or one label change, does to the
  state of its thread.

  The functions say what each write computes; the methods below them build
  the same values the way the program does, one label at a time.
 */
module Threads {
  import opened Participants
  import opened Records
  import opened Text

  /** How many attachments a thread summarises. */
  const ATTACHMENT_SUMMARIES: nat := 20

  // ---------------------------------------------------------------------
  // Label roll-up
  // ---------------------------------------------------------------------

  /** How many of a thread's messages carry `name`. */
  function Count(counts: map<string, nat>, name: string): nat {
    if name in counts then counts[name] else 0
  }

  /** No entry is kept for a label nobody carries. */
  ghost predicate Positive(counts: map<string, nat>) {
    forall l :: l in counts ==> counts[l] > 0
  }

  /** The label list is the sorted key set of the counts. */
  ghost predicate InSync(labels: seq<string>, counts: map<string, nat>) {
    StrictlyAscending(labels) && forall l :: l in labels <==> l in counts
  }

  function AddLabel(labels: seq<string>, name: string): seq<string> {
    if name in labels then labels else InsertSorted(labels, name)
  }

  function AddLabels(labels: seq<string>, more: seq<string>): (r: seq<string>)
    ensures forall l :: l in r <==> l in labels || l in more
  {
    if more == [] then labels
    else
      assert more == more[..|more| - 1] + [more[|more| - 1]];
      AddLabel(AddLabels(labels, more[..|more| - 1]), more[|more| - 1])
  }

  function CountLabel(counts: map<string, nat>, name: string): map<string, nat> {
    counts[name := Count(counts, name) + 1]
  }

  function CountLabels(counts: map<string, nat>, more: seq<string>): map<string, nat> {
    if more == [] then counts
    else CountLabel(CountLabels(counts, more[..|more| - 1]), more[|more| - 1])
  }

  /** One carrier of `name` gone: its count falls, and at zero it leaves. */
  function ReleaseLabel(labels: seq<string>, counts: map<string, nat>, name: string)
    : (seq<string>, map<string, nat>)
  {
    if name !in counts then (labels, counts)
    else if counts[name] <= 1 then (Without(labels, name), counts - {name})
    else (labels, counts[name := counts[name] - 1])
  }

  function ReleaseLabels(labels: seq<string>, counts: map<string, nat>, gone: seq<string>)
    : (seq<string>, map<string, nat>)
  {
    if gone == [] then (labels, counts)
    else
      var (l, c) := ReleaseLabels(labels, counts, gone[..|gone| - 1]);
      ReleaseLabel(l, c, gone[|gone| - 1])
  }

  lemma {:induction false} AddLabelsAscends(labels: seq<string>, more: seq<string>)
    requires StrictlyAscending(labels)
    ensures StrictlyAscending(AddLabels(labels, more))
  {
    if more != [] {
      var before := AddLabels(labels, more[..|more| - 1]);
      AddLabelsAscends(labels, more[..|more| - 1]);
      if more[|more| - 1] !in before {
        InsertKeepsAscending(before, more[|more| - 1]);
      }
    }
  }

  /** Counting a duplicate-free list adds exactly one to each of its labels. */
  lemma {:induction false} CountLabelsAddsOne(counts: map<string, nat>, more: seq<string>)
    requires NoDuplicates(more)
    ensures forall l :: Count(CountLabels(counts, more), l) == Count(counts, l) + if l in more then 1 else 0
    ensures forall l :: l in CountLabels(counts, more) <==> l in counts || l in more
    ensures Positive(counts) ==> Positive(CountLabels(counts, more))
  {
    if more != [] {
      var init, last := more[..|more| - 1], more[|more| - 1];
      assert more == init + [last];
      assert last !in init;
      CountLabelsAddsOne(counts, init);
    }
  }

  /**
    Releasing a duplicate-free list of labels that all have a carrier takes
    exactly one from each: the saturating subtraction never saturates.
   */
  lemma {:induction false} ReleaseLabelsTakesOne(labels: seq<string>, counts: map<string, nat>, gone: seq<string>)
    requires NoDuplicates(gone)
    requires Positive(counts) && InSync(labels, counts)
    requires forall l :: l in gone ==> l in counts
    ensures var (labels', counts') := ReleaseLabels(labels, counts, gone);
            && Positive(counts') && InSync(labels', counts')
            && forall l :: Count(counts', l) == Count(counts, l) - if l in gone then 1 else 0
  {
    if gone != [] {
      var init, last := gone[..|gone| - 1], gone[|gone| - 1];
      assert gone == init + [last];
      assert last !in init;
      ReleaseLabelsTakesOne(labels, counts, init);
      var (l, c) := ReleaseLabels(labels, counts, init);
      assert Count(c, last) == Count(counts, last) > 0;
      WithoutKeepsAscending(l, last);
    }
  }

  // ---------------------------------------------------------------------
  // Thread states
  // ---------------------------------------------------------------------

  function LastOf(s: seq<Attachment>, n: nat): seq<Attachment> {
    if |s| <= n then s else s[|s| - n..]
  }

  function FirstOf(s: seq<Attachment>, n: nat): seq<Attachment> {
    if |s| <= n then s else s[..n]
  }

  /** The later of a running timestamp and a new one; ties go to the new. */
  function Later(current: Option<string>, timestamp: string): Option<string> {
    if current.Some? && Less(timestamp, current.value) then current else Some(timestamp)
  }

  /** The state of a thread holding only `msg`. */
  function Started(msg: Message): ThreadState {
    ThreadState(
      inboxId := msg.inboxId,
      threadId := msg.threadId,
      timestamp := msg.timestamp,
      subject := msg.subject,
      preview := msg.preview,
      senders := AddParticipant([], msg.from),
      recipients := AddParticipants([], msg.to + msg.cc + msg.bcc),
      labels := AddLabels([], msg.labels),
      labelCounts := CountLabels(map[], msg.labels),
      lastMessageId := msg.messageId,
      messageCount := 1,
      size := msg.size,
      receivedTimestamp := if msg.direction.Inbound? then Some(msg.timestamp) else None,
      sentTimestamp := if msg.direction.Outbound? then Some(msg.timestamp) else None,
      attachments := FirstOf(msg.attachments, ATTACHMENT_SUMMARIES),
      version := 0,
      createdAt := msg.createdAt,
      updatedAt := msg.updatedAt,
      expiresAt := msg.expiresAt)
  }

  /** The state of `thread` once `msg` has joined it. */
  function Joined(thread: ThreadState, msg: Message): ThreadState {
    var newest := !Less(msg.timestamp, thread.timestamp);
    thread.(
      timestamp := if newest then msg.timestamp else thread.timestamp,
      lastMessageId := if newest then msg.messageId else thread.lastMessageId,
      preview := if newest then msg.preview else thread.preview,
      senders := AddParticipant(thread.senders, msg.from),
      recipients := AddParticipants(thread.recipients, msg.to + msg.cc + msg.bcc),
      labels := AddLabels(thread.labels, msg.labels),
      labelCounts := CountLabels(thread.labelCounts, msg.labels),
      messageCount := thread.messageCount + 1,
      size := thread.size + msg.size,
      receivedTimestamp := if msg.direction.Inbound? then Later(thread.receivedTimestamp, msg.timestamp) else thread.receivedTimestamp,
      sentTimestamp := if msg.direction.Outbound? then Later(thread.sentTimestamp, msg.timestamp) else thread.sentTimestamp,
      attachments := LastOf(thread.attachments + msg.attachments, ATTACHMENT_SUMMARIES),
      version := thread.version + 1,
      updatedAt := msg.updatedAt,
      expiresAt := if msg.expiresAt > thread.expiresAt then msg.expiresAt else thread.expiresAt)
  }

  /** The state of `thread` once one of its messages has been relabelled. */
  function Relabelled(thread: ThreadState, added: seq<string>, removed: seq<string>, now: string): ThreadState {
    var (labels, counts) :=
      ReleaseLabels(AddLabels(thread.labels, added), CountLabels(thread.labelCounts, added), removed);
    thread.(labels := labels, labelCounts := counts, version := thread.version + 1, updatedAt := now)
  }

  /** The thread `msg` lands in: one it starts, or one it joins. */
  function ThreadFor(msg: Message, before: Option<ThreadState>): ThreadState {
    if before.None? then Started(msg) else Joined(before.value, msg)
  }

  function Shown(listed: seq<Participant>): seq<Participant> {
    if |listed| <= SNAPSHOT_ADDRESS_CAP then listed else listed[..SNAPSHOT_ADDRESS_CAP]
  }

  function Snapshot(thread: ThreadState): ThreadSnapshot {
    ThreadSnapshot(
      thread.threadId, thread.subject, thread.preview, thread.messageCount, thread.labels,
      Shown(thread.senders), Shown(thread.recipients),
      thread.timestamp, thread.createdAt, thread.updatedAt, thread.lastMessageId, thread.size,
      thread.receivedTimestamp, thread.sentTimestamp, thread.attachments)
  }

  // ---------------------------------------------------------------------
  // The loops that build them
  // ---------------------------------------------------------------------

  /** The two label roll-ups, advanced together over one list. */
  method RollUp(labels: seq<string>, counts: map<string, nat>, more: seq<string>)
    returns (labels': seq<string>, counts': map<string, nat>)
    ensures labels' == AddLabels(labels, more)
    ensures counts' == CountLabels(counts, more)
  {
    labels', counts' := labels, counts;
    for i := 0 to |more|
      invariant labels' == AddLabels(labels, more[..i])
      invariant counts' == CountLabels(counts, more[..i])
    {
      assert more[..i + 1][..i] == more[..i];
      labels' := AddLabel(labels', more[i]);
      counts' := CountLabel(counts', more[i]);
    }
    assert more[..|more|] == more;
  }

  /** Appends `more`, then drops from the front until the cap is met. */
  method AppendAttachments(attachments: seq<Attachment>, more: seq<Attachment>) returns (r: seq<Attachment>)
    ensures r == LastOf(attachments + more, ATTACHMENT_SUMMARIES)
  {
    r := attachments;
    for i := 0 to |more|
      invariant r == attachments + more[..i]
    {
      r := r + [more[i]];
    }
    ghost var all := attachments + more;
    while |r| > ATTACHMENT_SUMMARIES
      invariant |r| <= |all| && r == all[|all| - |r|..]
      invariant |r| < |all| ==> |r| >= ATTACHMENT_SUMMARIES
    {
      r := r[1..];
    }
  }

  method NewThread(msg: Message) returns (thread: ThreadState)
    ensures thread == Started(msg)
  {
    var recipients := AddAll([], msg.to + msg.cc + msg.bcc);
    var labels, counts := RollUp([], map[], msg.labels);
    thread := ThreadState(
      inboxId := msg.inboxId,
      threadId := msg.threadId,
      timestamp := msg.timestamp,
      subject := msg.subject,
      preview := msg.preview,
      senders := AddParticipant([], msg.from),
      recipients := recipients,
      labels := labels,
      labelCounts := counts,
      lastMessageId := msg.messageId,
      messageCount := 1,
      size := msg.size,
      receivedTimestamp := if msg.direction.Inbound? then Some(msg.timestamp) else None,
      sentTimestamp := if msg.direction.Outbound? then Some(msg.timestamp) else None,
      attachments := FirstOf(msg.attachments, ATTACHMENT_SUMMARIES),
      version := 0,
      createdAt := msg.createdAt,
      updatedAt := msg.updatedAt,
      expiresAt := msg.expiresAt);
  }

  /** The direction timestamps once `msg` has joined. */
  method AdvanceDirection(existing: ThreadState, msg: Message) returns (received: Option<string>, sent: Option<string>)
    ensures received == if msg.direction.Inbound? then Later(existing.receivedTimestamp, msg.timestamp) else existing.receivedTimestamp
    ensures sent == if msg.direction.Outbound? then Later(existing.sentTimestamp, msg.timestamp) else existing.sentTimestamp
  {
    received, sent := existing.receivedTimestamp, existing.sentTimestamp;
    if msg.direction.Inbound? {
      if received.None? || !Less(msg.timestamp, received.value) {
        received := Some(msg.timestamp);
      }
    } else {
      if sent.None? || !Less(msg.timestamp, sent.value) {
        sent := Some(msg.timestamp);
      }
    }
  }

  method ApplyMessage(existing: ThreadState, msg: Message) returns (next: ThreadState)
    ensures next == Joined(existing, msg)
  {
    var recipients := AddAll(existing.recipients, msg.to + msg.cc + msg.bcc);
    var labels, counts := RollUp(existing.labels, existing.labelCounts, msg.labels);
    var received, sent := AdvanceDirection(existing, msg);
    var attachments := AppendAttachments(existing.attachments, msg.attachments);
    var newest := !Less(msg.timestamp, existing.timestamp);
    ghost var joined := Joined(existing, msg);
    assert labels == joined.labels && counts == joined.labelCounts;
    next := existing.(
      timestamp := if newest then msg.timestamp else existing.timestamp,
      lastMessageId := if newest then msg.messageId else existing.lastMessageId,
      preview := if newest then msg.preview else existing.preview,
      senders := AddParticipant(existing.senders, msg.from),
      recipients := recipients,
      labels := labels,
      labelCounts := counts,
      messageCount := existing.messageCount + 1,
      size := existing.size + msg.size,
      receivedTimestamp := received,
      sentTimestamp := sent,
      attachments := attachments,
      version := existing.version + 1,
      updatedAt := msg.updatedAt,
      expiresAt := if msg.expiresAt > existing.expiresAt then msg.expiresAt else existing.expiresAt);
  }

  method ApplyLabelPatch(existing: ThreadState, added: seq<string>, removed: seq<string>, now: string)
    returns (next: ThreadState)
    ensures next == Relabelled(existing, added, removed, now)
  {
    var labels, counts := RollUp(existing.labels, existing.labelCounts, added);
    ghost var withAdded := (labels, counts);
    for i := 0 to |removed|
      invariant (labels, counts) == ReleaseLabels(withAdded.0, withAdded.1, removed[..i])
    {
      assert removed[..i + 1][..i] == removed[..i];
      var name := removed[i];
      if name !in counts {
        continue;
      }
      var count := if counts[name] >= 1 then counts[name] - 1 else 0;
      if count == 0 {
        counts := counts - {name};
        labels := Without(labels, name);
      } else {
        counts := counts[name := count];
      }
    }
    assert removed[..|removed|] == removed;
    next := existing.(labels := labels, labelCounts := counts, version := existing.version + 1, updatedAt := now);
  }
}
