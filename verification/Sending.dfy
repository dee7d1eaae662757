/**
  Sending at most once: the life of a send state over any run, with any
  number of senders, sweeps and operators acting at once.
 */
module Sending {
  import opened Effects
  import opened Labels
  import opened Linear
  import opened Newest
  import opened Plan
  import opened Records
  import opened Rollups
  import opened Runs
  import opened Sends
  import opened Threads

  // ---------------------------------------------------------------------
  // What one commit does to a send state and to its message
  // ---------------------------------------------------------------------

  /** The send-state row at `k` once `e` has committed. */
  function NextState(e: Event, k: Key, row: Option<Row>): Option<Row> {
    match e
    case InsertEvent(_, _, _, _) => row
    case EnqueueEvent(_, s, _, _, _, _) => if k == StateKey(s.messageId) then Some(StateRow(s)) else row
    case ClaimEvent(before, now) => if k == StateKey(before.messageId) then Some(StateRow(ClaimedState(before, now))) else row
    case NoteEvent(claimed, now) => if k == StateKey(claimed.messageId) then Some(StateRow(CallingState(claimed, now))) else row
    case MarkEvent(s, outcome, msg, _, now, _) =>
      if k == StateKey(s.messageId) then Some(StateRow(MarkedState(s, msg, outcome, now))) else row
    case PatchEvent(_, _, _, _, _) => row
  }

  lemma WrittenState(db: Db, e: Event, k: Key)
    requires k.StateKey?
    ensures Lookup(db + Written(db, e), k) == NextState(e, k, Lookup(db, k))
  {
    match e
    case InsertEvent(_, _, _, _) =>
    case EnqueueEvent(_, _, _, _, _, _) =>
    case ClaimEvent(_, _) =>
    case NoteEvent(_, _) =>
    case MarkEvent(_, _, _, _, _, _) =>
    case PatchEvent(_, _, _, _, _) =>
  }

  lemma StateStep(events: seq<Event>, e: Event, k: Key)
    requires ValidRun(events) && CanCommit(events, e) && k.StateKey?
    ensures Lookup(Commit(After(events), e), k) == NextState(e, k, Lookup(After(events), k))
  {
    Step(events, e);
    WrittenState(After(events), e, k);
    assert Lookup(Commit(After(events), e), k) == Lookup(After(events) + Written(After(events), e), k);
  }

  /** A stored message keeps its filing; only a mark moves its mirrored status. */
  ghost predicate KeepsMessage(a: Db, b: Db, e: Event, k: Key) {
    && HasMessage(a, k) && HasMessage(b, k) && SameFiling(a[k].msg, b[k].msg)
    && b[k].msg.sendStatus ==
         if e.MarkEvent? && k == MessageKey(e.msg.inboxId, e.msg.messageId)
         then Some(MarkedState(e.state, e.msg, e.outcome, e.now).status) else a[k].msg.sendStatus
  }

  lemma AddKeepsMessage(a: Db, b: Db, e: Event, k: Key, m: Message, stored: Message, before: Option<ThreadState>)
    requires AddsMessage(a, b, m, stored, before) && HasMessage(a, k) && !e.MarkEvent?
    ensures KeepsMessage(a, b, e, k)
  {
    assert Lookup(b, k) == Lookup(a, k);
  }

  lemma RelabelKeepsMessage(a: Db, b: Db, e: Event, k: Key, m: Message, m': Message, added: seq<string>, removed: seq<string>,
                            thread: Option<ThreadState>, now: string)
    requires RelabelsMessage(a, b, m, m', added, removed, thread, now) && HasMessage(a, k)
    requires e.MarkEvent? ==> e.msg == m && m'.sendStatus == Some(MarkedState(e.state, e.msg, e.outcome, e.now).status)
    requires !e.MarkEvent? ==> m'.sendStatus == m.sendStatus
    ensures KeepsMessage(a, b, e, k)
  {
    if k != MessageKey(m.inboxId, m.messageId) {
      assert Lookup(b, k) == Lookup(a, k);
    }
  }

  lemma MessageStep(events: seq<Event>, e: Event, k: Key)
    requires ValidRun(events) && CanCommit(events, e) && HasMessage(After(events), k)
    ensures KeepsMessage(After(events), Commit(After(events), e), e, k)
  {
    var a, b := After(events), Commit(After(events), e);
    match e
    case InsertEvent(msg, candidates, found, thread) =>
      var m := Resolved(msg, candidates, found);
      InsertAdds(events, e);
      AddKeepsMessage(a, b, e, k, m, StoredMessage(m, ThreadFor(m, thread)), thread);
    case EnqueueEvent(msg, _, _, thread, _, _) =>
      EnqueueAdds(events, e);
      AddKeepsMessage(a, b, e, k, msg, StoredMessage(msg, ThreadFor(msg, thread)), thread);
    case ClaimEvent(_, _) =>
      StateStepsKeepThreads(events, e);
      assert Lookup(b, k) == Lookup(a, k);
    case NoteEvent(_, _) =>
      StateStepsKeepThreads(events, e);
      assert Lookup(b, k) == Lookup(a, k);
    case MarkEvent(s, outcome, msg, thread, now, _) =>
      MessageIsSorted(events, e);
      MarkRelabels(events, e);
      RelabelKeepsMessage(a, b, e, k, msg, Amended(msg, MarkPatch(s, msg, outcome, now)),
                          MarkAdded(msg, outcome), MarkRemoved(msg, outcome), thread, now);
    case PatchEvent(msg, add, remove, t, now) =>
      MessageIsSorted(events, e);
      PatchRelabels(events, e);
      var patch := Patched(msg.labels, add, remove);
      RelabelKeepsMessage(a, b, e, k, msg, Amended(msg, LabelPatchOf(msg, add, remove, now)), patch.added, patch.removed, Some(t), now);
  }

  // ---------------------------------------------------------------------
  // The send-state machine
  // ---------------------------------------------------------------------

  predicate HasState(db: Db, k: Key) {
    k in db && k.StateKey? && db[k].StateRow?
  }

  /** The message of a send: it exists, in the send's thread, mirroring its status. */
  ghost predicate Mirrors(db: Db, s: SendState) {
    var mk := MessageKey(s.inboxId, s.messageId);
    && HasMessage(db, mk)
    && db[mk].msg.threadId == s.threadId
    && db[mk].msg.sendStatus == Some(Mirrored(s.status))
  }

  ghost predicate SendsAgree(db: Db) {
    forall k :: HasState(db, k) ==> WellFormedState(db[k].state) && Mirrors(db, db[k].state)
  }

  lemma NextStateIsWellFormed(e: Event, k: Key, row: Option<Row>, s: SendState)
    requires NextState(e, k, row) == Some(StateRow(s))
    requires row.Some? && row.value.StateRow? ==> WellFormedState(row.value.state)
    requires e.EnqueueEvent? ==> e.state.status == Queued && WellFormedState(e.state)
    requires e.ClaimEvent? && k == StateKey(e.before.messageId) ==> row == Some(StateRow(e.before)) && e.before.status == Queued
    requires e.NoteEvent? && k == StateKey(e.claimed.messageId) ==> row == Some(StateRow(e.claimed)) && e.claimed.status == Sending
    requires e.MarkEvent? && k == StateKey(e.state.messageId) ==> row == Some(StateRow(e.state)) && MarksFrom(e.state.status, e.outcome)
    ensures WellFormedState(s)
  {
  }

  /** An event's own checks put its claimed state in `sending`. */
  lemma NotedStateIsSending(events: seq<Event>, e: Event)
    requires ValidRun(events) && CanCommit(events, e) && e.NoteEvent?
    ensures e.claimed.status == Sending && e.claimed.sesCallAt == None
  {
    ReadyNow(events, e);
    var i :| 0 <= i < |events| && events[i].ClaimEvent? && e.claimed == ClaimedState(events[i].before, events[i].now);
  }

  lemma StateStaysWellFormed(events: seq<Event>, e: Event, k: Key)
    requires ValidRun(events) && CanCommit(events, e) && SendsAgree(After(events))
    requires HasState(Commit(After(events), e), k)
    ensures WellFormedState(Commit(After(events), e)[k].state)
  {
    ReadyNow(events, e);
    var a, b := After(events), Commit(After(events), e);
    ReadsAreCurrent(events, e);
    StateStep(events, e, k);
    if e.NoteEvent? { NotedStateIsSending(events, e); }
    NextStateIsWellFormed(e, k, Lookup(a, k), b[k].state);
  }

  lemma NewSendMirrors(events: seq<Event>, e: Event)
    requires ValidRun(events) && CanCommit(events, e) && e.EnqueueEvent?
    ensures Mirrors(Commit(After(events), e), e.state)
  {
    ReadyNow(events, e);
    EnqueueAdds(events, e);
  }

  /** Statuses move in step: the send's, and what its message mirrors. */
  lemma StatusesMoveTogether(e: Event, k: Key, s: SendState, s': SendState)
    requires NextState(e, k, Some(StateRow(s))) == Some(StateRow(s')) && !e.EnqueueEvent? && k == StateKey(s.messageId)
    requires e.ClaimEvent? && k == StateKey(e.before.messageId) ==> s == e.before && s.status == Queued
    requires e.NoteEvent? && k == StateKey(e.claimed.messageId) ==> s == e.claimed
    requires e.MarkEvent? && k == StateKey(e.state.messageId) ==> s == e.state
    ensures s'.inboxId == s.inboxId && s'.messageId == s.messageId && s'.threadId == s.threadId
    ensures e.MarkEvent? && k == StateKey(e.state.messageId) ==>
              s' == MarkedState(s, e.msg, e.outcome, e.now) && s'.status != Sending
    ensures !(e.MarkEvent? && k == StateKey(e.state.messageId)) ==> Mirrored(s'.status) == Mirrored(s.status)
  {
  }

  lemma OldSendMirrors(events: seq<Event>, e: Event, k: Key)
    requires ValidRun(events) && CanCommit(events, e) && SendsAgree(After(events))
    requires HasState(After(events), k) && HasState(Commit(After(events), e), k)
    requires !(e.EnqueueEvent? && k == StateKey(e.state.messageId))
    ensures Mirrors(Commit(After(events), e), Commit(After(events), e)[k].state)
  {
    var a, b := After(events), Commit(After(events), e);
    var s := a[k].state;
    var mk := MessageKey(s.inboxId, s.messageId);
    Step(events, e);
    assert KeyOf(a[k]) == k && KeyOf(b[k]) == k;
    StateStep(events, e, k);
    MessageStep(events, e, mk);
    if !e.EnqueueEvent? { StatusesMoveTogether(e, k, s, b[k].state); }
  }

  lemma StepKeepsSends(events: seq<Event>, e: Event)
    requires ValidRun(events) && CanCommit(events, e) && SendsAgree(After(events))
    ensures SendsAgree(Commit(After(events), e))
  {
    var a, b := After(events), Commit(After(events), e);
    forall k | HasState(b, k) ensures WellFormedState(b[k].state) && Mirrors(b, b[k].state) {
      StateStaysWellFormed(events, e, k);
      StateStep(events, e, k);
      if e.EnqueueEvent? && k == StateKey(e.state.messageId) {
        NewSendMirrors(events, e);
      } else {
        StateWasThere(events, e, k);
        OldSendMirrors(events, e, k);
      }
    }
  }

  lemma StateWasThere(events: seq<Event>, e: Event, k: Key)
    requires ValidRun(events) && CanCommit(events, e) && HasState(Commit(After(events), e), k)
    requires !(e.EnqueueEvent? && k == StateKey(e.state.messageId))
    ensures HasState(After(events), k)
  {
    Step(events, e);
    StateStep(events, e, k);
  }

  /** The send-state machine holds in every reachable state. */
  lemma {:induction false} SendsAlwaysAgree(events: seq<Event>)
    requires ValidRun(events)
    ensures SendsAgree(After(events))
  {
    if events != [] {
      LastStep(events);
      SendsAlwaysAgree(events[..|events| - 1]);
      StepKeepsSends(events[..|events| - 1], events[|events| - 1]);
    }
  }

  /** The message item never shows `sending`. */
  lemma {:induction false} MirrorIsNeverSending(events: seq<Event>, k: Key)
    requires ValidRun(events) && HasMessage(After(events), k)
    ensures After(events)[k].msg.sendStatus != Some(Sending)
  {
    LastStep(events);
    if HasMessage(After(events[..|events| - 1]), k) {
      MirrorIsNeverSending(events[..|events| - 1], k);
    }
    MirrorStep(events[..|events| - 1], events[|events| - 1], k);
  }

  lemma MirrorStep(events: seq<Event>, e: Event, k: Key)
    requires ValidRun(events) && CanCommit(events, e) && HasMessage(Commit(After(events), e), k)
    requires HasMessage(After(events), k) ==> After(events)[k].msg.sendStatus != Some(Sending)
    ensures Commit(After(events), e)[k].msg.sendStatus != Some(Sending)
  {
    if HasMessage(After(events), k) {
      MessageStep(events, e, k);
      KeptMirror(After(events), Commit(After(events), e), e, k);
    } else {
      NewMessageMirror(events, e, k);
    }
  }

  lemma KeptMirror(a: Db, b: Db, e: Event, k: Key)
    requires KeepsMessage(a, b, e, k) && a[k].msg.sendStatus != Some(Sending)
    ensures b[k].msg.sendStatus != Some(Sending)
  {
    if e.MarkEvent? { MarksLeaveSending(e.state, e.msg, e.outcome, e.now); }
  }

  lemma MarksLeaveSending(s: SendState, msg: Message, outcome: MarkOutcome, now: string)
    ensures MarkedState(s, msg, outcome, now).status != Sending
  {
  }

  lemma NewMessageMirror(events: seq<Event>, e: Event, k: Key)
    requires ValidRun(events) && CanCommit(events, e)
    requires !HasMessage(After(events), k) && HasMessage(Commit(After(events), e), k)
    ensures Commit(After(events), e)[k].msg.sendStatus != Some(Sending)
    ensures (e.InsertEvent? || e.EnqueueEvent?) && k == MessageKey(e.msg.inboxId, e.msg.messageId)
  {
    ReadyNow(events, e);
    var a, b := After(events), Commit(After(events), e);
    Step(events, e);
    if e.InsertEvent? {
      InsertAdds(events, e);
    } else if e.EnqueueEvent? {
      EnqueueAdds(events, e);
    } else if e.ClaimEvent? || e.NoteEvent? {
      StateStepsKeepThreads(events, e);
    } else {
      MessageIsSorted(events, e);
      if e.MarkEvent? { MarkRelabels(events, e); } else { PatchRelabels(events, e); }
    }
    assert k != MessageKeyOf(e) ==> Lookup(b, k) == Lookup(a, k);
  }

  /** The message an event is about; any key for a claim or note. */
  function MessageKeyOf(e: Event): Key {
    match e
    case InsertEvent(m, _, _, _) => MessageKey(m.inboxId, m.messageId)
    case EnqueueEvent(m, _, _, _, _, _) => MessageKey(m.inboxId, m.messageId)
    case ClaimEvent(s, _) => StateKey(s.messageId)
    case NoteEvent(s, _) => StateKey(s.messageId)
    case MarkEvent(_, _, m, _, _, _) => MessageKey(m.inboxId, m.messageId)
    case PatchEvent(m, _, _, _, _) => MessageKey(m.inboxId, m.messageId)
  }

  /** What the `ByStatus` index lists under `status`. */
  ghost function StatusIndex(db: Db, status: SendStatus): set<Key> {
    set k | k in db && HasState(db, k) && StatusPartition(db[k].state) == Some(status)
  }

  /** The index lists exactly the sends in that status that have no TTL yet. */
  lemma IndexListsUnsettled(events: seq<Event>, status: SendStatus, k: Key)
    requires ValidRun(events)
    ensures k in StatusIndex(After(events), status) <==>
              HasState(After(events), k) && After(events)[k].state.status == status && After(events)[k].state.expiresAt == None
  {
    SendsAlwaysAgree(events);
  }

  /** Every return to `queued` makes `requeued_at` appear, which is what wakes the sender. */
  lemma RequeueAlwaysWakesTheSender(events: seq<Event>, i: nat, k: Key)
    requires ValidRun(events) && i < |events|
    requires HasState(After(events[..i]), k) && HasState(After(events[..i + 1]), k)
    requires After(events[..i])[k].state.status != Queued && After(events[..i + 1])[k].state.status == Queued
    ensures After(events[..i])[k].state.requeuedAt == None && After(events[..i + 1])[k].state.requeuedAt.Some?
    ensures events[i].MarkEvent? && (events[i].outcome.MarkReleased? || events[i].outcome.MarkResumed?)
  {
    StepAt(events, i);
    RequeueStep(events[..i], events[i], k);
  }

  lemma RequeueStep(events: seq<Event>, e: Event, k: Key)
    requires ValidRun(events) && CanCommit(events, e)
    requires HasState(After(events), k) && HasState(Commit(After(events), e), k)
    requires After(events)[k].state.status != Queued && Commit(After(events), e)[k].state.status == Queued
    ensures After(events)[k].state.requeuedAt == None && Commit(After(events), e)[k].state.requeuedAt.Some?
    ensures e.MarkEvent? && (e.outcome.MarkReleased? || e.outcome.MarkResumed?)
  {
    SendsAlwaysAgree(events);
    Step(events, e);
    StateStep(events, e, k);
    OnlyMarksRequeue(e, k, After(events)[k].state, Commit(After(events), e)[k].state);
  }

  lemma OnlyMarksRequeue(e: Event, k: Key, s: SendState, s': SendState)
    requires NextState(e, k, Some(StateRow(s))) == Some(StateRow(s')) && WellFormedState(s)
    requires s.status != Queued && s'.status == Queued
    requires e.EnqueueEvent? ==> k != StateKey(e.state.messageId)
    requires e.ClaimEvent? && k == StateKey(e.before.messageId) ==> s.status == Queued
    requires e.NoteEvent? && k == StateKey(e.claimed.messageId) ==> s == e.claimed
    ensures s.requeuedAt == None && s'.requeuedAt.Some?
    ensures e.MarkEvent? && (e.outcome.MarkReleased? || e.outcome.MarkResumed?)
  {
  }

  // ---------------------------------------------------------------------
  // One permit per claim
  // ---------------------------------------------------------------------

  predicate Claims(e: Event, messageId: string, version: nat) {
    e.ClaimEvent? && e.before.messageId == messageId && e.before.version == version
  }

  predicate NotesClaim(e: Event, messageId: string, version: nat) {
    e.NoteEvent? && e.claimed.messageId == messageId && e.claimed.version == version
  }

  lemma StateWrites(events: seq<Event>, i: nat, messageId: string, version: nat)
    requires i < |events| && (Claims(events[i], messageId, version) || NotesClaim(events[i], messageId, version))
    ensures WritesVersion(events, i, StateKey(messageId), version + 1)
  {
  }

  /** Each queued version is claimed by one sender at most. */
  lemma QueuedVersionClaimedOnce(events: seq<Event>, i: nat, j: nat, messageId: string, version: nat)
    requires ValidRun(events) && i < |events| && j < |events|
    requires Claims(events[i], messageId, version) && Claims(events[j], messageId, version)
    ensures i == j
  {
    StateWrites(events, i, messageId, version);
    StateWrites(events, j, messageId, version);
    OneWriterPerVersion(events, i, j, StateKey(messageId), version + 1);
  }

  /** Each claim passes the note before the SES call at most once. */
  lemma ClaimNotedOnce(events: seq<Event>, i: nat, j: nat, messageId: string, version: nat)
    requires ValidRun(events) && i < |events| && j < |events|
    requires NotesClaim(events[i], messageId, version) && NotesClaim(events[j], messageId, version)
    ensures i == j
  {
    StateWrites(events, i, messageId, version);
    StateWrites(events, j, messageId, version);
    OneWriterPerVersion(events, i, j, StateKey(messageId), version + 1);
  }

  predicate IsNote(e: Event, messageId: string) {
    e.NoteEvent? && e.claimed.messageId == messageId
  }

  /** A mark that hands the send back for another attempt. */
  predicate IsHandBack(e: Event, messageId: string) {
    e.MarkEvent? && e.state.messageId == messageId && (e.outcome.MarkReleased? || e.outcome.MarkResumed?)
  }

  /** Queued or claimed, and not handed to a SES call since it was queued. */
  predicate MayCall(row: Option<Row>) {
    && row.Some? && row.value.StateRow?
    && row.value.state.sesCallAt == None && (row.value.state.status == Queued || row.value.state.status == Sending)
  }

  predicate MayStillCall(db: Db, messageId: string) {
    MayCall(Lookup(db, StateKey(messageId)))
  }

  function Notes(events: seq<Event>, messageId: string): nat {
    if events == [] then 0
    else Notes(events[..|events| - 1], messageId) + if IsNote(events[|events| - 1], messageId) then 1 else 0
  }

  function HandBacks(events: seq<Event>, messageId: string): nat {
    if events == [] then 0
    else HandBacks(events[..|events| - 1], messageId) + if IsHandBack(events[|events| - 1], messageId) then 1 else 0
  }

  /** The permission, and what becomes of it, told from the state row alone. */
  lemma PermitNext(e: Event, messageId: string, row: Option<Row>)
    requires row.Some? ==> row.value.StateRow? && row.value.state.messageId == messageId && WellFormedState(row.value.state)
    requires e.EnqueueEvent? && e.state.messageId == messageId ==> row.None?
    requires e.ClaimEvent? && e.before.messageId == messageId ==> row == Some(StateRow(e.before)) && e.before.status == Queued
    requires IsNote(e, messageId) ==> row == Some(StateRow(e.claimed)) && e.claimed.status == Sending && e.claimed.sesCallAt == None
    requires e.MarkEvent? && e.state.messageId == messageId ==> row == Some(StateRow(e.state))
    ensures IsNote(e, messageId) ==> MayCall(row) && !MayCall(NextState(e, StateKey(messageId), row))
    ensures MayCall(NextState(e, StateKey(messageId), row)) ==>
              MayCall(row) || IsHandBack(e, messageId) || (e.EnqueueEvent? && e.state.messageId == messageId)
    ensures row.None? ==> !IsNote(e, messageId) && !IsHandBack(e, messageId)
  {
  }

  lemma StateRowIsSound(events: seq<Event>, messageId: string)
    requires ValidRun(events)
    ensures var row := Lookup(After(events), StateKey(messageId));
            row.Some? ==> row.value.StateRow? && row.value.state.messageId == messageId && WellFormedState(row.value.state)
  {
    SendsAlwaysAgree(events);
    RunGrows(events, 0);
    if StateKey(messageId) in After(events) { assert KeyOf(After(events)[StateKey(messageId)]) == StateKey(messageId); }
  }

  /** What each commit does to the permission to call SES. */
  lemma PermitStep(events: seq<Event>, e: Event, messageId: string)
    requires ValidRun(events) && CanCommit(events, e)
    ensures IsNote(e, messageId) ==> MayStillCall(After(events), messageId) && !MayStillCall(Commit(After(events), e), messageId)
    ensures MayStillCall(Commit(After(events), e), messageId) ==>
              MayStillCall(After(events), messageId) || IsHandBack(e, messageId)
              || (e.EnqueueEvent? && e.state.messageId == messageId)
    ensures e.EnqueueEvent? && e.state.messageId == messageId ==> StateKey(messageId) !in After(events)
    ensures StateKey(messageId) !in After(events) ==> !IsNote(e, messageId) && !IsHandBack(e, messageId)
  {
    var k := StateKey(messageId);
    Step(events, e);
    StateRowIsSound(events, messageId);
    StateStep(events, e, k);
    if IsNote(e, messageId) { NotedStateIsSending(events, e); }
    PermitNext(e, messageId, Lookup(After(events), k));
  }

  lemma {:induction false} NothingBeforeEnqueue(events: seq<Event>, messageId: string)
    requires ValidRun(events) && StateKey(messageId) !in After(events)
    ensures Notes(events, messageId) == 0 && HandBacks(events, messageId) == 0
  {
    if events != [] {
      var init, e := events[..|events| - 1], events[|events| - 1];
      LastStep(events);
      AbsentBefore(init, e, StateKey(messageId));
      PermitStep(init, e, messageId);
      NothingBeforeEnqueue(init, messageId);
    }
  }

  lemma AbsentBefore(init: seq<Event>, e: Event, k: Key)
    requires ValidRun(init) && CanCommit(init, e) && k !in Commit(After(init), e)
    ensures k !in After(init)
  {
    Step(init, e);
  }

  /**
    At most one SES-call permit per time the send was queued: one for the
    enqueue, and one more for each release or operator resend.
   */
  lemma {:induction false} PermitsAreBounded(events: seq<Event>, messageId: string)
    requires ValidRun(events)
    ensures Notes(events, messageId) <= HandBacks(events, messageId) + 1
    ensures MayStillCall(After(events), messageId) ==> Notes(events, messageId) <= HandBacks(events, messageId)
  {
    if events != [] {
      var init, e := events[..|events| - 1], events[|events| - 1];
      LastStep(events);
      PermitsAreBounded(init, messageId);
      PermitStep(init, e, messageId);
      if e.EnqueueEvent? && e.state.messageId == messageId {
        NothingBeforeEnqueue(init, messageId);
      }
    }
  }

  /** Between two permits for one message, it was released or resumed. */
  lemma {:induction false} HandBackBetweenNotes(events: seq<Event>, i: nat, n: nat, messageId: string)
    requires ValidRun(events) && i < n <= |events| && IsNote(events[i], messageId)
    requires MayStillCall(After(events[..n]), messageId)
    ensures exists h :: i < h < n && IsHandBack(events[h], messageId)
    decreases n
  {
    StepAt(events, n - 1);
    PermitStep(events[..n - 1], events[n - 1], messageId);
    if n - 1 > i && !IsHandBack(events[n - 1], messageId) {
      if MayStillCall(After(events[..n - 1]), messageId) {
        HandBackBetweenNotes(events, i, n - 1, messageId);
      } else {
        StoredAfterNote(events, i, n - 1, messageId);
      }
    }
  }

  lemma StoredAfterNote(events: seq<Event>, i: nat, n: nat, messageId: string)
    requires ValidRun(events) && i < n <= |events| && IsNote(events[i], messageId)
    ensures StateKey(messageId) in After(events[..n])
  {
    StepAt(events, i);
    PermitStep(events[..i], events[i], messageId);
    PrefixValid(events, n);
    assert events[..n][..i] == events[..i];
    RunGrows(events[..n], i);
  }

  /** Two permits for one message always have a release or resend between them. */
  lemma SecondPermitNeedsHandBack(events: seq<Event>, i: nat, j: nat, messageId: string)
    requires ValidRun(events) && i < j < |events|
    requires IsNote(events[i], messageId) && IsNote(events[j], messageId)
    ensures exists h :: i < h < j && IsHandBack(events[h], messageId)
  {
    StepAt(events, j);
    PermitStep(events[..j], events[j], messageId);
    HandBackBetweenNotes(events, i, j, messageId);
  }

  // ---------------------------------------------------------------------
  // Failed attempts
  // ---------------------------------------------------------------------

  /** Releases of the send since it was enqueued or an operator last resumed it. */
  function FailedTries(events: seq<Event>, messageId: string): nat {
    if events == [] then 0
    else TriesAfter(events[|events| - 1], messageId, FailedTries(events[..|events| - 1], messageId))
  }

  function TriesAfter(e: Event, messageId: string, before: nat): nat {
    if e.EnqueueEvent? && e.state.messageId == messageId then 0
    else if e.MarkEvent? && e.state.messageId == messageId && e.outcome.MarkReleased? then before + 1
    else if e.MarkEvent? && e.state.messageId == messageId && e.outcome.MarkResumed? then 0
    else before
  }

  lemma TriesNext(e: Event, messageId: string, s: SendState, s': SendState)
    requires NextState(e, StateKey(messageId), Some(StateRow(s))) == Some(StateRow(s'))
    requires !(e.EnqueueEvent? && e.state.messageId == messageId)
    requires e.ClaimEvent? && e.before.messageId == messageId ==> s == e.before
    requires e.NoteEvent? && e.claimed.messageId == messageId ==> s == e.claimed
    requires e.MarkEvent? && e.state.messageId == messageId ==> s == e.state
    ensures s'.transientFailures == TriesAfter(e, messageId, s.transientFailures)
  {
  }

  lemma TriesStep(events: seq<Event>, e: Event, messageId: string, before: nat)
    requires ValidRun(events) && CanCommit(events, e) && HasState(Commit(After(events), e), StateKey(messageId))
    requires HasState(After(events), StateKey(messageId)) ==> After(events)[StateKey(messageId)].state.transientFailures == before
    ensures Commit(After(events), e)[StateKey(messageId)].state.transientFailures == TriesAfter(e, messageId, before)
  {
    var k := StateKey(messageId);
    StateStep(events, e, k);
    if e.EnqueueEvent? && e.state.messageId == messageId {
      ReadyNow(events, e);
    } else {
      StateWasThere(events, e, k);
      ReadsAreCurrent(events, e);
      TriesNext(e, messageId, After(events)[k].state, Commit(After(events), e)[k].state);
    }
  }

  /** The stored failure count is the number of releases since the send was enqueued or resumed. */
  lemma {:induction false} FailuresAreCounted(events: seq<Event>, messageId: string)
    requires ValidRun(events) && HasState(After(events), StateKey(messageId))
    ensures After(events)[StateKey(messageId)].state.transientFailures == FailedTries(events, messageId)
  {
    var init, e := events[..|events| - 1], events[|events| - 1];
    LastStep(events);
    if HasState(After(init), StateKey(messageId)) {
      FailuresAreCounted(init, messageId);
    }
    TriesStep(init, e, messageId, FailedTries(init, messageId));
  }

  // ---------------------------------------------------------------------
  // The cap on attempts
  // ---------------------------------------------------------------------

  /** A send that has failed this often is failed for good rather than released. */
  const MAX_TRANSIENT_FAILURES: nat := 5

  predicate IsRelease(e: Event, messageId: string) {
    e.MarkEvent? && e.state.messageId == messageId && e.outcome.MarkReleased?
  }

  /** The sender and the sweep release a send only while another failure stays under the cap. */
  predicate ReleasesAreCapped(events: seq<Event>, messageId: string) {
    forall i :: 0 <= i < |events| && IsRelease(events[i], messageId) ==> events[i].state.transientFailures + 1 < MAX_TRANSIENT_FAILURES
  }

  /** Permits to call SES since the send was enqueued or an operator last resumed it. */
  function NotesSince(events: seq<Event>, messageId: string): nat {
    if events == [] then 0
    else NotesAfter(events[|events| - 1], messageId, NotesSince(events[..|events| - 1], messageId))
  }

  function NotesAfter(e: Event, messageId: string, before: nat): nat {
    if e.EnqueueEvent? && e.state.messageId == messageId then 0
    else if e.MarkEvent? && e.state.messageId == messageId && e.outcome.MarkResumed? then 0
    else if IsNote(e, messageId) then before + 1
    else before
  }

  /** One permit for the enqueue or resume, and one more for each release since. */
  lemma {:induction false} PermitsSinceAreBounded(events: seq<Event>, messageId: string)
    requires ValidRun(events)
    ensures NotesSince(events, messageId) <= FailedTries(events, messageId) + 1
    ensures MayStillCall(After(events), messageId) ==> NotesSince(events, messageId) <= FailedTries(events, messageId)
  {
    if events != [] {
      var init, e := events[..|events| - 1], events[|events| - 1];
      LastStep(events);
      PermitsSinceAreBounded(init, messageId);
      PermitStep(init, e, messageId);
    }
  }

  /** A capped release is one of at most four. */
  lemma {:induction false} TriesStayCapped(events: seq<Event>, messageId: string)
    requires ValidRun(events) && ReleasesAreCapped(events, messageId)
    ensures FailedTries(events, messageId) < MAX_TRANSIENT_FAILURES
  {
    if events != [] {
      var init, e := events[..|events| - 1], events[|events| - 1];
      LastStep(events);
      assert forall i :: 0 <= i < |init| ==> init[i] == events[i];
      TriesStayCapped(init, messageId);
      if IsRelease(e, messageId) {
        ReadsAreCurrent(init, e);
        FailuresAreCounted(init, messageId);
      }
    }
  }

  /** However its attempts fail, a send gets at most five permits to call SES each time it is enqueued or resumed. */
  lemma AtMostFivePermits(events: seq<Event>, messageId: string)
    requires ValidRun(events) && ReleasesAreCapped(events, messageId)
    ensures NotesSince(events, messageId) <= MAX_TRANSIENT_FAILURES
  {
    PermitsSinceAreBounded(events, messageId);
    TriesStayCapped(events, messageId);
  }
}
