/**
  The outbound send state and its transitions: claim, note, and the outcomes
  a sender, the sweep or an operator records.
 */
module Sends {
  import opened Labels
  import opened Records
  import opened Text

  /** How a send finished, as the mailbox is told it. */
  datatype MarkOutcome =
    | MarkSent(ses: SesSent)
    | MarkFailed(failure: SendFailure)
    | MarkUnknown
    | MarkReleased
    | MarkClosedSent
    | MarkResumed

  function QueuedState(inboxId: string, messageId: string, threadId: string, envelope: Envelope,
                       idempotencyKeyPk: Option<string>, now: string): SendState
  {
    SendState(inboxId, messageId, threadId, Queued, 0, envelope, None, None, None, 0, None, None,
              idempotencyKeyPk, now, now, None)
  }

  /** A sender takes the record. */
  function ClaimedState(s: SendState, now: string): SendState {
    s.(status := Sending, version := s.version + 1, sendingAt := Some(now), sesCallAt := None,
       requeuedAt := None, updatedAt := now)
  }

  /** The claim's holder is about to call SES. */
  function CallingState(s: SendState, now: string): SendState {
    s.(version := s.version + 1, sesCallAt := Some(now), updatedAt := now)
  }

  function SentState(s: SendState, now: string): SendState {
    s.(status := Sent, version := s.version + 1, sendingAt := None, updatedAt := now)
  }

  function FailedState(s: SendState, failure: SendFailure, now: string): SendState {
    s.(status := Failed, version := s.version + 1, sendingAt := None, failure := Some(failure), updatedAt := now)
  }

  function UnknownState(s: SendState, now: string): SendState {
    s.(status := Unknown, version := s.version + 1, sendingAt := None, updatedAt := now)
  }

  function ResumedState(s: SendState, now: string): SendState {
    s.(status := Queued, version := s.version + 1, sendingAt := None, sesCallAt := None, requeuedAt := Some(now),
       transientFailures := 0, operatorResendAt := Some(now), updatedAt := now)
  }

  function ReleasedState(s: SendState, now: string): SendState {
    s.(status := Queued, version := s.version + 1, sendingAt := None, sesCallAt := None, requeuedAt := Some(now),
       transientFailures := s.transientFailures + 1, updatedAt := now)
  }

  /** Whether the outcome settles the send for good. */
  predicate Settles(outcome: MarkOutcome) {
    outcome.MarkSent? || outcome.MarkFailed? || outcome.MarkClosedSent?
  }

  predicate IsSettled(status: SendStatus) {
    status == Sent || status == Failed
  }

  /** Whether a send in this status belongs in the `ByStatus` index. */
  predicate IsSwept(status: SendStatus) {
    match status
    case Queued => true
    case Sending => true
    case Unknown => true
    case Sent => false
    case Failed => false
  }

  /** The `ByStatus` partition a state row is listed under, if any. */
  function StatusPartition(s: SendState): Option<SendStatus> {
    if IsSwept(s.status) then Some(s.status) else None
  }

  /** The send state an outcome leads to; a settled one takes the message's TTL. */
  function MarkedState(s: SendState, msg: Message, outcome: MarkOutcome, now: string): SendState {
    match outcome
    case MarkSent(_) => SentState(s, now).(expiresAt := Some(msg.expiresAt))
    case MarkFailed(failure) => FailedState(s, failure, now).(expiresAt := Some(msg.expiresAt))
    case MarkUnknown => UnknownState(s, now)
    case MarkReleased => ReleasedState(s, now)
    case MarkClosedSent => SentState(s, now).(expiresAt := Some(msg.expiresAt))
    case MarkResumed => ResumedState(s, now)
  }

  /** An outcome settles exactly when the state it leads to is settled, and only then does the state take a TTL. */
  lemma SettlingOutcomes(s: SendState, msg: Message, outcome: MarkOutcome, now: string)
    ensures Settles(outcome) <==> IsSettled(MarkedState(s, msg, outcome, now).status)
    ensures MarkedState(s, msg, outcome, now).expiresAt == if Settles(outcome) then Some(msg.expiresAt) else s.expiresAt
  {
  }

  /** The message's labels after an outcome. */
  function MarkedLabels(labels: seq<string>, outcome: MarkOutcome): seq<string> {
    match outcome
    case MarkSent(_) => Relabel(labels, "queued", "sent")
    case MarkFailed(_) => Relabel(labels, "queued", "rejected")
    case MarkUnknown => labels
    case MarkReleased => labels
    case MarkClosedSent => Relabel(labels, "queued", "sent")
    case MarkResumed => labels
  }

  function MarkedSes(outcome: MarkOutcome): Option<SesSent> {
    if outcome.MarkSent? then Some(outcome.ses) else None
  }

  lemma MarkedLabelsAscend(labels: seq<string>, outcome: MarkOutcome)
    requires StrictlyAscending(labels)
    ensures StrictlyAscending(MarkedLabels(labels, outcome))
  {
    RelabelAscends(labels, "queued", "sent");
    RelabelAscends(labels, "queued", "rejected");
  }

  /**
    The status each outcome is recorded from: the sender and the sweep mark a
    send they found `sending`, an operator resolves one that is `unknown`.
   */
  predicate MarksFrom(status: SendStatus, outcome: MarkOutcome) {
    match outcome
    case MarkSent(_) => status == Sending
    case MarkFailed(_) => status == Sending || status == Unknown
    case MarkUnknown => status == Sending
    case MarkReleased => status == Sending
    case MarkClosedSent => status == Unknown
    case MarkResumed => status == Unknown
  }

  /**
    What every stored send state satisfies: a queued send has no SES call
    noted, only a queued one can carry a requeue mark, and a TTL is present
    exactly when the send has settled.
   */
  ghost predicate WellFormedState(s: SendState) {
    && (s.status == Queued ==> s.sesCallAt == None)
    && (s.status != Queued ==> s.requeuedAt == None)
    && (s.expiresAt.Some? <==> IsSettled(s.status))
    && (s.sendingAt.Some? <==> s.status == Sending)
  }

  /** The status the message item mirrors: never `sending`. */
  function Mirrored(status: SendStatus): SendStatus {
    if status == Sending then Queued else status
  }
}
