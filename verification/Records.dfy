/**
  The records the mail table stores: messages, threads, send states,
  idempotency keys, `Message-ID` aliases and SES references.
 */
module Records {
  import opened Text

  datatype Option<+T> = None | Some(value: T)

  datatype Direction = Inbound | Outbound

  datatype SendStatus = Queued | Sending | Sent | Failed | Unknown

  datatype SendFailure =
    | SendSpecMissing
    | AttachmentFetchFailed
    | AttachmentFetchUnavailable
    | OutboxUnavailable
    | MessageTooLarge
    | BuildFailed
    | RejectedBySes
    | SesUnavailable
    | ClosedByOperator
    | SenderAbandoned

  datatype Attachment = Attachment(attachmentId: string, size: nat)

  /** A sender or recipient as a header wrote it, and the mailbox it parses to, if it does. */
  datatype Participant = Participant(text: string, mailbox: Option<string>)

  /** The compact view of a thread an inbound message carries. */
  datatype ThreadSnapshot = ThreadSnapshot(
    threadId: string,
    subject: string,
    preview: string,
    messageCount: nat,
    labels: seq<string>,
    senders: seq<Participant>,
    recipients: seq<Participant>,
    timestamp: string,
    createdAt: string,
    updatedAt: string,
    lastMessageId: string,
    size: nat,
    receivedTimestamp: Option<string>,
    sentTimestamp: Option<string>,
    attachments: seq<Attachment>)

  datatype Message = Message(
    inboxId: string,
    threadId: string,
    messageId: string,
    sesMessageId: Option<string>,
    direction: Direction,
    rfcMessageId: string,
    from: Participant,
    to: seq<Participant>,
    cc: seq<Participant>,
    bcc: seq<Participant>,
    labels: seq<string>,
    timestamp: string,
    subject: string,
    preview: string,
    size: nat,
    attachments: seq<Attachment>,
    snapshot: Option<ThreadSnapshot>,
    sendStatus: Option<SendStatus>,
    sentAt: Option<string>,
    version: nat,
    createdAt: string,
    updatedAt: string,
    expiresAt: nat)

  datatype ThreadState = ThreadState(
    inboxId: string,
    threadId: string,
    timestamp: string,
    subject: string,
    preview: string,
    senders: seq<Participant>,
    recipients: seq<Participant>,
    labels: seq<string>,
    labelCounts: map<string, nat>,
    lastMessageId: string,
    messageCount: nat,
    size: nat,
    receivedTimestamp: Option<string>,
    sentTimestamp: Option<string>,
    attachments: seq<Attachment>,
    version: nat,
    createdAt: string,
    updatedAt: string,
    expiresAt: nat)

  datatype Envelope = Envelope(to: seq<string>, cc: seq<string>, bcc: seq<string>)

  datatype SendState = SendState(
    inboxId: string,
    messageId: string,
    threadId: string,
    status: SendStatus,
    version: nat,
    envelope: Envelope,
    sendingAt: Option<string>,
    sesCallAt: Option<string>,
    requeuedAt: Option<string>,
    transientFailures: nat,
    operatorResendAt: Option<string>,
    failure: Option<SendFailure>,
    idempotencyKeyPk: Option<string>,
    createdAt: string,
    updatedAt: string,
    expiresAt: Option<nat>)

  datatype SendKey = SendKey(
    keyHash: string,
    inboxId: string,
    messageId: string,
    threadId: string,
    requestHash: string,
    route: string,
    createdAt: string,
    expiresAt: nat)

  /** An alias row as a lookup returns it: no message id for a placeholder. */
  datatype RfcHit = RfcHit(messageId: Option<string>, threadId: string)

  /** What SES said about a message it accepted. */
  datatype SesSent = SesSent(messageId: string, region: string)

  /** Strips a matched pair of surrounding angle brackets, and only that. */
  function StripAngleBrackets(id: string): string {
    if |id| >= 2 && id[0] == '<' && id[|id| - 1] == '>' then id[1..|id| - 1] else id
  }

  /** The labels the pipeline applies itself. */
  const SYSTEM_LABELS: set<string> := {
    "received", "sent", "queued", "unread", "spam", "trash", "unauthenticated",
    "delivered", "bounced", "complained", "rejected", "opened"
  }

  predicate IsUserLabel(name: string) {
    name !in SYSTEM_LABELS
  }

  /** How many of `labels` are the caller's own. */
  function UserLabelCount(labels: seq<string>): nat {
    if labels == [] then 0
    else (if IsUserLabel(labels[0]) then 1 else 0) + UserLabelCount(labels[1..])
  }

  ghost function UserLabels(labels: seq<string>): set<string> {
    set l | l in labels && IsUserLabel(l)
  }

  /** On a duplicate-free list, counting entries counts distinct labels. */
  lemma {:induction false} UserLabelCountIsCardinality(labels: seq<string>)
    requires NoDuplicates(labels)
    ensures UserLabelCount(labels) == |UserLabels(labels)|
  {
    if labels == [] {
      assert UserLabels(labels) == {};
    } else {
      UserLabelCountIsCardinality(labels[1..]);
      assert labels == [labels[0]] + labels[1..];
      if IsUserLabel(labels[0]) {
        assert labels[0] !in labels[1..];
        assert UserLabels(labels) == UserLabels(labels[1..]) + {labels[0]};
      } else {
        assert UserLabels(labels) == UserLabels(labels[1..]);
      }
    }
  }
}
