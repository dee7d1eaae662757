/**
  The strings rows and index partitions are stored under. The rest of the
  model uses structured keys; these lemmas are what lets it.
 */
module Keys {
  import opened Plan
  import opened Records

  datatype TableKey = TableKey(pk: string, sk: string)

  function InboxPk(inboxId: string): string {
    "INBOX#" + inboxId
  }

  /** The primary key a row is stored under. */
  function Rendered(k: Key): TableKey {
    match k
    case MessageKey(inboxId, id) => TableKey(InboxPk(inboxId), "MSG#" + id)
    case ThreadKey(inboxId, id) => TableKey(InboxPk(inboxId), "THR#" + id)
    case StateKey(id) => TableKey("OUTBOX#" + id, "STATE")
    case AliasKey(inboxId, rfcId) => TableKey("RFC#" + inboxId + "#" + rfcId, "RFC")
    case SesRefKey(id) => TableKey("SESMSG#" + id, "REF")
    case SendKeyKey(hash) => TableKey("SENDKEY#" + hash, "KEY")
  }

  /** The partitions the indexes list rows under. */
  datatype Partition =
    | Inboxes
    | MessagesOf(inboxId: string)
    | ThreadsOf(inboxId: string)
    | ThreadMessages(inboxId: string, threadId: string)
    | SendsIn(status: SendStatus)

  function StatusName(status: SendStatus): string {
    match status
    case Queued => "queued"
    case Sending => "sending"
    case Sent => "sent"
    case Failed => "failed"
    case Unknown => "unknown"
  }

  function PartitionName(p: Partition): string {
    match p
    case Inboxes => "INBOXES"
    case MessagesOf(inboxId) => "INBOX#" + inboxId + "#MSG"
    case ThreadsOf(inboxId) => "INBOX#" + inboxId + "#THR"
    case ThreadMessages(inboxId, threadId) => "THREAD#" + inboxId + "#" + threadId
    case SendsIn(status) => "SENDSTATUS#" + StatusName(status)
  }

  /** One inbox id is the other, a `#`, and anything more. */
  predicate Extends(longer: string, shorter: string) {
    |shorter| < |longer| && longer[..|shorter|] == shorter && longer[|shorter|] == '#'
  }

  predicate Overlap(a: string, b: string) {
    Extends(a, b) || Extends(b, a)
  }

  /** Equal after a common prefix means equal. */
  lemma SamePrefix(p: string, a: string, b: string)
    requires p + a == p + b
    ensures a == b
  {
    assert (p + a)[|p|..] == a && (p + b)[|p|..] == b;
  }

  /** Joined by a `#`, two pairs give one string only when they are equal or split it at different `#`s. */
  lemma JoinedMeet(a: string, x: string, b: string, y: string)
    ensures a + "#" + x == b + "#" + y <==>
              || (a == b && x == y)
              || (Extends(a, b) && y == a[|b| + 1..] + "#" + x)
              || (Extends(b, a) && x == b[|a| + 1..] + "#" + y)
  {
    if a + "#" + x == b + "#" + y {
      if |a| < |b| {
        JoinedSplits(b, y, a, x);
      } else {
        JoinedSplits(a, x, b, y);
      }
    }
    if Extends(a, b) { assert a == b + "#" + a[|b| + 1..]; }
    if Extends(b, a) { assert b == a + "#" + b[|a| + 1..]; }
  }

  lemma JoinedSplits(a: string, x: string, b: string, y: string)
    requires a + "#" + x == b + "#" + y && |b| <= |a|
    ensures if |a| == |b| then a == b && x == y else Extends(a, b) && y == a[|b| + 1..] + "#" + x
  {
    var s, t := a + "#" + x, b + "#" + y;
    assert s[..|b|] == a[..|b|] && t[..|b|] == b;
    assert t[|b| + 1..] == y;
    if |a| == |b| {
      assert s[|a| + 1..] == x;
    } else {
      assert s[|b|] == a[|b|] && t[|b|] == '#';
      assert s[|b| + 1..] == a[|b| + 1..] + "#" + x;
    }
  }

  /** What a key's strings start with tells its family. */
  lemma FamilyShows(k: Key)
    ensures var r := Rendered(k);
            && |r.pk| >= 4 && |r.sk| >= 3
            && (k.MessageKey? <==> r.pk[0] == 'I' && r.sk[0] == 'M')
            && (k.ThreadKey? <==> r.pk[0] == 'I' && r.sk[0] == 'T')
            && (k.StateKey? <==> r.pk[0] == 'O')
            && (k.AliasKey? <==> r.pk[0] == 'R')
            && (k.SesRefKey? <==> r.pk[0] == 'S' && r.pk[2] == 'S')
            && (k.SendKeyKey? <==> r.pk[0] == 'S' && r.pk[2] == 'N')
  {
  }

  lemma SameFamily(a: Key, b: Key)
    requires Rendered(a) == Rendered(b)
    ensures (a.MessageKey? <==> b.MessageKey?) && (a.ThreadKey? <==> b.ThreadKey?) && (a.StateKey? <==> b.StateKey?)
    ensures (a.AliasKey? <==> b.AliasKey?) && (a.SesRefKey? <==> b.SesRefKey?)
  {
    FamilyShows(a);
    FamilyShows(b);
  }

  /** Two rows share a primary key only as aliases of overlapping inbox ids; all other strings determine the structured key. */
  lemma RenderedIsInjective(a: Key, b: Key)
    requires Rendered(a) == Rendered(b)
    ensures a == b || (a.AliasKey? && b.AliasKey? && Overlap(a.inboxId, b.inboxId))
  {
    SameFamily(a, b);
    match a
    case MessageKey(inboxId, id) =>
      SamePrefix("INBOX#", inboxId, b.inboxId);
      SamePrefix("MSG#", id, b.messageId);
    case ThreadKey(inboxId, id) =>
      SamePrefix("INBOX#", inboxId, b.inboxId);
      SamePrefix("THR#", id, b.threadId);
    case StateKey(id) => SamePrefix("OUTBOX#", id, b.messageId);
    case AliasKey(inboxId, rfcId) => AliasesMeet(inboxId, rfcId, b.inboxId, b.rfcId);
    case SesRefKey(id) => SamePrefix("SESMSG#", id, b.sesMessageId);
    case SendKeyKey(hash) => SamePrefix("SENDKEY#", hash, b.keyHash);
  }

  lemma PrefixedMeet(p: string, a: string, x: string, b: string, y: string)
    ensures p + a + "#" + x == p + b + "#" + y <==> a + "#" + x == b + "#" + y
  {
    assert p + a + "#" + x == p + (a + "#" + x) && p + b + "#" + y == p + (b + "#" + y);
    if p + a + "#" + x == p + b + "#" + y {
      SamePrefix(p, a + "#" + x, b + "#" + y);
    }
  }

  /** Exactly when two aliases are stored under one key. */
  lemma AliasesMeet(a: string, x: string, b: string, y: string)
    ensures Rendered(AliasKey(a, x)) == Rendered(AliasKey(b, y)) <==>
              || (a == b && x == y)
              || (Extends(a, b) && y == a[|b| + 1..] + "#" + x)
              || (Extends(b, a) && x == b[|a| + 1..] + "#" + y)
  {
    PrefixedMeet("RFC#", a, x, b, y);
    JoinedMeet(a, x, b, y);
  }

  /** Exactly when two messages' listings, one per thread, are one. */
  lemma ThreadListingsMeet(a: string, x: string, b: string, y: string)
    ensures PartitionName(ThreadMessages(a, x)) == PartitionName(ThreadMessages(b, y)) <==>
              || (a == b && x == y)
              || (Extends(a, b) && y == a[|b| + 1..] + "#" + x)
              || (Extends(b, a) && x == b[|a| + 1..] + "#" + y)
  {
    PrefixedMeet("THREAD#", a, x, b, y);
    JoinedMeet(a, x, b, y);
  }

  /** Inbox ids that overlap have an alias, and a thread's listing, in common. */
  lemma OverlappingMeet(a: string, b: string) returns (x: string, y: string)
    requires Overlap(a, b)
    ensures Rendered(AliasKey(a, x)) == Rendered(AliasKey(b, y))
    ensures PartitionName(ThreadMessages(a, x)) == PartitionName(ThreadMessages(b, y))
  {
    x := if Extends(a, b) then "" else b[|a| + 1..] + "#";
    y := if Extends(a, b) then a[|b| + 1..] + "#" else "";
    if Extends(a, b) {
      assert y == a[|b| + 1..] + "#" + x;
    } else {
      assert x == b[|a| + 1..] + "#" + y;
    }
    AliasesMeet(a, x, b, y);
    ThreadListingsMeet(a, x, b, y);
  }

  /** Two different inbox ids can share an alias, and a thread's listing, exactly when they overlap. */
  lemma InboxesMeetIffTheyOverlap(a: string, b: string)
    requires a != b
    ensures (exists x, y :: Rendered(AliasKey(a, x)) == Rendered(AliasKey(b, y))) <==> Overlap(a, b)
    ensures (exists x, y :: PartitionName(ThreadMessages(a, x)) == PartitionName(ThreadMessages(b, y))) <==> Overlap(a, b)
  {
    if Overlap(a, b) {
      var x, y := OverlappingMeet(a, b);
    }
    forall x, y | Rendered(AliasKey(a, x)) == Rendered(AliasKey(b, y)) ensures Overlap(a, b) {
      AliasesMeet(a, x, b, y);
    }
    forall x, y | PartitionName(ThreadMessages(a, x)) == PartitionName(ThreadMessages(b, y)) ensures Overlap(a, b) {
      ThreadListingsMeet(a, x, b, y);
    }
  }

  /** An input at which they meet: `a#b` and `a`. */
  lemma HashInInboxCollides()
    ensures Rendered(AliasKey("a#b", "c")) == Rendered(AliasKey("a", "b#c"))
    ensures PartitionName(ThreadMessages("a#b", "c")) == PartitionName(ThreadMessages("a", "b#c"))
  {
    assert "a#b"[1..] == "#b" && "a#b"[2..] + "#" + "c" == "b#c";
    AliasesMeet("a#b", "c", "a", "b#c");
    ThreadListingsMeet("a#b", "c", "a", "b#c");
  }

  // ---------------------------------------------------------------------
  // Configured inboxes
  // ---------------------------------------------------------------------

  predicate IsLocalChar(c: char) {
    'a' <= c <= 'z' || '0' <= c <= '9' || c in "._+-"
  }

  /** A local part valid for an inbound mail address. */
  predicate IsValidLocalPart(part: string) {
    0 < |part| <= 64 && forall i :: 0 <= i < |part| ==> IsLocalChar(part[i])
  }

  /** What stands before the first `@` and after it, if there is one. */
  function SplitOnce(s: string): Option<(string, string)> {
    if s == "" then None
    else if s[0] == '@' then Some(("", s[1..]))
    else
      var rest := SplitOnce(s[1..]);
      if rest.None? then None else Some(([s[0]] + rest.value.0, rest.value.1))
  }

  /** What is appended to a string that holds an `@` goes to its second part. */
  lemma {:induction false} SplitOfLonger(s: string, more: string)
    requires SplitOnce(s).Some?
    ensures SplitOnce(s + more) == Some((SplitOnce(s).value.0, SplitOnce(s).value.1 + more))
  {
    assert (s + more)[1..] == s[1..] + more;
    if s[0] != '@' { SplitOfLonger(s[1..], more); }
  }

  /** An inbox the configuration accepts: a full address at the mail domain. */
  predicate IsConfiguredInbox(inbox: string, domain: string) {
    var parts := SplitOnce(inbox);
    parts.Some? && IsValidLocalPart(parts.value.0) && parts.value.1 == domain
  }

  lemma ConfiguredDoNotExtend(a: string, b: string, domain: string)
    requires IsConfiguredInbox(a, domain) && IsConfiguredInbox(b, domain)
    ensures !Extends(a, b)
  {
    if |b| <= |a| && a[..|b|] == b {
      SplitOfLonger(b, a[|b|..]);
      assert a == b + a[|b|..];
      assert |domain| == |domain + a[|b|..]|;
    }
  }

  /** Inboxes of one mail domain never meet, whatever the domain: there the strings determine the key and the listing. */
  lemma ConfiguredInboxesNeverMeet(a: string, b: string, domain: string, x: string, y: string)
    requires IsConfiguredInbox(a, domain) && IsConfiguredInbox(b, domain)
    ensures Rendered(AliasKey(a, x)) == Rendered(AliasKey(b, y)) <==> a == b && x == y
    ensures PartitionName(ThreadMessages(a, x)) == PartitionName(ThreadMessages(b, y)) <==> a == b && x == y
  {
    ConfiguredDoNotExtend(a, b, domain);
    ConfiguredDoNotExtend(b, a, domain);
    AliasesMeet(a, x, b, y);
    ThreadListingsMeet(a, x, b, y);
  }

  // ---------------------------------------------------------------------
  // Listings
  // ---------------------------------------------------------------------

  lemma StatusNamesDiffer(a: SendStatus, b: SendStatus)
    requires StatusName(a) == StatusName(b)
    ensures a == b
  {
    assert "queued"[0] == 'q' && "failed"[0] == 'f' && "unknown"[0] == 'u';
    assert |"sending"| != |"sent"|;
  }

  /** Two listings share an index partition only as threads of overlapping inbox ids. */
  lemma PartitionsAreInjective(a: Partition, b: Partition)
    requires PartitionName(a) == PartitionName(b)
    ensures a == b || (a.ThreadMessages? && b.ThreadMessages? && Overlap(a.inboxId, b.inboxId))
  {
    SamePartitionFamily(a, b);
    match a
    case Inboxes =>
    case MessagesOf(inboxId) => InboxPartition(inboxId, "MSG", b);
    case ThreadsOf(inboxId) => InboxPartition(inboxId, "THR", b);
    case ThreadMessages(inboxId, threadId) => ThreadListingsMeet(inboxId, threadId, b.inboxId, b.threadId);
    case SendsIn(status) =>
      SamePrefix("SENDSTATUS#", StatusName(status), StatusName(b.status));
      StatusNamesDiffer(status, b.status);
  }

  lemma SamePartitionFamily(a: Partition, b: Partition)
    requires PartitionName(a) == PartitionName(b)
    ensures a.Inboxes? <==> b.Inboxes?
    ensures (a.MessagesOf? || a.ThreadsOf?) <==> (b.MessagesOf? || b.ThreadsOf?)
    ensures a.ThreadMessages? <==> b.ThreadMessages?
  {
    PartitionShows(a);
    PartitionShows(b);
  }

  lemma PartitionShows(p: Partition)
    ensures var n := PartitionName(p);
            && |n| >= 6
            && (p.Inboxes? <==> n[0] == 'I' && n[5] == 'E')
            && (p.MessagesOf? || p.ThreadsOf? <==> n[0] == 'I' && n[5] == '#')
            && (p.ThreadMessages? <==> n[0] == 'T')
  {
  }

  lemma InboxPartition(inboxId: string, kind: string, b: Partition)
    requires (b.MessagesOf? || b.ThreadsOf?) && (kind == "MSG" || kind == "THR")
    requires "INBOX#" + inboxId + "#" + kind == PartitionName(b)
    ensures b == if kind == "MSG" then MessagesOf(inboxId) else ThreadsOf(inboxId)
  {
    var other := if b.MessagesOf? then "MSG" else "THR";
    assert "INBOX#" + inboxId + "#" + kind == ("INBOX#" + inboxId) + ("#" + kind);
    assert PartitionName(b) == ("INBOX#" + b.inboxId) + ("#" + other);
    SameEnd("INBOX#" + inboxId, "#" + kind, "INBOX#" + b.inboxId, "#" + other);
    SamePrefix("INBOX#", inboxId, b.inboxId);
    assert ("#" + kind)[1] == ("#" + other)[1];
  }

  /** Equal before ends of one length means equal, ends and all. */
  lemma SameEnd(a: string, x: string, b: string, y: string)
    requires a + x == b + y && |x| == |y|
    ensures a == b && x == y
  {
    assert (a + x)[..|a|] == a && (b + y)[..|b|] == b;
    assert (a + x)[|a|..] == x && (b + y)[|b|..] == y;
  }
}
