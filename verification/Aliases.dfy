/**
  `Message-ID` aliases over any run: the rows that decide which thread an
  inbound message joins.
 */
module Aliases {
  import opened Effects
  import opened Linear
  import opened Plan
  import opened Records
  import opened Rollups
  import opened Runs
  import opened Sending
  import opened Shapes
  import opened Threads

  // ---------------------------------------------------------------------
  // The life cycle of an alias row
  // ---------------------------------------------------------------------

  predicate IsPlaceholder(row: Row) {
    row.AliasRow? && row.hit.messageId.None?
  }

  /** Absent, then perhaps a placeholder, then a message's own; never back. */
  ghost predicate AliasMoves(before: Option<Row>, after: Option<Row>) {
    || before == after
    || (before.None? && after.Some? && after.value.AliasRow?)
    || (before.Some? && after.Some? && IsPlaceholder(before.value) && IsRealAlias(after.value))
  }

  /** The row a transaction leaves at an alias key. */
  lemma AliasAfterOps(db: Db, ops: seq<PlannedOp>, k: Key, m: Message, kind: Kind)
    requires Typed(db) && AllHold(db, ops) && AllShaped(ops, m, kind) && k.AliasKey?
    ensures AliasMoves(Lookup(db, k), Lookup(ApplyAll(db, ops), k))
    ensures Lookup(ApplyAll(db, ops), k) == Lookup(db, k) || NamesMessage(Lookup(ApplyAll(db, ops), k), k, m)
  {
    ShapedAliasWrites(ops, m, kind);
    var i := AliasWriteSource(db, ops, k);
    if i != -1 {
      assert OpHolds(db, ops[i].op) && Shaped(ops[i], m, kind);
    }
  }

  /** An alias row of `m`: its own, or a placeholder for its thread. */
  ghost predicate NamesMessage(row: Option<Row>, k: Key, m: Message)
    requires k.AliasKey?
  {
    && row.Some? && row.value.AliasRow? && k.inboxId == m.inboxId && row.value.hit.threadId == m.threadId
    && |k.rfcId| <= ALIAS_ID_MAX_BYTES
    && (row.value.hit.messageId.None? || row.value.hit.messageId == Some(m.messageId))
  }

  /** The life cycle, one commit at a time; a new row was written for the event's own message. */
  lemma AliasStep(events: seq<Event>, e: Event, k: Key)
    requires ValidRun(events) && CanCommit(events, e) && k.AliasKey? && !OnlyState(e)
    ensures AliasMoves(Lookup(After(events), k), Lookup(Commit(After(events), e), k))
    ensures Lookup(Commit(After(events), e), k) == Lookup(After(events), k)
            || NamesMessage(Lookup(Commit(After(events), e), k), k, Subject(e))
  {
    RunGrows(events, 0);
    PlanShape(e);
    AliasAfterOps(After(events), PlanOf(e).ops, k, Subject(e), KindOf(e));
  }

  /** Over a whole run, an alias row moves the same way between any two moments. */
  lemma {:induction false} AliasLifeCycle(events: seq<Event>, n: nat, k: Key)
    requires ValidRun(events) && n <= |events| && k.AliasKey?
    ensures AliasMoves(Lookup(After(events[..n]), k), Lookup(After(events), k))
    decreases |events|
  {
    if n == |events| {
      assert events[..n] == events;
    } else {
      var init, e := events[..|events| - 1], events[|events| - 1];
      LastStep(events);
      assert init[..n] == events[..n];
      AliasLifeCycle(init, n, k);
      if OnlyState(e) {
        AliasUntouched(init, e, k);
      } else {
        AliasStep(init, e, k);
      }
    }
  }

  /** Ids over 900 bytes never get a row. */
  lemma {:induction false} LongIdsHaveNoRow(events: seq<Event>, k: Key)
    requires ValidRun(events) && k.AliasKey? && |k.rfcId| > ALIAS_ID_MAX_BYTES
    ensures k !in After(events)
  {
    if events != [] {
      var init, e := events[..|events| - 1], events[|events| - 1];
      LastStep(events);
      LongIdsHaveNoRow(init, k);
      if OnlyState(e) { AliasUntouched(init, e, k); } else { AliasStep(init, e, k); }
    }
  }

  lemma AliasUntouched(events: seq<Event>, e: Event, k: Key)
    requires ValidRun(events) && CanCommit(events, e) && k.AliasKey? && OnlyState(e)
    ensures Lookup(Commit(After(events), e), k) == Lookup(After(events), k)
  {
    UntargetedUnchanged(After(events), PlanOf(e).ops, k);
  }

  // ---------------------------------------------------------------------
  // What alias rows name
  // ---------------------------------------------------------------------

  /** A message's own alias names it and its thread; a placeholder names a thread that exists. */
  ghost predicate NamesStored(db: Db, k: Key)
    requires k in db && k.AliasKey?
  {
    && db[k].AliasRow?
    && match db[k].hit.messageId
       case Some(id) =>
         var mk := MessageKey(k.inboxId, id);
         HasMessage(db, mk) && db[mk].msg.threadId == db[k].hit.threadId
       case None => ThreadKey(k.inboxId, db[k].hit.threadId) in db
  }

  ghost predicate AliasesSound(db: Db) {
    forall k :: k in db && k.AliasKey? ==> NamesStored(db, k)
  }

  /** Once an event has committed, its message is stored, in its thread. */
  lemma SubjectIsStored(events: seq<Event>, e: Event)
    requires ValidRun(events) && CanCommit(events, e) && !OnlyState(e)
    ensures var s, b := Subject(e), Commit(After(events), e);
            var mk := MessageKey(s.inboxId, s.messageId);
            HasMessage(b, mk) && b[mk].msg.threadId == s.threadId && ThreadKey(s.inboxId, s.threadId) in b
  {
    var b := Commit(After(events), e);
    match e
    case InsertEvent(_, _, _, _) => InsertAdds(events, e);
    case EnqueueEvent(_, _, _, _, _, _) => EnqueueAdds(events, e);
    case MarkEvent(_, _, msg, _, _, _) => StoredSubject(events, e);
    case PatchEvent(msg, _, _, _, _) => StoredSubject(events, e);
  }

  lemma StoredSubject(events: seq<Event>, e: Event)
    requires ValidRun(events) && CanCommit(events, e) && (e.MarkEvent? || e.PatchEvent?)
    ensures var b := Commit(After(events), e);
            var mk := MessageKey(e.msg.inboxId, e.msg.messageId);
            HasMessage(b, mk) && b[mk].msg.threadId == e.msg.threadId && ThreadKey(e.msg.inboxId, e.msg.threadId) in b
  {
    var mk := MessageKey(e.msg.inboxId, e.msg.messageId);
    Step(events, e);
    MessageStep(events, e, mk);
    RollupsAlwaysAgree(events);
  }

  lemma OldAliasStillNames(events: seq<Event>, e: Event, k: Key)
    requires ValidRun(events) && CanCommit(events, e)
    requires k.AliasKey? && k in After(events) && NamesStored(After(events), k)
    requires Lookup(Commit(After(events), e), k) == Lookup(After(events), k)
    ensures NamesStored(Commit(After(events), e), k)
  {
    var a := After(events);
    if a[k].hit.messageId.Some? {
      MessageStep(events, e, MessageKey(k.inboxId, a[k].hit.messageId.value));
    } else {
      Step(events, e);
    }
  }

  /** In every reachable state, alias rows name only what is stored. */
  lemma {:induction false} AliasesAlwaysSound(events: seq<Event>)
    requires ValidRun(events)
    ensures AliasesSound(After(events))
  {
    if events != [] {
      var init, e := events[..|events| - 1], events[|events| - 1];
      LastStep(events);
      AliasesAlwaysSound(init);
      var a, b := After(init), After(events);
      forall k | k in b && k.AliasKey? ensures NamesStored(b, k) {
        AliasKeepsNaming(init, e, k);
      }
    }
  }

  lemma AliasKeepsNaming(events: seq<Event>, e: Event, k: Key)
    requires ValidRun(events) && CanCommit(events, e) && AliasesSound(After(events))
    requires k.AliasKey? && k in Commit(After(events), e)
    ensures NamesStored(Commit(After(events), e), k)
  {
    if OnlyState(e) {
      AliasUntouched(events, e, k);
      OldAliasStillNames(events, e, k);
    } else {
      AliasStep(events, e, k);
      if Lookup(After(events), k) == Lookup(Commit(After(events), e), k) {
        OldAliasStillNames(events, e, k);
      } else {
        SubjectIsStored(events, e);
      }
    }
  }

  // ---------------------------------------------------------------------
  // Which thread an insert joins
  // ---------------------------------------------------------------------

  lemma {:induction false} FirstFound(candidates: seq<string>, found: map<string, RfcHit>) returns (c: string)
    requires FoundThread(candidates, found).Some?
    ensures c in candidates && c in found && FoundThread(candidates, found) == Some(found[c].threadId)
  {
    if candidates[0] in found {
      c := candidates[0];
    } else {
      c := FirstFound(candidates[1..], found);
    }
  }

  lemma {:induction false} NoneFound(candidates: seq<string>, found: map<string, RfcHit>)
    requires FoundThread(candidates, found).None?
    ensures forall c :: c in candidates ==> c !in found
  {
    if candidates != [] {
      NoneFound(candidates[1..], found);
      assert candidates == [candidates[0]] + candidates[1..];
    }
  }

  /** The thread an alias named at any earlier moment is still there. */
  lemma NamedThreadExists(events: seq<Event>, inboxId: string, id: string, hit: RfcHit)
    requires ValidRun(events) && AliasSeen(events, inboxId, id, Some(hit))
    ensures ThreadKey(inboxId, hit.threadId) in After(events)
  {
    var k := AliasKey(inboxId, id);
    var n :| 0 <= n <= |events| && NamesHit(Lookup(After(events[..n]), k), hit);
    PrefixValid(events, n);
    AliasesAlwaysSound(events[..n]);
    RollupsAlwaysAgree(events[..n]);
    assert NamesStored(After(events[..n]), k);
    RunGrows(events, n);
  }

  /** A reply whose parent was found always joins the parent's thread: it never starts that thread over. */
  lemma FoundThreadIsJoined(events: seq<Event>, e: Event)
    requires ValidRun(events) && CanCommit(events, e) && e.InsertEvent?
    requires FoundThread(e.candidates, e.found).Some?
    ensures e.thread.Some? && Subject(e).threadId == FoundThread(e.candidates, e.found).value
    ensures Lookup(After(events), ThreadKey(e.msg.inboxId, Subject(e).threadId)) == Some(ThreadRow(e.thread.value))
  {
    ReadyNow(events, e);
    var c := FirstFound(e.candidates, e.found);
    NamedThreadExists(events, e.msg.inboxId, c, e.found[c]);
    ReadsAreCurrent(events, e);
  }

  // ---------------------------------------------------------------------
  // Concurrent inserts that share an id
  // ---------------------------------------------------------------------

  /** An insert that found no alias and so started a thread of its own. */
  predicate StartsThread(e: Event) {
    e.InsertEvent? && FoundThread(e.candidates, e.found).None?
  }

  function OwnId(msg: Message): string {
    StripAngleBrackets(msg.rfcMessageId)
  }

  /** A candidate without a row gets a placeholder. */
  lemma {:induction false} PlaceholderFor(msg: Message, ownId: string, candidates: seq<string>, found: map<string, RfcHit>, c: string)
    returns (i: nat)
    requires c in candidates && c != ownId && c !in found && StripAngleBrackets(c) == c && |c| <= ALIAS_ID_MAX_BYTES
    ensures var ops := PlaceholderOps(msg, ownId, candidates, found);
            && i < |ops| && ops[i].op == AliasFirstWriter(msg.inboxId, c, RfcHit(None, msg.threadId), msg.expiresAt)
  {
    var init, last := candidates[..|candidates| - 1], candidates[|candidates| - 1];
    if c == last {
      i := |PlaceholderOps(msg, ownId, init, found)|;
    } else {
      assert candidates == init + [last];
      i := PlaceholderFor(msg, ownId, init, found, c);
    }
  }

  /** The write an insert makes for its own id. */
  lemma OwnIdIsWritten(msg: Message, before: Option<ThreadState>, after: ThreadState, lookup: AliasLookup)
    requires OwnId(msg) != "" && |OwnId(msg)| <= ALIAS_ID_MAX_BYTES && IsClaimable(lookup, OwnId(msg))
    ensures var ops := InsertOps(msg, before, after, lookup);
            |ops| > 2 && ops[2].op == AliasFirstWriter(msg.inboxId, OwnId(msg), RfcHit(Some(msg.messageId), msg.threadId), msg.expiresAt)
  {
  }

  /** The write an insert makes for another id it lists and found no row for. */
  lemma MissIsWritten(msg: Message, before: Option<ThreadState>, after: ThreadState, lookup: AliasLookup, c: string) returns (i: nat)
    requires c in lookup.candidates && c !in lookup.found && StripAngleBrackets(c) == c
    requires c != OwnId(msg) && |c| <= ALIAS_ID_MAX_BYTES
    ensures var ops := InsertOps(msg, before, after, lookup);
            i < |ops| && ops[i].op == AliasFirstWriter(msg.inboxId, c, RfcHit(None, msg.threadId), msg.expiresAt)
  {
    var own := if OwnId(msg) != "" && IsClaimable(lookup, OwnId(msg)) then AliasOps(msg, msg.rfcMessageId, Some(msg.messageId)) else [];
    var j := PlaceholderFor(msg, OwnId(msg), lookup.candidates, lookup.found, c);
    i := 2 + |own| + j;
  }

  ghost predicate Avoids(ops: seq<PlannedOp>, k: Key) {
    forall i :: 0 <= i < |ops| ==> Target(ops[i].op) != k
  }

  lemma {:induction false} PlaceholdersSkipOwnId(msg: Message, ownId: string, candidates: seq<string>, found: map<string, RfcHit>)
    requires forall c :: c in candidates ==> StripAngleBrackets(c) == c
    ensures Avoids(PlaceholderOps(msg, ownId, candidates, found), AliasKey(msg.inboxId, ownId))
  {
    if candidates != [] {
      var init, last := candidates[..|candidates| - 1], candidates[|candidates| - 1];
      assert last in candidates && forall c :: c in init ==> c in candidates;
      PlaceholdersSkipOwnId(msg, ownId, init, found);
    }
  }

  /** A fresh insert's own id ends up as its own alias. */
  lemma OwnIdIsReal(db: Db, msg: Message, before: Option<ThreadState>, after: ThreadState, lookup: AliasLookup)
    requires OwnId(msg) != "" && OwnId(msg) !in lookup.found && |OwnId(msg)| <= ALIAS_ID_MAX_BYTES
    requires forall c :: c in lookup.candidates ==> StripAngleBrackets(c) == c
    ensures var k := AliasKey(msg.inboxId, OwnId(msg));
            Lookup(ApplyAll(db, InsertOps(msg, before, after, lookup)), k)
              == Some(AliasRow(msg.inboxId, OwnId(msg), RfcHit(Some(msg.messageId), msg.threadId), msg.expiresAt))
  {
    var head := [PutMessage(StoredMessage(msg, after)), PutThread(after, ThreadVersion(before))];
    var own := AliasOps(msg, msg.rfcMessageId, Some(msg.messageId));
    var rest := PlaceholderOps(msg, OwnId(msg), lookup.candidates, lookup.found);
    PlaceholdersSkipOwnId(msg, OwnId(msg), lookup.candidates, lookup.found);
    ApplyConcat(db, head + own, rest);
    ApplyConcat(db, head, own);
    ApplyOne(ApplyAll(db, head), own[0]);
    UntargetedUnchanged(ApplyAll(db, head + own), rest, AliasKey(msg.inboxId, OwnId(msg)));
  }

  /** A listed id gets a row, over nothing or, for the insert's own id, over a placeholder. */
  lemma FreshInsertClaims(events: seq<Event>, e: Event, c: string)
    requires ValidRun(events) && CanCommit(events, e) && StartsThread(e)
    requires c in e.candidates && (c != "" || OwnId(e.msg) != "") && |c| <= ALIAS_ID_MAX_BYTES
    ensures var k := AliasKey(e.msg.inboxId, c);
            && k in Commit(After(events), e)
            && (k in After(events) ==> c == OwnId(e.msg) && !IsRealAlias(After(events)[k]))
            && (c == OwnId(e.msg) ==> IsRealAlias(Commit(After(events), e)[k]))
  {
    ReadyNow(events, e);
    NoneFound(e.candidates, e.found);
    var lookup := AliasLookup(e.candidates, e.found);
    if c == OwnId(e.msg) {
      OwnIdIsWritten(e.msg, e.thread, ThreadFor(e.msg, e.thread), lookup);
      assert OpHolds(After(events), PlanOf(e).ops[2].op);
      OwnIdIsReal(After(events), e.msg, e.thread, ThreadFor(e.msg, e.thread), lookup);
    } else {
      var i := MissIsWritten(e.msg, e.thread, ThreadFor(e.msg, e.thread), lookup, c);
      assert OpHolds(After(events), PlanOf(e).ops[i].op);
      ClaimedIdIsStored(events, e, c, i);
    }
  }

  lemma ClaimedIdIsStored(events: seq<Event>, e: Event, c: string, i: nat)
    requires ValidRun(events) && CanCommit(events, e) && StartsThread(e)
    requires var ops := PlanOf(e).ops;
             && i < |ops| && ops[i].op.AliasFirstWriter? && Target(ops[i].op) == AliasKey(e.msg.inboxId, c)
    ensures AliasKey(e.msg.inboxId, c) in Commit(After(events), e)
  {
    PlansWriteAliasesProperly(e);
    var j := AliasWriteSource(After(events), PlanOf(e).ops, AliasKey(e.msg.inboxId, c));
  }

  /**
    Two inserts that list one id never both start a thread, however their
    reads and commits interleave, unless the id is the later one's own and
    not the earlier one's: a reply that commits while its parent is still
    between its lookup and its commit.
   */
  lemma SharedIdStartsOneThread(events: seq<Event>, i: nat, j: nat, c: string)
    requires ValidRun(events) && i < j < |events|
    requires StartsThread(events[i]) && StartsThread(events[j]) && events[i].msg.inboxId == events[j].msg.inboxId
    requires c in events[i].candidates && c in events[j].candidates && |c| <= ALIAS_ID_MAX_BYTES
    requires c != "" || OwnId(events[i].msg) != ""
    ensures c == OwnId(events[j].msg) && c != OwnId(events[i].msg)
  {
    StepAt(events, i);
    StepAt(events, j);
    FreshInsertClaims(events[..i], events[i], c);
    if c != "" || OwnId(events[j].msg) != "" {
      FreshInsertClaims(events[..j], events[j], c);
      AliasKept(events, i, j, AliasKey(events[i].msg.inboxId, c));
    }
  }

  lemma AliasKept(events: seq<Event>, i: nat, j: nat, k: Key)
    requires ValidRun(events) && i < j < |events| && k in After(events[..i + 1])
    ensures k in After(events[..j])
    ensures IsRealAlias(After(events[..i + 1])[k]) ==> IsRealAlias(After(events[..j])[k])
  {
    PrefixValid(events, j);
    assert events[..j][..i + 1] == events[..i + 1];
    RunGrows(events[..j], i + 1);
  }

  // ---------------------------------------------------------------------
  // What a lookup is worth when its insert commits
  // ---------------------------------------------------------------------

  function HitFor(found: map<string, RfcHit>, id: string): Option<RfcHit> {
    if id in found then Some(found[id]) else None
  }

  /**
    An alias row at commit against what the lookup found of it. A miss is
    still a miss, though the own id may have become a placeholder. A message's
    own alias is unchanged. A placeholder is unchanged or has since become a
    message's own; the insert's own id has not.
   */
  ghost predicate StillSeen(row: Option<Row>, hit: Option<RfcHit>, own: bool) {
    match hit
    case None => row.None? || (own && IsPlaceholder(row.value))
    case Some(h) => NamesHit(row, h) || (!own && h.messageId.None? && row.Some? && IsRealAlias(row.value))
  }

  lemma MissHolds(db: Db, msg: Message, before: Option<ThreadState>, after: ThreadState, lookup: AliasLookup, c: string)
    requires Typed(db) && AllHold(db, InsertOps(msg, before, after, lookup))
    requires c in lookup.candidates && c !in lookup.found && StripAngleBrackets(c) == c
    requires |c| <= ALIAS_ID_MAX_BYTES && (c != "" || OwnId(msg) != "")
    ensures StillSeen(Lookup(db, AliasKey(msg.inboxId, c)), None, c == OwnId(msg))
  {
    var ops, k := InsertOps(msg, before, after, lookup), AliasKey(msg.inboxId, c);
    if c == OwnId(msg) {
      OwnIdIsWritten(msg, before, after, lookup);
      assert OpHolds(db, ops[2].op);
      if k in db { assert KeyOf(db[k]) == k; }
    } else {
      var i := MissIsWritten(msg, before, after, lookup, c);
      assert OpHolds(db, ops[i].op);
    }
  }

  lemma MissAtCommit(events: seq<Event>, e: Event, c: string)
    requires ValidRun(events) && CanCommit(events, e) && e.InsertEvent?
    requires c in e.candidates && c !in e.found && StripAngleBrackets(c) == c
    requires |c| <= ALIAS_ID_MAX_BYTES && (c != "" || OwnId(e.msg) != "")
    ensures StillSeen(Lookup(After(events), AliasKey(e.msg.inboxId, c)), None, c == OwnId(e.msg))
  {
    RunGrows(events, 0);
    MissHolds(After(events), Subject(e), e.thread, ThreadFor(Subject(e), e.thread), AliasLookup(e.candidates, e.found), c);
  }

  lemma HitAtCommit(events: seq<Event>, e: Event, c: string, n: nat)
    requires ValidRun(events) && CanCommit(events, e) && e.InsertEvent? && c in e.found && n <= |events|
    requires NamesHit(Lookup(After(events[..n]), AliasKey(e.msg.inboxId, c)), e.found[c])
    requires |c| <= ALIAS_ID_MAX_BYTES && (c != "" || OwnId(e.msg) != "")
    ensures StillSeen(Lookup(After(events), AliasKey(e.msg.inboxId, c)), Some(e.found[c]), c == OwnId(e.msg))
  {
    var m := Subject(e);
    AliasLifeCycle(events, n, AliasKey(e.msg.inboxId, c));
    if c == OwnId(e.msg) && e.found[c].messageId.None? {
      OwnIdIsWritten(m, e.thread, ThreadFor(m, e.thread), AliasLookup(e.candidates, e.found));
      assert OpHolds(After(events), PlanOf(e).ops[2].op);
    }
  }

  /**
    What an insert's lookup found, however long before, against the rows it
    commits over: for every candidate it listed, its own empty id aside.
   */
  lemma LookupAtCommit(events: seq<Event>, e: Event, c: string)
    requires ValidRun(events) && CanCommit(events, e) && e.InsertEvent?
    requires c in e.candidates && (c != "" || OwnId(e.msg) != "")
    ensures StillSeen(Lookup(After(events), AliasKey(e.msg.inboxId, c)), HitFor(e.found, c), c == OwnId(e.msg))
  {
    ReadyNow(events, e);
    var k := AliasKey(e.msg.inboxId, c);
    assert AliasSeen(events, e.msg.inboxId, c, HitFor(e.found, c));
    if |c| > ALIAS_ID_MAX_BYTES {
      LongIdsHaveNoRow(events, k);
      if c in e.found { LongIdsAreNeverFound(events, k, e.found[c]); }
    } else if c in e.found {
      var n :| 0 <= n <= |events| && NamesHit(Lookup(After(events[..n]), k), e.found[c]);
      HitAtCommit(events, e, c, n);
    } else {
      MissAtCommit(events, e, c);
    }
  }

  lemma LongIdsAreNeverFound(events: seq<Event>, k: Key, hit: RfcHit)
    requires ValidRun(events) && k.AliasKey? && |k.rfcId| > ALIAS_ID_MAX_BYTES
    ensures !AliasSeen(events, k.inboxId, k.rfcId, Some(hit))
  {
    if n :| 0 <= n <= |events| && NamesHit(Lookup(After(events[..n]), k), hit) {
      PrefixValid(events, n);
      LongIdsHaveNoRow(events[..n], k);
    }
  }

  // ---------------------------------------------------------------------
  // Dropped aliases
  // ---------------------------------------------------------------------

  /** An alias reported taken names a message when the retry commits, and for good. */
  lemma TakenStaysReal(events: seq<Event>, taken: set<Key>, k: Key)
    requires ValidRun(events) && TakenSeen(events, taken) && k in taken
    ensures HasRealAlias(After(events), k)
  {
    var n :| 0 <= n <= |events| && HasRealAlias(After(events[..n]), k);
    RunGrows(events, n);
  }

  lemma {:induction false} UndroppedIsKept(ops: seq<PlannedOp>, taken: set<Key>, i: nat) returns (j: nat)
    requires i < |ops| && !(ops[i].op.AliasFirstWriter? && Target(ops[i].op) in taken)
    ensures j < |DropTaken(ops, taken)| && DropTaken(ops, taken)[j] == ops[i]
  {
    var init := ops[..|ops| - 1];
    if i < |init| {
      j := UndroppedIsKept(init, taken, i);
    } else {
      j := |DropTaken(init, taken)|;
    }
  }

  /** Dropping loses nothing: every alias the whole plan asked for names a message once the rest commits. */
  lemma DropLosesNothing(db: Db, ops: seq<PlannedOp>, taken: set<Key>, i: nat, m: Message, kind: Kind)
    requires i < |ops| && ops[i].op.AliasFirstWriter? && AllShaped(ops, m, kind) && !kind.placeholders
    requires forall k :: k in taken ==> HasRealAlias(db, k)
    ensures var b, k := ApplyAll(db, DropTaken(ops, taken)), Target(ops[i].op);
            k in b && IsRealAlias(b[k])
  {
    var kept, k := DropTaken(ops, taken), Target(ops[i].op);
    DropKeepsShape(ops, taken, m, kind);
    ShapedAliasWrites(kept, m, kind);
    var w := AliasWriteSource(db, kept, k);
    if w != -1 {
      assert Shaped(kept[w], m, kind);
    } else if k !in taken {
      var j := UndroppedIsKept(ops, taken, i);
    }
  }

  /**
    Every alias an enqueue or a mark set out to write names a message once it
    has committed, dropped ones included; a dropped one already did.
   */
  lemma DroppedAliasesLoseNothing(events: seq<Event>, e: Event, i: nat)
    requires ValidRun(events) && CanCommit(events, e) && (e.EnqueueEvent? || e.MarkEvent?)
    requires i < |WholePlan(e)| && WholePlan(e)[i].op.AliasFirstWriter?
    ensures var b, k := Commit(After(events), e), Target(WholePlan(e)[i].op);
            && k in b && IsRealAlias(b[k])
            && (k in e.taken ==> Lookup(After(events), k) == Some(b[k]))
  {
    ReadyNow(events, e);
    var k := Target(WholePlan(e)[i].op);
    forall t | t in e.taken ensures HasRealAlias(After(events), t) {
      TakenStaysReal(events, e.taken, t);
    }
    WholePlanShape(e);
    DropLosesNothing(After(events), WholePlan(e), e.taken, i, e.msg, KindOf(e));
    if k in e.taken {
      RealAliasStays(After(events), e, k);
    }
  }
}
