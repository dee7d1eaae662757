/**
  Two inserts that race: exactly when both may start a thread of their own,
  and runs in which the alias rows an insert read are out of date.
 */
module Races {
  import opened Aliases
  import opened Calls
  import opened Plan
  import opened Records
  import opened Runs
  import opened Shapes
  import opened Threads

  /** An insert whose lookup found nothing. */
  function FreshInsert(m: Message, listed: seq<string>): Event {
    InsertEvent(m, listed, map[], None)
  }

  function FreshOps(m: Message, listed: seq<string>): seq<PlannedOp> {
    InsertOps(m, None, Started(m), AliasLookup(listed, map[]))
  }

  ghost predicate Unbracketed(listed: seq<string>) {
    forall c :: c in listed ==> StripAngleBrackets(c) == c
  }

  lemma {:induction false} NothingFound(listed: seq<string>)
    ensures FoundThread(listed, map[]) == None
  {
    if listed != [] { NothingFound(listed[1..]); }
  }

  lemma FreshPlan(m: Message, listed: seq<string>)
    ensures StartsThread(FreshInsert(m, listed))
    ensures PlanOf(FreshInsert(m, listed)) == Planned(FreshOps(m, listed))
  {
    NothingFound(listed);
  }

  // ---------------------------------------------------------------------
  // The alias rows a fresh insert writes
  // ---------------------------------------------------------------------

  /** The ids that get a row: its own, unless empty, and every other one it lists; none over 900 bytes. */
  predicate Writes(m: Message, listed: seq<string>, c: string) {
    |c| <= ALIAS_ID_MAX_BYTES && if c == OwnId(m) then c != "" else c in listed
  }

  predicate IsWriteOf(op: WriteOp, m: Message, listed: seq<string>) {
    op.AliasFirstWriter? ==>
      && op.inboxId == m.inboxId && Writes(m, listed, op.rfcId)
      && op.hit == RfcHit(if op.rfcId == OwnId(m) then Some(m.messageId) else None, m.threadId)
  }

  ghost predicate AllWritesOf(ops: seq<PlannedOp>, m: Message, listed: seq<string>) {
    forall i :: 0 <= i < |ops| ==> IsWriteOf(ops[i].op, m, listed)
  }

  lemma {:induction false} PlaceholdersAreWrites(m: Message, listed: seq<string>, n: nat)
    requires Unbracketed(listed) && n <= |listed|
    ensures AllWritesOf(PlaceholderOps(m, OwnId(m), listed[..n], map[]), m, listed)
  {
    if n > 0 {
      assert listed[..n][..n - 1] == listed[..n - 1];
      assert listed[n - 1] in listed;
      PlaceholdersAreWrites(m, listed, n - 1);
    }
  }

  lemma OwnAliasIsWrite(m: Message, listed: seq<string>)
    requires OwnId(m) != ""
    ensures AllWritesOf(AliasOps(m, m.rfcMessageId, Some(m.messageId)), m, listed)
  {
  }

  lemma FreshOpsAreWrites(m: Message, listed: seq<string>)
    requires Unbracketed(listed)
    ensures AllWritesOf(FreshOps(m, listed), m, listed)
  {
    PlaceholdersAreWrites(m, listed, |listed|);
    assert listed[..|listed|] == listed;
    if OwnId(m) != "" { OwnAliasIsWrite(m, listed); }
    InsertWrites(m, listed, Started(m));
  }

  lemma InsertWrites(m: Message, listed: seq<string>, after: ThreadState)
    requires AllWritesOf(PlaceholderOps(m, OwnId(m), listed, map[]), m, listed)
    requires OwnId(m) != "" ==> AllWritesOf(AliasOps(m, m.rfcMessageId, Some(m.messageId)), m, listed)
    ensures AllWritesOf(InsertOps(m, None, after, AliasLookup(listed, map[])), m, listed)
  {
  }

  /** The write for each of those ids is there. */
  lemma WriteIsPlanned(m: Message, listed: seq<string>, c: string) returns (i: nat)
    requires Unbracketed(listed) && Writes(m, listed, c)
    ensures i < |FreshOps(m, listed)| && FreshOps(m, listed)[i].op.AliasFirstWriter?
    ensures Target(FreshOps(m, listed)[i].op) == AliasKey(m.inboxId, c)
  {
    var lookup := AliasLookup(listed, map[]);
    if c == OwnId(m) {
      OwnIdIsWritten(m, None, Started(m), lookup);
      i := 2;
    } else {
      i := MissIsWritten(m, None, Started(m), lookup, c);
    }
  }

  /** A row a fresh insert may write over: none or, for its own id, a placeholder. */
  predicate Free(db: Db, m: Message, c: string) {
    var k := AliasKey(m.inboxId, c);
    k !in db || (c == OwnId(m) && !IsRealAlias(db[k]))
  }

  /** On any table, a fresh insert passes exactly when its message and thread are new and its ids are free. */
  lemma FreshInsertHolds(db: Db, m: Message, listed: seq<string>)
    requires Unbracketed(listed)
    ensures AllHold(db, FreshOps(m, listed)) <==>
              && MessageKey(m.inboxId, m.messageId) !in db && ThreadKey(m.inboxId, m.threadId) !in db
              && forall c :: Writes(m, listed, c) ==> Free(db, m, c)
  {
    var ops := FreshOps(m, listed);
    if AllHold(db, ops) {
      assert OpHolds(db, ops[0].op) && OpHolds(db, ops[1].op);
      forall c | Writes(m, listed, c) ensures Free(db, m, c) {
        var i := WriteIsPlanned(m, listed, c);
        FreshOpsAreWrites(m, listed);
        assert OpHolds(db, ops[i].op) && IsWriteOf(ops[i].op, m, listed);
      }
    }
    if MessageKey(m.inboxId, m.messageId) !in db && ThreadKey(m.inboxId, m.threadId) !in db
       && forall c :: Writes(m, listed, c) ==> Free(db, m, c)
    {
      FreeHolds(db, m, listed);
    }
  }

  lemma FreeHolds(db: Db, m: Message, listed: seq<string>)
    requires Unbracketed(listed)
    requires MessageKey(m.inboxId, m.messageId) !in db && ThreadKey(m.inboxId, m.threadId) !in db
    requires forall c :: Writes(m, listed, c) ==> Free(db, m, c)
    ensures AllHold(db, FreshOps(m, listed))
  {
    var ops := FreshOps(m, listed);
    FreshOpsAreWrites(m, listed);
    FreshOpsAreNew(m, listed);
    forall i | 0 <= i < |ops| ensures OpHolds(db, ops[i].op) {
      assert IsWriteOf(ops[i].op, m, listed);
      if ops[i].op.AliasFirstWriter? { assert Free(db, m, ops[i].op.rfcId); }
    }
  }

  lemma FreshOpsAreNew(m: Message, listed: seq<string>)
    ensures forall i :: 0 <= i < |FreshOps(m, listed)| && !FreshOps(m, listed)[i].op.AliasFirstWriter? ==>
              && FreshOps(m, listed)[i].op.Put? && FreshOps(m, listed)[i].op.cond == NotExists
              && (Target(FreshOps(m, listed)[i].op) == MessageKey(m.inboxId, m.messageId)
                  || Target(FreshOps(m, listed)[i].op) == ThreadKey(m.inboxId, m.threadId))
  {
    PlaceholdersAreAliases(m, OwnId(m), listed);
  }

  lemma {:induction false} PlaceholdersAreAliases(m: Message, ownId: string, listed: seq<string>)
    ensures forall i :: 0 <= i < |PlaceholderOps(m, ownId, listed, map[])| ==>
              PlaceholderOps(m, ownId, listed, map[])[i].op.AliasFirstWriter?
  {
    if listed != [] { PlaceholdersAreAliases(m, ownId, listed[..|listed| - 1]); }
  }

  /** The alias rows of a table that held none of them. */
  lemma FreshRow(db: Db, m: Message, listed: seq<string>, k: Key)
    requires Unbracketed(listed) && k.AliasKey?
    ensures var row := Lookup(ApplyAll(db, FreshOps(m, listed)), k);
            if k.inboxId == m.inboxId && Writes(m, listed, k.rfcId)
            then NamesHit(row, RfcHit(if k.rfcId == OwnId(m) then Some(m.messageId) else None, m.threadId))
            else row == Lookup(db, k)
  {
    var ops := FreshOps(m, listed);
    FreshOpsAreWrites(m, listed);
    FreshOpsAreNew(m, listed);
    var i := AliasWriteSource(db, ops, k);
    if i != -1 {
      assert IsWriteOf(ops[i].op, m, listed);
    } else if k.inboxId == m.inboxId && Writes(m, listed, k.rfcId) {
      var j := WriteIsPlanned(m, listed, k.rfcId);
    }
  }

  /** Away from its message, its thread and its aliases, it writes nothing. */
  lemma FreshElsewhere(db: Db, m: Message, listed: seq<string>, k: Key)
    requires !k.AliasKey? && k != MessageKey(m.inboxId, m.messageId) && k != ThreadKey(m.inboxId, m.threadId)
    ensures Lookup(ApplyAll(db, FreshOps(m, listed)), k) == Lookup(db, k)
  {
    FreshOpsAreNew(m, listed);
    UntargetedUnchanged(db, FreshOps(m, listed), k);
  }

  // ---------------------------------------------------------------------
  // Two fresh inserts
  // ---------------------------------------------------------------------

  /** A message as ingest builds it. */
  ghost predicate IsInbound(m: Message, listed: seq<string>) {
    IsNewMessage(m) && m.sendStatus == None && Unbracketed(listed)
  }

  lemma NothingSeenAtFirst(events: seq<Event>, k: Key)
    ensures Seen(events, k, None)
  {
    assert After(events[..0]) == map[];
  }

  lemma FreshIsReady(events: seq<Event>, m: Message, listed: seq<string>)
    requires IsInbound(m, listed)
    ensures Ready(events, FreshInsert(m, listed))
  {
    forall c | c in listed ensures AliasSeen(events, m.inboxId, c, None) {
      NothingSeenAtFirst(events, AliasKey(m.inboxId, c));
    }
    NothingFound(listed);
    NothingSeenAtFirst(events, ThreadKey(m.inboxId, m.threadId));
    LegalIsReady(events, FreshInsert(m, listed));
  }

  /** A fresh insert can always be the first commit. */
  lemma FreshFirst(m: Message, listed: seq<string>)
    requires IsInbound(m, listed)
    ensures ValidRun([FreshInsert(m, listed)])
    ensures After([FreshInsert(m, listed)]) == ApplyAll(map[], FreshOps(m, listed))
  {
    FreshPlan(m, listed);
    FreshIsReady([], m, listed);
    FreshInsertHolds(map[], m, listed);
    Extend([], FreshInsert(m, listed));
    assert [] + [FreshInsert(m, listed)] == [FreshInsert(m, listed)];
  }

  /** It can be the next commit exactly when the table lets it. */
  lemma FreshNext(events: seq<Event>, m: Message, listed: seq<string>)
    requires ValidRun(events) && IsInbound(m, listed)
    ensures ValidRun(events + [FreshInsert(m, listed)]) <==> AllHold(After(events), FreshOps(m, listed))
  {
    var e := FreshInsert(m, listed);
    FreshPlan(m, listed);
    FreshIsReady(events, m, listed);
    if AllHold(After(events), FreshOps(m, listed)) {
      Extend(events, e);
    }
    if ValidRun(events + [e]) {
      LastStep(events + [e]);
      assert (events + [e])[..|events + [e]| - 1] == events;
    }
  }

  /**
    What lets both start a thread: the later one's own id is not the earlier
    one's, and no other id the later one lists got a row from the earlier one.
   */
  ghost predicate BothFit(m1: Message, listed1: seq<string>, m2: Message, listed2: seq<string>) {
    m1.inboxId == m2.inboxId ==>
      && (OwnId(m2) == "" || |OwnId(m2)| > ALIAS_ID_MAX_BYTES || OwnId(m2) != OwnId(m1))
      && forall c :: c in listed2 && c != OwnId(m2) && |c| <= ALIAS_ID_MAX_BYTES ==> !Writes(m1, listed1, c)
  }

  lemma FreeAfterFirst(m1: Message, listed1: seq<string>, m2: Message, c: string)
    requires Unbracketed(listed1)
    ensures Free(ApplyAll(map[], FreshOps(m1, listed1)), m2, c) <==>
              m1.inboxId != m2.inboxId || !Writes(m1, listed1, c) || (c == OwnId(m2) && c != OwnId(m1))
  {
    FreshRow(map[], m1, listed1, AliasKey(m2.inboxId, c));
  }

  lemma FitsIsFree(m1: Message, listed1: seq<string>, m2: Message, listed2: seq<string>)
    requires Unbracketed(listed1)
    ensures BothFit(m1, listed1, m2, listed2) <==>
              forall c :: Writes(m2, listed2, c) ==> Free(ApplyAll(map[], FreshOps(m1, listed1)), m2, c)
  {
    var db := ApplyAll(map[], FreshOps(m1, listed1));
    forall c ensures Free(db, m2, c) <==>
                       m1.inboxId != m2.inboxId || !Writes(m1, listed1, c) || (c == OwnId(m2) && c != OwnId(m1))
    {
      FreeAfterFirst(m1, listed1, m2, c);
    }
    if forall c :: Writes(m2, listed2, c) ==> Free(db, m2, c) {
      assert Writes(m2, listed2, OwnId(m2)) ==> Free(db, m2, OwnId(m2));
      forall c | c in listed2 && c != OwnId(m2) && |c| <= ALIAS_ID_MAX_BYTES && m1.inboxId == m2.inboxId
        ensures !Writes(m1, listed1, c)
      {
        assert Writes(m2, listed2, c);
      }
    }
  }

  /**
    Both of two fresh inserts with messages and threads of their own commit,
    each starting its thread, exactly when they fit.
   */
  lemma BothStartIffTheyFit(m1: Message, listed1: seq<string>, m2: Message, listed2: seq<string>)
    requires IsInbound(m1, listed1) && IsInbound(m2, listed2)
    requires MessageKey(m1.inboxId, m1.messageId) != MessageKey(m2.inboxId, m2.messageId)
    requires ThreadKey(m1.inboxId, m1.threadId) != ThreadKey(m2.inboxId, m2.threadId)
    ensures StartsThread(FreshInsert(m1, listed1)) && StartsThread(FreshInsert(m2, listed2))
    ensures ValidRun([FreshInsert(m1, listed1), FreshInsert(m2, listed2)]) <==> BothFit(m1, listed1, m2, listed2)
  {
    var e1, e2 := FreshInsert(m1, listed1), FreshInsert(m2, listed2);
    FreshPlan(m1, listed1);
    FreshPlan(m2, listed2);
    FreshFirst(m1, listed1);
    FreshNext([e1], m2, listed2);
    assert [e1] + [e2] == [e1, e2];
    FreshElsewhere(map[], m1, listed1, MessageKey(m2.inboxId, m2.messageId));
    FreshElsewhere(map[], m1, listed1, ThreadKey(m2.inboxId, m2.threadId));
    FreshInsertHolds(After([e1]), m2, listed2);
    FitsIsFree(m1, listed1, m2, listed2);
  }

  // ---------------------------------------------------------------------
  // Stale placeholders
  // ---------------------------------------------------------------------

  lemma FreshThread(db: Db, m: Message, listed: seq<string>)
    ensures Lookup(ApplyAll(db, FreshOps(m, listed)), ThreadKey(m.inboxId, m.threadId)) == Some(ThreadRow(Started(m)))
  {
    FreshOpsAreNew(m, listed);
    PlaceholdersAreAliases(m, OwnId(m), listed);
    SoleWriteWins(db, FreshOps(m, listed), 1);
  }

  /** An insert whose lookup found one alias and whose thread it read. */
  function LateInsert(m: Message, c: string, hit: RfcHit, t: ThreadState): Event {
    InsertEvent(m, [OwnId(m), c], map[c := hit], Some(t))
  }

  lemma LateThread(m: Message, c: string, hit: RfcHit)
    requires OwnId(m) != c
    ensures FoundThread([OwnId(m), c], map[c := hit]) == Some(hit.threadId)
  {
    assert [OwnId(m), c][1..] == [c];
  }

  lemma LatePlan(m: Message, c: string, hit: RfcHit, t: ThreadState)
    requires OwnId(m) != c && OwnId(m) != ""
    ensures var r := m.(threadId := hit.threadId);
            && Subject(LateInsert(m, c, hit, t)) == r
            && PlanOf(LateInsert(m, c, hit, t))
                 == Planned([PutMessage(StoredMessage(r, Joined(t, r))), PutThread(Joined(t, r), Some(t.version))]
                            + AliasOps(r, r.rfcMessageId, Some(r.messageId)))
  {
    var r := m.(threadId := hit.threadId);
    var found: map<string, RfcHit> := map[c := hit];
    assert [OwnId(m), c][..1] == [OwnId(m)] && [OwnId(m)][..0] == [];
    assert PlaceholderOps(r, OwnId(r), [OwnId(m)], found) == [];
    assert PlaceholderOps(r, OwnId(r), [OwnId(m), c], found) == [];
    LateThread(m, c, hit);
  }

  lemma LatePasses(db: Db, m: Message, c: string, hit: RfcHit, t: ThreadState)
    requires OwnId(m) != c && OwnId(m) != "" && t.inboxId == m.inboxId && t.threadId == hit.threadId
    requires Lookup(db, ThreadKey(t.inboxId, t.threadId)) == Some(ThreadRow(t))
    requires MessageKey(m.inboxId, m.messageId) !in db && AliasKey(m.inboxId, OwnId(m)) !in db
    ensures Passes(db, LateInsert(m, c, hit, t))
  {
    LatePlan(m, c, hit, t);
  }

  lemma LateIsReady(events: seq<Event>, n: nat, m: Message, c: string, hit: RfcHit, t: ThreadState)
    requires n <= |events| && IsInbound(m, [OwnId(m), c]) && OwnId(m) != c
    requires Lookup(After(events[..n]), AliasKey(m.inboxId, OwnId(m))) == None
    requires NamesHit(Lookup(After(events[..n]), AliasKey(m.inboxId, c)), hit)
    requires Lookup(After(events[..n]), ThreadKey(m.inboxId, hit.threadId)) == Some(ThreadRow(t))
    ensures Ready(events, LateInsert(m, c, hit, t))
  {
    LateThread(m, c, hit);
    assert Seen(events, ThreadKey(m.inboxId, hit.threadId), Some(ThreadRow(t)));
    assert AliasSeen(events, m.inboxId, c, Some(hit));
    assert Seen(events, AliasKey(m.inboxId, OwnId(m)), None);
    assert OwnId(m) in [OwnId(m), c] && c in [OwnId(m), c];
    LegalIsReady(events, LateInsert(m, c, hit, t));
  }

  /** Three messages of one inbox, the second the parent of the other two, no two ids alike. */
  ghost predicate TwoRepliesAndParent(reply: Message, parent: Message, late: Message, c: string) {
    && reply.inboxId == parent.inboxId == late.inboxId
    && reply.messageId != parent.messageId && reply.messageId != late.messageId && parent.messageId != late.messageId
    && reply.threadId != parent.threadId
    && c == OwnId(parent) && c != "" && |c| <= ALIAS_ID_MAX_BYTES && StripAngleBrackets(c) == c
    && OwnId(reply) != c && OwnId(late) != c && OwnId(late) != OwnId(reply) && OwnId(late) != ""
    && IsInbound(reply, [OwnId(reply), c]) && IsInbound(parent, [c]) && IsInbound(late, [OwnId(late), c])
  }

  /** What the late reply read after the first commit, and what it meets after the second. */
  lemma LateReplyFinds(reply: Message, parent: Message, late: Message, c: string)
    requires TwoRepliesAndParent(reply, parent, late, c)
    ensures var first := ApplyAll(map[], FreshOps(reply, [OwnId(reply), c]));
            var second := ApplyAll(first, FreshOps(parent, [c]));
            var k, t := AliasKey(late.inboxId, c), ThreadKey(late.inboxId, reply.threadId);
            && NamesHit(Lookup(first, k), RfcHit(None, reply.threadId))
            && Lookup(first, AliasKey(late.inboxId, OwnId(late))) == None
            && Lookup(first, t) == Some(ThreadRow(Started(reply)))
            && NamesHit(Lookup(second, k), RfcHit(Some(parent.messageId), parent.threadId))
            && Lookup(second, t) == Some(ThreadRow(Started(reply)))
            && MessageKey(late.inboxId, late.messageId) !in second && AliasKey(late.inboxId, OwnId(late)) !in second
  {
    var first := ApplyAll(map[], FreshOps(reply, [OwnId(reply), c]));
    FreshRow(map[], reply, [OwnId(reply), c], AliasKey(late.inboxId, c));
    FreshRow(first, parent, [c], AliasKey(late.inboxId, c));
    FreshRow(map[], reply, [OwnId(reply), c], AliasKey(late.inboxId, OwnId(late)));
    FreshRow(first, parent, [c], AliasKey(late.inboxId, OwnId(late)));
    FreshThread(map[], reply, [OwnId(reply), c]);
    FreshElsewhere(first, parent, [c], ThreadKey(late.inboxId, reply.threadId));
    FreshElsewhere(map[], reply, [OwnId(reply), c], MessageKey(late.inboxId, late.messageId));
    FreshElsewhere(first, parent, [c], MessageKey(late.inboxId, late.messageId));
  }

  lemma AfterTwo(e1: Event, e2: Event)
    ensures [e1, e2][..1] == [e1] && After([e1, e2]) == Commit(After([e1]), e2)
  {
    assert [e1, e2][..1] == [e1];
  }

  /** The run of the first two. */
  lemma AfterBoth(reply: Message, parent: Message, late: Message, c: string)
    requires TwoRepliesAndParent(reply, parent, late, c)
    ensures var run := [FreshInsert(reply, [OwnId(reply), c]), FreshInsert(parent, [c])];
            && ValidRun(run) && After(run[..1]) == ApplyAll(map[], FreshOps(reply, [OwnId(reply), c]))
            && After(run) == ApplyAll(ApplyAll(map[], FreshOps(reply, [OwnId(reply), c])), FreshOps(parent, [c]))
  {
    BothStartIffTheyFit(reply, [OwnId(reply), c], parent, [c]);
    FreshFirst(reply, [OwnId(reply), c]);
    FreshPlan(parent, [c]);
    AfterTwo(FreshInsert(reply, [OwnId(reply), c]), FreshInsert(parent, [c]));
  }

  /**
    A placeholder that was read may be out of date at commit. A reply, its
    parent and a second reply that looked its parent up in between: the second
    reply joins the first one's thread, though the parent's id is by then its
    own, in another thread.
   */
  lemma StalePlaceholderCommits(reply: Message, parent: Message, late: Message, c: string)
    requires TwoRepliesAndParent(reply, parent, late, c)
    ensures var run := [FreshInsert(reply, [OwnId(reply), c]), FreshInsert(parent, [c])];
            var e := LateInsert(late, c, RfcHit(None, reply.threadId), Started(reply));
            && ValidRun(run + [e]) && Subject(e).threadId == reply.threadId != parent.threadId
            && NamesHit(Lookup(After(run), AliasKey(late.inboxId, c)), RfcHit(Some(parent.messageId), parent.threadId))
  {
    var run := [FreshInsert(reply, [OwnId(reply), c]), FreshInsert(parent, [c])];
    var hit := RfcHit(None, reply.threadId);
    AfterBoth(reply, parent, late, c);
    LateReplyFinds(reply, parent, late, c);
    LateIsReady(run, 1, late, c, hit, Started(reply));
    LatePasses(After(run), late, c, hit, Started(reply));
    LatePlan(late, c, hit, Started(reply));
    Extend(run, LateInsert(late, c, hit, Started(reply)));
  }

  // ---------------------------------------------------------------------
  // Instances
  // ---------------------------------------------------------------------

  function Mail(messageId: string, threadId: string, rfcId: string): Message {
    Message("in", threadId, messageId, None, Inbound, rfcId, Participant("a", None), [], [], [], [], "", "", "", 0, [], None, None, None, 0, "", "", 0)
  }

  /** A parent and its reply can end up in two threads. */
  lemma ParentAndReplyCanSplit()
    ensures var run := [FreshInsert(Mail("m1", "t1", "<r>"), ["r", "p"]), FreshInsert(Mail("m2", "t2", "<p>"), ["p"])];
            ValidRun(run) && StartsThread(run[0]) && StartsThread(run[1])
  {
    var reply, parent := Mail("m1", "t1", "<r>"), Mail("m2", "t2", "<p>");
    assert OwnId(parent) == "p" && OwnId(reply) == "r";
    assert "r"[0] != "p"[0] && "m1"[1] != "m2"[1] && "t1"[1] != "t2"[1];
    BothStartIffTheyFit(reply, ["r", "p"], parent, ["p"]);
  }

  /** And three messages as `StalePlaceholderCommits` wants them there are. */
  lemma LateRepliesExist()
    ensures TwoRepliesAndParent(Mail("m1", "t1", "<r>"), Mail("m2", "t2", "<p>"), Mail("m3", "t3", "<q>"), "p")
  {
    assert OwnId(Mail("m2", "t2", "<p>")) == "p" && OwnId(Mail("m1", "t1", "<r>")) == "r" && OwnId(Mail("m3", "t3", "<q>")) == "q";
    assert "r"[0] != "p"[0] && "q"[0] != "p"[0] && "q"[0] != "r"[0];
    assert "m1"[1] != "m2"[1] && "m1"[1] != "m3"[1] && "m2"[1] != "m3"[1] && "t1"[1] != "t2"[1];
  }
}
