/**
  Exactly when an insert's alias lookup still holds at its commit, and exactly
  which lookups are certain to hold whatever commits in between.
 */
module Lookups {
  import opened Aliases
  import opened Calls
  import opened Effects
  import opened Plan
  import opened Races
  import opened Records
  import opened Replay
  import opened Runs
  import opened Sends
  import opened Shapes
  import opened Threads

  // ---------------------------------------------------------------------
  // The first of several ids
  // ---------------------------------------------------------------------

  /** The first candidate among `ids`. */
  function FirstIn(candidates: seq<string>, ids: set<string>): (r: Option<string>)
    ensures r.Some? ==> r.value in candidates && r.value in ids
    ensures r.None? ==> forall c :: c in candidates ==> c !in ids
  {
    if candidates == [] then None
    else
      assert candidates == [candidates[0]] + candidates[1..];
      if candidates[0] in ids then Some(candidates[0]) else FirstIn(candidates[1..], ids)
  }

  lemma {:induction false} FirstIsFound(candidates: seq<string>, found: map<string, RfcHit>)
    ensures var first := FirstIn(candidates, found.Keys);
            FoundThread(candidates, found) == if first.None? then None else Some(found[first.value].threadId)
  {
    if candidates != [] { FirstIsFound(candidates[1..], found); }
  }

  lemma {:induction false} SameFirst(candidates: seq<string>, a: set<string>, b: set<string>)
    requires forall c :: c in candidates ==> (c in a <==> c in b)
    ensures FirstIn(candidates, a) == FirstIn(candidates, b)
  {
    if candidates != [] {
      assert candidates == [candidates[0]] + candidates[1..];
      assert candidates[0] in candidates;
      SameFirst(candidates[1..], a, b);
    }
  }

  /** One more id changes the first only by being it. */
  lemma {:induction false} FirstWithout(candidates: seq<string>, ids: set<string>, id: string)
    requires FirstIn(candidates, ids + {id}) != Some(id)
    ensures FirstIn(candidates, ids + {id}) == FirstIn(candidates, ids)
  {
    if candidates != [] && candidates[0] !in ids + {id} { FirstWithout(candidates[1..], ids, id); }
  }

  // ---------------------------------------------------------------------
  // When a lookup still holds
  // ---------------------------------------------------------------------

  predicate RowNames(db: Db, inboxId: string, id: string, threadId: string) {
    var k := AliasKey(inboxId, id);
    k in db && db[k].AliasRow? && db[k].hit.threadId == threadId
  }

  /** The own id was missed, has a row by now, and comes before every id that was found. */
  predicate OwnComesFirst(db: Db, e: Event)
    requires e.InsertEvent?
  {
    var own := OwnId(e.msg);
    own !in e.found && AliasKey(e.msg.inboxId, own) in db && FirstIn(e.candidates, e.found.Keys + {own}) == Some(own)
  }

  /**
    The row that decides names the thread the message is filed in: the row the
    own id has got, where that comes first, or else the row of the first id found,
    if any was.
   */
  predicate StillNames(db: Db, e: Event)
    requires e.InsertEvent?
  {
    var first := FirstIn(e.candidates, e.found.Keys);
    if OwnComesFirst(db, e) then RowNames(db, e.msg.inboxId, OwnId(e.msg), Subject(e).threadId)
    else first.Some? ==> RowNames(db, e.msg.inboxId, first.value, Subject(e).threadId)
  }

  lemma FoundIsStored(events: seq<Event>, e: Event, c: string)
    requires ValidRun(events) && Ready(events, e) && e.InsertEvent? && c in e.found
    ensures c in e.candidates && AliasKey(e.msg.inboxId, c) in After(events)
  {
    ReadyNow(events, e);
    assert AliasSeen(events, e.msg.inboxId, c, HitFor(e.found, c));
    var n :| 0 <= n <= |events| && NamesHit(Lookup(After(events[..n]), AliasKey(e.msg.inboxId, c)), e.found[c]);
    RunGrows(events, n);
  }

  lemma HasRowNow(db: Db, inboxId: string, candidates: seq<string>, c: string)
    requires Typed(db) && c in candidates
    ensures c in HitsNow(db, inboxId, candidates) <==> AliasKey(inboxId, c) in db
  {
    if AliasKey(inboxId, c) in db { assert KeyOf(db[AliasKey(inboxId, c)]) == AliasKey(inboxId, c); }
  }

  /** The candidates with a row at commit: those found and, if it got one, the own id. */
  lemma RowAtCommit(events: seq<Event>, e: Event, c: string)
    requires ValidRun(events) && CanCommit(events, e) && e.InsertEvent? && c in e.candidates
    ensures c in HitsNow(After(events), e.msg.inboxId, e.candidates)
            <==> c in e.found || (c == OwnId(e.msg) && AliasKey(e.msg.inboxId, c) in After(events))
  {
    if c != OwnId(e.msg) {
      CandidateNow(events, e, c);
    } else {
      RunGrows(events, 0);
      HasRowNow(After(events), e.msg.inboxId, e.candidates, c);
      if c in e.found { FoundIsStored(events, e, c); }
    }
  }

  /** The first candidate with a row at commit. */
  lemma FirstAtCommit(events: seq<Event>, e: Event)
    requires ValidRun(events) && CanCommit(events, e) && e.InsertEvent?
    ensures FirstIn(e.candidates, HitsNow(After(events), e.msg.inboxId, e.candidates).Keys)
         == if OwnComesFirst(After(events), e) then Some(OwnId(e.msg)) else FirstIn(e.candidates, e.found.Keys)
  {
    var own, now := OwnId(e.msg), HitsNow(After(events), e.msg.inboxId, e.candidates);
    forall c | c in e.candidates
      ensures c in now.Keys <==> c in e.found.Keys || (c == own && AliasKey(e.msg.inboxId, own) in After(events))
    {
      RowAtCommit(events, e, c);
    }
    FirstWithOwn(e.candidates, e.found.Keys, own, AliasKey(e.msg.inboxId, own) in After(events), now.Keys);
  }

  lemma FirstWithOwn(candidates: seq<string>, found: set<string>, own: string, stored: bool, now: set<string>)
    requires forall c :: c in candidates ==> (c in now <==> c in found || (c == own && stored))
    ensures FirstIn(candidates, now)
         == if own !in found && stored && FirstIn(candidates, found + {own}) == Some(own) then Some(own) else FirstIn(candidates, found)
  {
    SameFirst(candidates, now, if stored then found + {own} else found);
    if FirstIn(candidates, found + {own}) != Some(own) {
      FirstWithout(candidates, found, own);
    } else if own in found {
      assert found + {own} == found;
    }
  }

  /** A lookup still holds at commit exactly if the row that decides names the thread the message is filed in. */
  lemma LookupHeldIff(events: seq<Event>, e: Event)
    requires ValidRun(events) && CanCommit(events, e) && e.InsertEvent?
    ensures LookupHeld(After(events), e) <==> StillNames(After(events), e)
  {
    var now := HitsNow(After(events), e.msg.inboxId, e.candidates);
    FirstAtCommit(events, e);
    FirstIsFound(e.candidates, e.found);
    FirstIsFound(e.candidates, now);
    RunGrows(events, 0);
  }

  // ---------------------------------------------------------------------
  // Which lookups are certain to hold
  // ---------------------------------------------------------------------

  /** The id whose row decides, or would if it had one: the first that was found or that may still get a row. */
  function Deciding(e: Event): Option<string>
    requires e.InsertEvent?
  {
    FirstIn(e.candidates, e.found.Keys + if |OwnId(e.msg)| <= ALIAS_ID_MAX_BYTES then {OwnId(e.msg)} else {})
  }

  /** What the writer itself can tell: no id decides, or one found as a message's own, or its own id found. */
  predicate IsSure(e: Event)
    requires e.InsertEvent?
  {
    var d := Deciding(e);
    d.Some? ==> d.value in e.found && (e.found[d.value].messageId.Some? || (d.value == OwnId(e.msg) && d.value != ""))
  }

  /** The deciding row is still as the lookup found it. */
  predicate DecidesAsSeen(db: Db, e: Event)
    requires e.InsertEvent?
  {
    var d := Deciding(e);
    d.Some? ==>
      var row := Lookup(db, AliasKey(e.msg.inboxId, d.value));
      if d.value in e.found then NamesHit(row, e.found[d.value]) else row.None?
  }

  /** What decides, where the own id has no row ahead of the ids found. */
  lemma DecidingIsFirst(events: seq<Event>, e: Event)
    requires ValidRun(events) && e.InsertEvent? && (Deciding(e).Some? ==> Deciding(e).value in e.found)
    ensures !OwnComesFirst(After(events), e) && FirstIn(e.candidates, e.found.Keys) == Deciding(e)
  {
    var own, k := OwnId(e.msg), AliasKey(e.msg.inboxId, OwnId(e.msg));
    if |own| <= ALIAS_ID_MAX_BYTES {
      if Deciding(e) != Some(own) {
        FirstWithout(e.candidates, e.found.Keys, own);
      } else {
        assert e.found.Keys + {own} == e.found.Keys;
      }
    } else {
      LongIdsHaveNoRow(events, k);
      assert e.found.Keys + {} == e.found.Keys;
    }
  }

  /** A row found as a message's own, or for the insert's own id, is still that row at commit. */
  lemma FixedAtCommit(events: seq<Event>, e: Event, c: string)
    requires ValidRun(events) && CanCommit(events, e) && e.InsertEvent? && c in e.found
    requires e.found[c].messageId.Some? || (c == OwnId(e.msg) && c != "")
    ensures RowNames(After(events), e.msg.inboxId, c, e.found[c].threadId)
  {
    ReadyNow(events, e);
    if c == OwnId(e.msg) && c != "" {
      LookupAtCommit(events, e, c);
    } else {
      assert AliasSeen(events, e.msg.inboxId, c, HitFor(e.found, c));
      var n :| 0 <= n <= |events| && NamesHit(Lookup(After(events[..n]), AliasKey(e.msg.inboxId, c)), e.found[c]);
      AliasLifeCycle(events, n, AliasKey(e.msg.inboxId, c));
    }
  }

  lemma SureHolds(events: seq<Event>, e: Event)
    requires ValidRun(events) && CanCommit(events, e) && e.InsertEvent? && IsSure(e)
    ensures LookupHeld(After(events), e)
  {
    DecidingIsFirst(events, e);
    LookupHeldIff(events, e);
    FirstIsFound(e.candidates, e.found);
    var d := Deciding(e);
    if d.Some? { FixedAtCommit(events, e, d.value); }
  }

  // ---------------------------------------------------------------------
  // Another writer in between
  // ---------------------------------------------------------------------

  /** `r` can commit, and all it does is store things under `id` and make `c` an alias for that thread. */
  ghost predicate Intrudes(events: seq<Event>, r: Event, inboxId: string, c: string, own: bool, id: string) {
    && CanCommit(events, r)
    && NamesHit(Lookup(Commit(After(events), r), AliasKey(inboxId, c)), RfcHit(if own then Some(id) else None, id))
    && forall k :: k != MessageKey(inboxId, id) && k != ThreadKey(inboxId, id) && k != StateKey(id) && k != AliasKey(inboxId, c)
                   ==> Lookup(Commit(After(events), r), k) == Lookup(After(events), k)
  }

  /** An alias write of an insert: for its own id or, as a placeholder, for an id it missed. */
  predicate ClaimsOrPlaces(p: PlannedOp, m: Message, lookup: AliasLookup) {
    p.op.AliasFirstWriter? ==>
      && p.op.inboxId == m.inboxId
      && if p.op.rfcId == OwnId(m) then p.op.rfcId != "" && p.op.hit.messageId.Some? else p.op.rfcId !in lookup.found
  }

  lemma {:induction false} PlaceholdersPlace(m: Message, candidates: seq<string>, lookup: AliasLookup)
    requires forall c :: c in candidates ==> StripAngleBrackets(c) == c
    ensures forall i :: 0 <= i < |PlaceholderOps(m, OwnId(m), candidates, lookup.found)| ==>
              ClaimsOrPlaces(PlaceholderOps(m, OwnId(m), candidates, lookup.found)[i], m, lookup)
  {
    if candidates != [] {
      assert candidates[|candidates| - 1] in candidates;
      PlaceholdersPlace(m, candidates[..|candidates| - 1], lookup);
    }
  }

  lemma InsertClaimsOrPlaces(m: Message, before: Option<ThreadState>, after: ThreadState, lookup: AliasLookup, i: nat)
    requires i < |InsertOps(m, before, after, lookup)| && forall c :: c in lookup.candidates ==> StripAngleBrackets(c) == c
    ensures var p := InsertOps(m, before, after, lookup)[i];
            && ClaimsOrPlaces(p, m, lookup)
            && (i == 0 ==> Target(p.op) == MessageKey(m.inboxId, m.messageId))
            && (i == 1 ==> Target(p.op) == ThreadKey(after.inboxId, after.threadId))
            && (i > 1 ==> p.op.AliasFirstWriter?)
  {
    PlaceholdersPlace(m, lookup.candidates, lookup);
    PlaceholdersWriteAliases(m, OwnId(m), lookup.candidates, lookup.found);
  }

  lemma {:induction false} PlaceholdersWriteAliases(m: Message, ownId: string, candidates: seq<string>, found: map<string, RfcHit>)
    ensures forall i :: 0 <= i < |PlaceholderOps(m, ownId, candidates, found)| ==>
              PlaceholderOps(m, ownId, candidates, found)[i].op.AliasFirstWriter?
  {
    if candidates != [] { PlaceholdersWriteAliases(m, ownId, candidates[..|candidates| - 1], found); }
  }

  /** Ids an intruder must not use: the message's, and the thread's it is filed in. */
  predicate Apart(e: Event, id: string)
    requires e.InsertEvent?
  {
    id != e.msg.messageId && id != Subject(e).threadId && id != ThreadFor(Subject(e), e.thread).threadId
  }

  /** The insert may commit after the intruder as it might have before. */
  lemma IntruderLetsCommit(events: seq<Event>, r: Event, e: Event, c: string, own: bool, id: string)
    requires ValidRun(events) && CanCommit(events, e) && e.InsertEvent? && Apart(e, id)
    requires Intrudes(events, r, e.msg.inboxId, c, own, id)
    requires if own then c in e.found && (c == OwnId(e.msg) ==> c == "") else c == OwnId(e.msg)
    ensures ValidRun(events + [r]) && CanCommit(events + [r], e)
  {
    Extend(events, r);
    ReadyNow(events, e);
    assert (events + [r])[..|events|] == events;
    ReadyGrows(events, events + [r], e);
    var m, lookup := Subject(e), AliasLookup(e.candidates, e.found);
    var after := ThreadFor(m, e.thread);
    var ops := InsertOps(m, e.thread, after, lookup);
    assert PlanOf(e) == Planned(ops);
    forall i | 0 <= i < |ops| ensures OpHolds(After(events + [r]), ops[i].op) {
      InsertClaimsOrPlaces(m, e.thread, after, lookup, i);
      OpStillHolds(After(events), After(events + [r]), ops[i], e.msg.inboxId, c, own, id, m, lookup);
    }
  }

  lemma OpStillHolds(db: Db, db': Db, p: PlannedOp, inboxId: string, c: string, own: bool, id: string, m: Message, lookup: AliasLookup)
    requires OpHolds(db, p.op) && ClaimsOrPlaces(p, m, lookup) && m.inboxId == inboxId
    requires Target(p.op) != MessageKey(inboxId, id) && Target(p.op) != ThreadKey(inboxId, id) && Target(p.op) != StateKey(id)
    requires Target(p.op).AliasKey? ==> p.op.AliasFirstWriter?
    requires if own then c in lookup.found && (c == OwnId(m) ==> c == "") else c == OwnId(m)
    requires NamesHit(Lookup(db', AliasKey(inboxId, c)), RfcHit(if own then Some(id) else None, id))
    requires forall k :: k != MessageKey(inboxId, id) && k != ThreadKey(inboxId, id) && k != StateKey(id) && k != AliasKey(inboxId, c)
                         ==> Lookup(db', k) == Lookup(db, k)
    ensures OpHolds(db', p.op)
  {
  }

  /** And its lookup no longer holds then. */
  lemma IntruderMisleads(events: seq<Event>, e: Event, c: string, id: string)
    requires ValidRun(events) && CanCommit(events, e) && e.InsertEvent? && Apart(e, id)
    requires Deciding(e) == Some(c) && RowNames(After(events), e.msg.inboxId, c, id)
    ensures !LookupHeld(After(events), e)
  {
    LookupHeldIff(events, e);
    if c in e.found { DecidingIsFirst(events, e); }
  }

  // ---------------------------------------------------------------------
  // There always is one
  // ---------------------------------------------------------------------

  function IdIn(k: Key): string {
    match k
    case MessageKey(_, id) => id
    case ThreadKey(_, id) => id
    case StateKey(id) => id
    case _ => ""
  }

  lemma {:induction false} LongestId(ids: set<string>) returns (n: nat)
    ensures forall id :: id in ids ==> |id| <= n
  {
    if ids == {} {
      n := 0;
    } else {
      var id :| id in ids;
      n := LongestId(ids - {id});
      n := if |id| > n then |id| else n;
    }
  }

  /** An id nothing stored uses. */
  lemma UnusedId(db: Db, others: set<string>) returns (id: string)
    ensures id !in others && forall k :: k in db ==> IdIn(k) != id
  {
    var ids := others + (set k | k in db :: IdIn(k));
    var n := LongestId(ids);
    id := seq(n + 1, i => 'x');
    assert id !in ids;
    forall k | k in db ensures IdIn(k) != id {
      assert IdIn(k) in ids;
    }
  }

  /** An inbound message under one id for itself and its thread. */
  function Stranger(inboxId: string, id: string, rfcId: string): Message {
    Message(inboxId, id, id, None, Inbound, rfcId, Participant("", None), [], [], [], [], "", "", "", 0, [], None, None, None, 0, "", "", 0)
  }

  /** An inbound message whose insert writes the one alias `c`. */
  lemma FreshIntrudes(events: seq<Event>, m: Message, listed: seq<string>, c: string)
    requires ValidRun(events) && IsInbound(m, listed) && m.threadId == m.messageId
    requires forall k :: k in After(events) ==> IdIn(k) != m.messageId
    requires (forall x :: Writes(m, listed, x) <==> x == c) && Free(After(events), m, c)
    ensures Intrudes(events, FreshInsert(m, listed), m.inboxId, c, c == OwnId(m), m.messageId)
  {
    var r, db, id := FreshInsert(m, listed), After(events), m.messageId;
    assert IdIn(MessageKey(m.inboxId, id)) == id && IdIn(ThreadKey(m.inboxId, id)) == id;
    FreshPlan(m, listed);
    FreshIsReady(events, m, listed);
    FreshInsertHolds(db, m, listed);
    FreshRow(db, m, listed, AliasKey(m.inboxId, c));
    forall k | k != MessageKey(m.inboxId, id) && k != ThreadKey(m.inboxId, id) && k != AliasKey(m.inboxId, c)
      ensures Lookup(Commit(db, r), k) == Lookup(db, k)
    {
      if k.AliasKey? { FreshRow(db, m, listed, k); } else { FreshElsewhere(db, m, listed, k); }
    }
  }

  /** A reply that refers to `c`, its own id too long for a row. */
  lemma PlaceholderIntrudes(events: seq<Event>, inboxId: string, c: string, id: string) returns (r: Event)
    requires ValidRun(events) && StripAngleBrackets(c) == c && |c| <= ALIAS_ID_MAX_BYTES
    requires AliasKey(inboxId, c) !in After(events) && forall k :: k in After(events) ==> IdIn(k) != id
    ensures Intrudes(events, r, inboxId, c, false, id)
  {
    var long := seq(ALIAS_ID_MAX_BYTES + 1, i => 'x');
    var m := Stranger(inboxId, id, long);
    assert OwnId(m) == long;
    FreshIntrudes(events, m, [c], c);
    r := FreshInsert(m, [c]);
  }

  /** The message whose own id `c` is. */
  lemma ParentIntrudes(events: seq<Event>, inboxId: string, c: string, id: string) returns (r: Event)
    requires ValidRun(events) && StripAngleBrackets(c) == c && |c| <= ALIAS_ID_MAX_BYTES && c != ""
    requires !HasRealAlias(After(events), AliasKey(inboxId, c)) && forall k :: k in After(events) ==> IdIn(k) != id
    ensures Intrudes(events, r, inboxId, c, true, id)
  {
    var m := Stranger(inboxId, id, c);
    assert OwnId(m) == c;
    FreshIntrudes(events, m, [], c);
    r := FreshInsert(m, []);
  }

  /** A send of ours that carries the empty id, which no inbound message claims. */
  function BlankSend(inboxId: string, id: string): Event {
    var m := Stranger(inboxId, id, "").(direction := Outbound, sendStatus := Some(Queued));
    EnqueueEvent(m, QueuedState(inboxId, id, id, Envelope([], [], []), None, ""), None, None, 0, {})
  }

  function BlankAlias(inboxId: string, id: string): PlannedOp {
    PlannedOp(RfcAliasRole, AliasFirstWriter(inboxId, "", RfcHit(Some(id), id), 0))
  }

  lemma KeylessPlan(m: Message, s: SendState, t: ThreadState, p: PlannedOp)
    requires WithinLabelCaps(m.labels, t.labels) && m.direction.Outbound? && AliasOps(m, m.rfcMessageId, Some(m.messageId)) == [p]
    ensures var ops := [PutMessage(m), PutState(s, NotExists), PutThread(t, None), p];
            EnqueueOps(m, s, None, None, t, 0) == Planned(ops) && DropTaken(ops, {}) == ops
  {
    var head := [PutMessage(m), PutState(s, NotExists), PutThread(t, None)];
    assert KeyOps(None, 0) + head == head;
    DropNothing(head + [p], {});
  }

  lemma BlankSendPlan(inboxId: string, id: string)
    ensures var e := BlankSend(inboxId, id);
            PlanOf(e) == Planned([PutMessage(e.msg), PutState(e.state, NotExists), PutThread(Started(e.msg), None), BlankAlias(inboxId, id)])
  {
    var e := BlankSend(inboxId, id);
    KeylessPlan(e.msg, e.state, Started(e.msg), BlankAlias(inboxId, id));
  }

  lemma BlankSendIsReady(events: seq<Event>, inboxId: string, id: string)
    ensures Ready(events, BlankSend(inboxId, id))
  {
    NothingSeenAtFirst(events, ThreadKey(inboxId, id));
    LegalIsReady(events, BlankSend(inboxId, id));
  }

  /** Three new rows and an alias of their message's own: they pass where none of them is there, and write nothing else. */
  lemma NewSendWrites(db: Db, m: Message, s: SendState, t: ThreadState, p: PlannedOp)
    requires p.op.AliasFirstWriter? && p.op.hit.messageId.Some? && (Target(p.op) in db ==> db[Target(p.op)].AliasRow?)
    requires MessageKey(m.inboxId, m.messageId) !in db && StateKey(s.messageId) !in db && ThreadKey(t.inboxId, t.threadId) !in db
    requires !HasRealAlias(db, Target(p.op))
    ensures var ops := [PutMessage(m), PutState(s, NotExists), PutThread(t, None), p];
            && AllHold(db, ops) && NamesHit(Lookup(ApplyAll(db, ops), Target(p.op)), p.op.hit)
            && forall k :: k != MessageKey(m.inboxId, m.messageId) && k != StateKey(s.messageId)
                           && k != ThreadKey(t.inboxId, t.threadId) && k != Target(p.op)
                           ==> Lookup(ApplyAll(db, ops), k) == Lookup(db, k)
  {
    var ops := [PutMessage(m), PutState(s, NotExists), PutThread(t, None), p];
    SoleWriteWins(db, ops, 3);
    forall k | k != MessageKey(m.inboxId, m.messageId) && k != StateKey(s.messageId) && k != ThreadKey(t.inboxId, t.threadId) && k != Target(p.op)
      ensures Lookup(ApplyAll(db, ops), k) == Lookup(db, k)
    {
      UntargetedUnchanged(db, ops, k);
    }
  }

  lemma BlankSendWrites(db: Db, inboxId: string, id: string)
    requires MessageKey(inboxId, id) !in db && StateKey(id) !in db && ThreadKey(inboxId, id) !in db
    requires Typed(db) && !HasRealAlias(db, AliasKey(inboxId, ""))
    ensures var e := BlankSend(inboxId, id);
            && Passes(db, e) && NamesHit(Lookup(Commit(db, e), AliasKey(inboxId, "")), RfcHit(Some(id), id))
            && forall k :: k != MessageKey(inboxId, id) && k != StateKey(id) && k != ThreadKey(inboxId, id) && k != AliasKey(inboxId, "")
                           ==> Lookup(Commit(db, e), k) == Lookup(db, k)
  {
    var e, c := BlankSend(inboxId, id), AliasKey(inboxId, "");
    if c in db { assert KeyOf(db[c]) == c; }
    BlankSendPlan(inboxId, id);
    NewSendWrites(db, e.msg, e.state, Started(e.msg), BlankAlias(inboxId, id));
  }

  lemma BlankIntrudes(events: seq<Event>, inboxId: string, id: string)
    requires ValidRun(events) && !HasRealAlias(After(events), AliasKey(inboxId, ""))
    requires forall k :: k in After(events) ==> IdIn(k) != id
    ensures Intrudes(events, BlankSend(inboxId, id), inboxId, "", true, id)
  {
    assert IdIn(MessageKey(inboxId, id)) == id && IdIn(ThreadKey(inboxId, id)) == id && IdIn(StateKey(id)) == id;
    BlankSendIsReady(events, inboxId, id);
    RunGrows(events, 0);
    BlankSendWrites(After(events), inboxId, id);
  }

  // ---------------------------------------------------------------------
  // Certainty
  // ---------------------------------------------------------------------

  /** A lookup that is not sure, its deciding row still as it was found, can go out of date with a single further commit. */
  lemma UnsureCanFail(events: seq<Event>, e: Event) returns (r: Event)
    requires ValidRun(events) && CanCommit(events, e) && e.InsertEvent? && !IsSure(e) && DecidesAsSeen(After(events), e)
    ensures ValidRun(events + [r]) && CanCommit(events + [r], e) && !LookupHeld(After(events + [r]), e)
  {
    var inboxId, c := e.msg.inboxId, Deciding(e).value;
    var id := UnusedId(After(events), {e.msg.messageId, Subject(e).threadId, ThreadFor(Subject(e), e.thread).threadId});
    DecidingIsLegal(events, e);
    if c !in e.found {
      r := PlaceholderIntrudes(events, inboxId, c, id);
    } else if c != "" {
      r := ParentIntrudes(events, inboxId, c, id);
    } else {
      BlankIntrudes(events, inboxId, id);
      r := BlankSend(inboxId, id);
    }
    IntruderLetsCommit(events, r, e, c, c in e.found, id);
    Extend(events, r);
    IntruderMisleads(events + [r], e, c, id);
  }

  lemma DecidingIsLegal(events: seq<Event>, e: Event)
    requires ValidRun(events) && CanCommit(events, e) && e.InsertEvent? && Deciding(e).Some? && DecidesAsSeen(After(events), e)
    ensures var c := Deciding(e).value;
            && StripAngleBrackets(c) == c && |c| <= ALIAS_ID_MAX_BYTES
            && (c !in e.found ==> c == OwnId(e.msg))
  {
    ReadyNow(events, e);
    var c := Deciding(e).value;
    if |c| > ALIAS_ID_MAX_BYTES { LongIdsHaveNoRow(events, AliasKey(e.msg.inboxId, c)); }
  }

  /** Whatever else commits before it does, the insert's lookup holds. */
  ghost predicate IsCertain(events: seq<Event>, e: Event) {
    forall more :: ValidRun(events + more) && CanCommit(events + more, e) ==> LookupHeld(After(events + more), e)
  }

  /**
    A writer whose deciding row is still as it found it is certain of its lookup
    exactly if it found nothing that decides, a message's own alias, or its own id.
   */
  lemma CertainIffSure(events: seq<Event>, e: Event)
    requires ValidRun(events) && CanCommit(events, e) && e.InsertEvent? && DecidesAsSeen(After(events), e)
    ensures IsCertain(events, e) <==> IsSure(e)
  {
    if IsSure(e) {
      forall more | ValidRun(events + more) && CanCommit(events + more, e) ensures LookupHeld(After(events + more), e) {
        SureHolds(events + more, e);
      }
    } else {
      var r := UnsureCanFail(events, e);
      assert !LookupHeld(After(events + [r]), e);
    }
  }

  /** An insert that lists its own id first, one a row can have, is sure exactly if it found it. */
  lemma OwnIdFirstIsSure(e: Event)
    requires e.InsertEvent? && e.candidates != [] && e.candidates[0] == OwnId(e.msg) && 0 < |OwnId(e.msg)| <= ALIAS_ID_MAX_BYTES
    ensures Deciding(e) == Some(OwnId(e.msg)) && (IsSure(e) <==> OwnId(e.msg) in e.found)
  {
  }

  /** And if its own row was absent to it and is absent still, it may yet be misled. */
  lemma MissedOwnIdCanFail(events: seq<Event>, e: Event) returns (r: Event)
    requires ValidRun(events) && CanCommit(events, e) && e.InsertEvent?
    requires e.candidates != [] && e.candidates[0] == OwnId(e.msg) && 0 < |OwnId(e.msg)| <= ALIAS_ID_MAX_BYTES
    requires OwnId(e.msg) !in e.found && AliasKey(e.msg.inboxId, OwnId(e.msg)) !in After(events)
    ensures ValidRun(events + [r]) && CanCommit(events + [r], e) && !LookupHeld(After(events + [r]), e)
  {
    OwnIdFirstIsSure(e);
    r := UnsureCanFail(events, e);
  }
}
