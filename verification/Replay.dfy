/**
  The whole table, aliases and references included, replayed call by call:
  each call looks up, reads, plans and commits in one go.
 */
module Replay {
  import opened Aliases
  import opened Calls
  import opened Effects
  import opened Linear
  import opened Plan
  import opened Records
  import opened Rollups
  import opened Runs
  import opened Shapes
  import opened Threads

  // ---------------------------------------------------------------------
  // A call carried out on its own
  // ---------------------------------------------------------------------

  /** The alias rows of the candidates as they stand. */
  function HitsNow(db: Db, inboxId: string, candidates: seq<string>): map<string, RfcHit> {
    map c | c in candidates && AliasKey(inboxId, c) in db && db[AliasKey(inboxId, c)].AliasRow? :: db[AliasKey(inboxId, c)].hit
  }

  /** The alias rows that already are a message's own. */
  function RealAliases(db: Db): set<Key> {
    set k | k in db && IsRealAlias(db[k])
  }

  /** What the call's writer plans from, when it reads everything at once from `db`. */
  function EventNow(db: Db, call: Call): Option<Event> {
    match call
    case CallInsert(msg, candidates) =>
      var found := HitsNow(db, msg.inboxId, candidates);
      Some(InsertEvent(msg, candidates, found, ThreadAt(db, msg.inboxId, Resolved(msg, candidates, found).threadId)))
    case CallEnqueue(msg, s, key, nowEpoch) =>
      Some(EnqueueEvent(msg, s, key, ThreadAt(db, msg.inboxId, msg.threadId), nowEpoch, RealAliases(db)))
    case CallClaim(id, now) =>
      if StateKey(id) in db && db[StateKey(id)].StateRow? then Some(ClaimEvent(db[StateKey(id)].state, now)) else None
    case CallNote(claimed, now) => Some(NoteEvent(claimed, now))
    case CallMark(s, outcome, now) =>
      var mk := MessageKey(s.inboxId, s.messageId);
      if mk in db && db[mk].MessageRow? then
        var msg := db[mk].msg;
        var thread := if MarkMovesLabels(msg, outcome) then ThreadAt(db, msg.inboxId, msg.threadId) else None;
        Some(MarkEvent(s, outcome, msg, thread, now, RealAliases(db)))
      else None
    case CallPatch(inboxId, id, add, remove, now) =>
      var mk := MessageKey(inboxId, id);
      if mk in db && db[mk].MessageRow? && ThreadAt(db, inboxId, db[mk].msg.threadId).Some?
      then Some(PatchEvent(db[mk].msg, add, remove, ThreadAt(db, inboxId, db[mk].msg.threadId).value, now)) else None
  }

  function Serve(db: Db, call: Call): Db {
    var e := EventNow(db, call);
    if e.None? then db else Commit(db, e.value)
  }

  function Served(calls: seq<Call>): Db {
    if calls == [] then map[] else Serve(Served(calls[..|calls| - 1]), calls[|calls| - 1])
  }

  function CallsOf(events: seq<Event>): (r: seq<Call>)
    ensures |r| == |events|
  {
    if events == [] then [] else CallsOf(events[..|events| - 1]) + [CallOf(events[|events| - 1])]
  }

  /** An insert's lookup still files the message in the thread it filed it in. */
  ghost predicate LookupHeld(db: Db, e: Event) {
    e.InsertEvent? ==>
      Resolved(e.msg, e.candidates, HitsNow(db, e.msg.inboxId, e.candidates)) == Resolved(e.msg, e.candidates, e.found)
  }

  // ---------------------------------------------------------------------
  // Same plan
  // ---------------------------------------------------------------------

  lemma {:induction false} DropSame(ops: seq<PlannedOp>, a: set<Key>, b: set<Key>)
    requires forall i :: 0 <= i < |ops| && ops[i].op.AliasFirstWriter? ==> (Target(ops[i].op) in a <==> Target(ops[i].op) in b)
    ensures DropTaken(ops, a) == DropTaken(ops, b)
  {
    if ops != [] {
      DropSame(ops[..|ops| - 1], a, b);
    }
  }

  /** An own alias was left out of a transaction that committed exactly if its row is a message's own. */
  lemma TakenIffReal(db: Db, ops: seq<PlannedOp>, taken: set<Key>, m: Message, kind: Kind)
    requires AllShaped(ops, m, kind) && !kind.placeholders && AllHold(db, DropTaken(ops, taken))
    requires forall k :: k in taken ==> HasRealAlias(db, k)
    ensures DropTaken(ops, taken) == DropTaken(ops, RealAliases(db))
  {
    forall i | 0 <= i < |ops| && ops[i].op.AliasFirstWriter?
      ensures Target(ops[i].op) in taken <==> Target(ops[i].op) in RealAliases(db)
    {
      if Target(ops[i].op) !in taken {
        assert Shaped(ops[i], m, kind);
        KeptWriteHolds(db, ops, taken, i);
      } else {
        assert HasRealAlias(db, Target(ops[i].op));
      }
    }
    DropSame(ops, taken, RealAliases(db));
  }

  lemma {:induction false} SamePlaceholders(m: Message, ownId: string, candidates: seq<string>, a: map<string, RfcHit>, b: map<string, RfcHit>)
    requires forall c :: c in candidates && c != ownId ==> (c in a <==> c in b)
    ensures PlaceholderOps(m, ownId, candidates, a) == PlaceholderOps(m, ownId, candidates, b)
  {
    if candidates != [] {
      var init, last := candidates[..|candidates| - 1], candidates[|candidates| - 1];
      assert candidates == init + [last];
      SamePlaceholders(m, ownId, init, a, b);
    }
  }

  lemma SameInsert(m: Message, before: Option<ThreadState>, after: ThreadState, candidates: seq<string>,
                   a: map<string, RfcHit>, b: map<string, RfcHit>)
    requires forall c :: c in candidates && c != OwnId(m) ==> (c in a <==> c in b)
    requires OwnId(m) != "" ==> (IsClaimable(AliasLookup(candidates, a), OwnId(m)) <==> IsClaimable(AliasLookup(candidates, b), OwnId(m)))
    ensures InsertOps(m, before, after, AliasLookup(candidates, a)) == InsertOps(m, before, after, AliasLookup(candidates, b))
  {
    SamePlaceholders(m, OwnId(m), candidates, a, b);
  }

  lemma ThreadIsRead(db: Db, inboxId: string, threadId: string, thread: Option<ThreadState>)
    requires Lookup(db, ThreadKey(inboxId, threadId)) == ThreadRowOf(thread)
    ensures ThreadAt(db, inboxId, threadId) == thread
  {
  }

  /** What the rows now say of each candidate, against what the lookup found. */
  lemma CandidateNow(events: seq<Event>, e: Event, c: string)
    requires ValidRun(events) && CanCommit(events, e) && e.InsertEvent? && c in e.candidates
    ensures var now := HitsNow(After(events), e.msg.inboxId, e.candidates);
            && (c != OwnId(e.msg) ==> (c in e.found <==> c in now))
            && (c == OwnId(e.msg) && c != "" ==>
                  (IsClaimable(AliasLookup(e.candidates, e.found), c) <==> IsClaimable(AliasLookup(e.candidates, now), c)))
  {
    if c != "" || OwnId(e.msg) != "" {
      LookupAtCommit(events, e, c);
      RunGrows(events, 0);
      var k := AliasKey(e.msg.inboxId, c);
      if k in After(events) { assert KeyOf(After(events)[k]) == k; }
    }
  }

  lemma FoundAreCandidates(events: seq<Event>, e: Event)
    requires Ready(events, e) && e.InsertEvent?
    ensures forall c :: c in e.found ==> c in e.candidates
  {
    ReadyNow(events, e);
  }

  lemma InsertPlansNow(events: seq<Event>, e: Event)
    requires ValidRun(events) && CanCommit(events, e) && e.InsertEvent? && LookupHeld(After(events), e)
    ensures EventNow(After(events), CallOf(e)).Some?
    ensures PlanOf(EventNow(After(events), CallOf(e)).value) == PlanOf(e)
  {
    var db, m := After(events), Subject(e);
    var now := HitsNow(db, e.msg.inboxId, e.candidates);
    assert Resolved(e.msg, e.candidates, now) == m;
    ReadsAreCurrent(events, e);
    ThreadIsRead(db, m.inboxId, m.threadId, e.thread);
    forall c | c in e.candidates && c != OwnId(m) ensures c in e.found <==> c in now {
      CandidateNow(events, e, c);
    }
    FoundAreCandidates(events, e);
    if OwnId(m) in e.candidates { CandidateNow(events, e, OwnId(m)); }
    SameInsert(m, e.thread, ThreadFor(m, e.thread), e.candidates, e.found, now);
  }

  lemma TakenAreRealNow(events: seq<Event>, e: Event)
    requires ValidRun(events) && Ready(events, e) && (e.EnqueueEvent? || e.MarkEvent?)
    ensures forall k :: k in e.taken ==> HasRealAlias(After(events), k)
  {
    ReadyNow(events, e);
    forall k | k in e.taken ensures HasRealAlias(After(events), k) {
      TakenStaysReal(events, e.taken, k);
    }
  }

  lemma MarkThreadNow(events: seq<Event>, e: Event)
    requires ValidRun(events) && CanCommit(events, e) && e.MarkEvent?
    ensures e.thread == if MarkMovesLabels(e.msg, e.outcome) then ThreadAt(After(events), e.msg.inboxId, e.msg.threadId) else None
  {
    ReadyNow(events, e);
    ReadsAreCurrent(events, e);
    if e.thread.Some? { ThreadIsRead(After(events), e.msg.inboxId, e.msg.threadId, e.thread); }
  }

  /** The event with other aliases left out. */
  function WithTaken(e: Event, taken: set<Key>): Event
    requires e.EnqueueEvent? || e.MarkEvent?
  {
    match e
    case EnqueueEvent(msg, s, key, thread, nowEpoch, _) => EnqueueEvent(msg, s, key, thread, nowEpoch, taken)
    case MarkEvent(s, outcome, msg, thread, now, _) => MarkEvent(s, outcome, msg, thread, now, taken)
  }

  lemma EnqueueEventNow(events: seq<Event>, e: Event)
    requires ValidRun(events) && CanCommit(events, e) && e.EnqueueEvent?
    ensures EventNow(After(events), CallOf(e)) == Some(WithTaken(e, RealAliases(After(events))))
  {
    ReadsAreCurrent(events, e);
    ThreadIsRead(After(events), e.msg.inboxId, e.msg.threadId, e.thread);
  }

  lemma MarkEventNow(events: seq<Event>, e: Event)
    requires ValidRun(events) && CanCommit(events, e) && e.MarkEvent?
    ensures EventNow(After(events), CallOf(e)) == Some(WithTaken(e, RealAliases(After(events))))
  {
    ReadsAreCurrent(events, e);
    MarkThreadNow(events, e);
  }

  lemma SameWhole(e: Event, taken: set<Key>)
    requires e.EnqueueEvent? || e.MarkEvent?
    requires DropTaken(WholePlan(e), e.taken) == DropTaken(WholePlan(e), taken)
    ensures PlanOf(WithTaken(e, taken)) == PlanOf(e)
  {
  }

  lemma WholePlansNow(events: seq<Event>, e: Event)
    requires ValidRun(events) && CanCommit(events, e) && (e.EnqueueEvent? || e.MarkEvent?)
    ensures PlanOf(WithTaken(e, RealAliases(After(events)))) == PlanOf(e)
  {
    TakenAreRealNow(events, e);
    WholePlanShape(e);
    TakenIffReal(After(events), WholePlan(e), e.taken, e.msg, KindOf(e));
    SameWhole(e, RealAliases(After(events)));
  }

  lemma SamePlanServes(db: Db, call: Call, now: Event, e: Event)
    requires EventNow(db, call) == Some(now) && PlanOf(now) == PlanOf(e)
    ensures Serve(db, call) == Commit(db, e)
  {
  }

  /** What a committing transaction planned from old reads is what it would plan from its rows now. */
  lemma PlansNow(events: seq<Event>, e: Event)
    requires ValidRun(events) && CanCommit(events, e) && LookupHeld(After(events), e)
    ensures Serve(After(events), CallOf(e)) == Commit(After(events), e)
  {
    var db := After(events);
    match e
    case InsertEvent(_, _, _, _) =>
      InsertPlansNow(events, e);
      SamePlanServes(db, CallOf(e), EventNow(db, CallOf(e)).value, e);
    case EnqueueEvent(_, _, _, _, _, _) =>
      EnqueueEventNow(events, e);
      WholePlansNow(events, e);
      SamePlanServes(db, CallOf(e), WithTaken(e, RealAliases(db)), e);
    case MarkEvent(_, _, _, _, _, _) =>
      MarkEventNow(events, e);
      WholePlansNow(events, e);
      SamePlanServes(db, CallOf(e), WithTaken(e, RealAliases(db)), e);
    case ClaimEvent(_, _) => StateAndPatchNow(events, e);
    case NoteEvent(_, _) => StateAndPatchNow(events, e);
    case PatchEvent(_, _, _, _, _) => StateAndPatchNow(events, e);
  }

  lemma StateAndPatchNow(events: seq<Event>, e: Event)
    requires ValidRun(events) && CanCommit(events, e) && (e.ClaimEvent? || e.NoteEvent? || e.PatchEvent?)
    ensures EventNow(After(events), CallOf(e)) == Some(e)
  {
    ReadsAreCurrent(events, e);
  }

  // ---------------------------------------------------------------------
  // When a lookup goes out of date
  // ---------------------------------------------------------------------

  lemma {:induction false} SameHits(candidates: seq<string>, a: map<string, RfcHit>, b: map<string, RfcHit>)
    requires forall c :: c in candidates ==> HitFor(a, c) == HitFor(b, c)
    ensures FoundThread(candidates, a) == FoundThread(candidates, b)
  {
    if candidates != [] {
      assert candidates == [candidates[0]] + candidates[1..];
      assert HitFor(a, candidates[0]) == HitFor(b, candidates[0]);
      SameHits(candidates[1..], a, b);
    }
  }

  /** The own id was missed and has since become a placeholder; or it is empty, which nothing guards. */
  predicate OwnDrifted(db: Db, e: Event)
    requires e.InsertEvent?
  {
    var own, k := OwnId(e.msg), AliasKey(e.msg.inboxId, OwnId(e.msg));
    own in e.candidates && (own == "" || (own !in e.found && k in db && IsPlaceholder(db[k])))
  }

  /** A placeholder found for another id has since become a message's own. */
  predicate PlaceholderDrifted(db: Db, e: Event, c: string)
    requires e.InsertEvent?
  {
    && c in e.candidates && c in e.found && c != OwnId(e.msg) && e.found[c].messageId.None?
    && HasRealAlias(db, AliasKey(e.msg.inboxId, c))
  }

  lemma UndriftedHit(events: seq<Event>, e: Event, c: string)
    requires ValidRun(events) && CanCommit(events, e) && e.InsertEvent? && c in e.candidates
    requires !OwnDrifted(After(events), e) && !PlaceholderDrifted(After(events), e, c)
    ensures HitFor(e.found, c) == HitFor(HitsNow(After(events), e.msg.inboxId, e.candidates), c)
  {
    LookupAtCommit(events, e, c);
    RunGrows(events, 0);
    var k := AliasKey(e.msg.inboxId, c);
    if k in After(events) { assert KeyOf(After(events)[k]) == k; }
  }

  /** Only placeholders make a lookup out of date: one for the insert's own id, or one turned into a message's own. */
  lemma LookupHeldUnlessDrifted(events: seq<Event>, e: Event)
    requires ValidRun(events) && CanCommit(events, e) && e.InsertEvent? && !LookupHeld(After(events), e)
    ensures OwnDrifted(After(events), e) || exists c :: PlaceholderDrifted(After(events), e, c)
  {
    if !OwnDrifted(After(events), e) && forall c :: !PlaceholderDrifted(After(events), e, c) {
      forall c | c in e.candidates
        ensures HitFor(e.found, c) == HitFor(HitsNow(After(events), e.msg.inboxId, e.candidates), c)
      {
        UndriftedHit(events, e, c);
      }
      SameHits(e.candidates, e.found, HitsNow(After(events), e.msg.inboxId, e.candidates));
    }
  }

  /** An insert that lists its own id first and found a row for it is never out of date. */
  lemma OwnHitHolds(events: seq<Event>, e: Event)
    requires ValidRun(events) && CanCommit(events, e) && e.InsertEvent?
    requires e.candidates != [] && e.candidates[0] == OwnId(e.msg) && OwnId(e.msg) != "" && OwnId(e.msg) in e.found
    ensures LookupHeld(After(events), e)
  {
    var own := OwnId(e.msg);
    assert own in e.candidates;
    LookupAtCommit(events, e, own);
  }

  // ---------------------------------------------------------------------
  // Whole runs
  // ---------------------------------------------------------------------

  /** Every insert's lookup still held when it committed. */
  ghost predicate LookupsHeld(events: seq<Event>) {
    forall i :: 0 <= i < |events| ==> LookupHeld(After(events[..i]), events[i])
  }

  /** Once serving the calls one at a time comes to the run's own rows, the next call goes the same way exactly if its lookup held. */
  lemma StepReplays(events: seq<Event>, e: Event)
    requires ValidRun(events) && CanCommit(events, e)
    ensures Serve(After(events), CallOf(e)) == Commit(After(events), e) <==> LookupHeld(After(events), e)
  {
    if LookupHeld(After(events), e) {
      PlansNow(events, e);
    } else {
      FiledElsewhere(After(events), e);
    }
  }

  /** An insert stores its message in the thread it resolved. */
  lemma FiledIn(db: Db, e: Event)
    requires e.InsertEvent?
    ensures var mk := MessageKey(e.msg.inboxId, e.msg.messageId);
            HasMessage(Commit(db, e), mk) && Commit(db, e)[mk].msg.threadId == Subject(e).threadId
  {
    InsertEffect(db, e);
    var mk := MessageKey(e.msg.inboxId, e.msg.messageId);
    assert Lookup(Commit(db, e), mk) == Lookup(db + Written(db, e), mk);
  }

  lemma FiledElsewhere(db: Db, e: Event)
    requires !LookupHeld(db, e)
    ensures Serve(db, CallOf(e)) != Commit(db, e)
  {
    FiledIn(db, e);
    FiledIn(db, EventNow(db, CallOf(e)).value);
  }

  /** Serving the calls of the run's first `n` commits one at a time leaves the rows the run had then. */
  ghost predicate ReplaysTo(events: seq<Event>, n: nat)
    requires n <= |events|
  {
    After(events[..n]) == Served(CallsOf(events[..n]))
  }

  lemma ReplaysOn(events: seq<Event>, n: nat)
    requires ValidRun(events) && n < |events| && ReplaysTo(events, n)
    ensures ReplaysTo(events, n + 1) <==> LookupHeld(After(events[..n]), events[n])
  {
    StepAt(events, n);
    StepReplays(events[..n], events[n]);
    assert events[..n + 1][..n] == events[..n];
    assert CallsOf(events[..n + 1])[..n] == CallsOf(events[..n]);
  }

  /**
    Serving a run's calls one at a time leaves, at every one of its moments, the
    very table the run had, aliases and references included, exactly if every
    insert's lookup still held when it committed.
   */
  lemma RunsReplayWhole(events: seq<Event>)
    requires ValidRun(events)
    ensures (forall n :: 0 <= n <= |events| ==> ReplaysTo(events, n)) <==> LookupsHeld(events)
  {
    if LookupsHeld(events) {
      forall n | 0 <= n <= |events| ensures ReplaysTo(events, n) {
        HeldReplays(events, n);
      }
    }
    if forall n :: 0 <= n <= |events| ==> ReplaysTo(events, n) {
      forall i | 0 <= i < |events| ensures LookupHeld(After(events[..i]), events[i]) {
        assert ReplaysTo(events, i) && ReplaysTo(events, i + 1);
        ReplaysOn(events, i);
      }
    }
  }

  lemma {:induction false} HeldReplays(events: seq<Event>, n: nat)
    requires ValidRun(events) && LookupsHeld(events) && n <= |events|
    ensures ReplaysTo(events, n)
  {
    if n > 0 {
      HeldReplays(events, n - 1);
      ReplaysOn(events, n - 1);
    }
  }
}
