/**
  The mailbox's write flows: read, compute, plan, run the transaction, and
  turn a cancellation into a retry, a success or a failure.

  Each flow is proved for every table it may meet: other writers commit
  between any two of its steps, and a commit of its own may be reported to it
  as a retry or an error. On a table nobody disturbs, the rows alone say how
  it ends.
 */
module Mailboxes {
  import opened Calls
  import opened Cancellation
  import opened Effects
  import opened Flows
  import opened Labels
  import opened Linear
  import opened Plan
  import opened Records
  import opened Replay
  import opened Runs
  import opened Sends
  import opened Shapes
  import opened Store
  import opened Threads
  import opened Undisturbed

  class Mailbox {
    const table: Table

    constructor (table: Table)
      ensures this.table == table
    {
      this.table := table;
    }

    // -------------------------------------------------------------------
    // Reads
    // -------------------------------------------------------------------

    /** A thread, as it is stored now. */
    method ReadThread(inboxId: string, threadId: string) returns (r: Result<Option<ThreadState>>)
      requires table.Valid()
      modifies table
      ensures table.OnlyRead() && (old(table.Quiet()) ==> r.Ok?)
      ensures r.Ok? ==> StaysSeen(table.log, ThreadKey(inboxId, threadId), ThreadRowOf(r.value)) && Lookup(table.rows, ThreadKey(inboxId, threadId)) == ThreadRowOf(r.value)
      ensures r.Err? ==> r.error in Faults(old(table.fates))
    {
      var k := ThreadKey(inboxId, threadId);
      var row := table.Get(k);
      if row.Err? {
        return Err(row.error);
      } else if row.value.None? {
        return Ok(None);
      }
      RunGrows(table.log, 0);
      assert KeyOf(table.rows[k]) == k;
      return Ok(Some(row.value.value.thread));
    }

    /** A message, as it is stored now. */
    method ReadMessage(inboxId: string, messageId: string) returns (r: Result<Option<Message>>)
      requires table.Valid()
      modifies table
      ensures table.OnlyRead() && (old(table.Quiet()) ==> r.Ok?)
      ensures r.Ok? ==> StaysSeen(table.log, MessageKey(inboxId, messageId), MessageRowOf(r.value)) && Lookup(table.rows, MessageKey(inboxId, messageId)) == MessageRowOf(r.value)
      ensures r.Err? ==> r.error in Faults(old(table.fates))
    {
      var k := MessageKey(inboxId, messageId);
      var row := table.Get(k);
      if row.Err? {
        return Err(row.error);
      } else if row.value.None? {
        return Ok(None);
      }
      RunGrows(table.log, 0);
      assert KeyOf(table.rows[k]) == k;
      return Ok(Some(row.value.value.msg));
    }

    /** A send state, as it is stored now. */
    method ReadSendState(messageId: string) returns (r: Result<Option<SendState>>)
      requires table.Valid()
      modifies table
      ensures table.OnlyRead() && (old(table.Quiet()) ==> r.Ok?)
      ensures r.Ok? ==> StaysSeen(table.log, StateKey(messageId), StateRowOf(r.value)) && Lookup(table.rows, StateKey(messageId)) == StateRowOf(r.value)
      ensures r.Err? ==> r.error in Faults(old(table.fates))
    {
      var k := StateKey(messageId);
      var row := table.Get(k);
      if row.Err? {
        return Err(row.error);
      } else if row.value.None? {
        return Ok(None);
      }
      RunGrows(table.log, 0);
      assert KeyOf(table.rows[k]) == k;
      return Ok(Some(row.value.value.state));
    }

    /** One more candidate's alias row. */
    method ReadAlias(inboxId: string, id: string, ghost ids: seq<string>, found: map<string, RfcHit>) returns (r: Result<map<string, RfcHit>>)
      requires table.Valid() && StripAngleBrackets(id) == id && StaysFound(table.log, inboxId, ids, found)
      modifies table
      ensures table.OnlyRead() && (old(table.Quiet()) ==> r.Ok?)
      ensures r.Ok? ==> StaysFound(table.log, inboxId, ids + [id], r.value)
      ensures r.Ok? && found == HitsNow(table.rows, inboxId, ids) ==> r.value == HitsNow(table.rows, inboxId, ids + [id])
      ensures r.Err? ==> r.error in Faults(old(table.fates))
    {
      ghost var before := table.log;
      var row := table.Get(AliasKey(inboxId, id));
      if row.Err? {
        return Err(row.error);
      }
      RunGrows(table.log, 0);
      LookupGoesOn(before, table.log, inboxId, ids, found, id, row.value);
      HitsOneMore(table.rows, inboxId, ids, id);
      return Ok(FoundWith(found, id, row.value));
    }

    /** The alias row of each candidate, read one by one. */
    method ReadAliases(inboxId: string, ids: seq<string>) returns (r: Result<map<string, RfcHit>>)
      requires table.Valid() && forall c :: c in ids ==> StripAngleBrackets(c) == c
      modifies table
      ensures table.OnlyRead() && (old(table.Quiet()) ==> r.Ok?)
      ensures r.Ok? ==> StaysFound(table.log, inboxId, ids, r.value)
      ensures old(table.Quiet()) ==> r.Ok? && r.value == HitsNow(table.rows, inboxId, ids)
      ensures r.Err? ==> r.error in Faults(old(table.fates))
    {
      var found: map<string, RfcHit> := map[];
      NothingLooked(table.log, inboxId);
      NoHits(table.rows, inboxId);
      assert ids[..0] == [];
      for i := 0 to |ids|
        invariant table.OnlyRead() && StaysFound(table.log, inboxId, ids[..i], found)
        invariant old(table.Quiet()) ==> found == HitsNow(table.rows, inboxId, ids[..i])
      {
        ghost var before := table.log;
        var next := ReadAlias(inboxId, ids[i], ids[..i], found);
        PrefixTransitive(old(table.log), before, table.log);
        if next.Err? {
          return next;
        }
        assert ids[..i + 1] == ids[..i] + [ids[i]];
        found := next.value;
      }
      assert ids[..|ids|] == ids;
      return Ok(found);
    }

    // -------------------------------------------------------------------
    // Running a transaction
    // -------------------------------------------------------------------

    /** One transaction of `call`: what it did, what was answered, and what an undisturbed table answers. */
    method Run(e: Event, ops: seq<PlannedOp>, ghost call: Call) returns (r: Result<TxnOutcome>)
      requires table.Valid() && Ready(table.log, e) && Plans(e, ops) && call == CallOf(e)
      modifies table
      ensures table.Valid() && Stepped(old(table.log), old(table.mine), table.log, table.mine, call)
      ensures table.answers == old(table.answers) + [r]
      ensures r == Ok(Committed) ==>
                && table.log != [] && table.log[|table.log| - 1] == e && |table.mine| > |old(table.mine)|
      ensures r.Ok? && r.value.Cancelled? && r.value.decision != Retry ==>
                && |table.mine| == |old(table.mine)|
                && !AllHold(table.rows, ops) && r.value.decision == Decide(ops, ReasonsFor(table.rows, ops))
      ensures Faults(table.fates) <= Faults(old(table.fates))
      ensures r.Err? ==> r.error in Faults(old(table.fates))
      ensures old(table.Quiet()) ==>
                && table.Quiet() && r == Ok(Judged(old(table.rows), ops))
                && (r.value.Cancelled? ==> table.rows == old(table.rows) && table.log == old(table.log) && table.mine == old(table.mine))
    {
      ghost var fates, met := table.fates, table.rows;
      r, met := table.Transact(e, ops);
      AnswerMeans(fates, met, ops, r);
    }

    // -------------------------------------------------------------------
    // Ingest
    // -------------------------------------------------------------------

    /** The thread `msg` lands in, built from the one read before. */
    method ThreadAfter(msg: Message, before: Option<ThreadState>) returns (after: ThreadState)
      ensures after == ThreadFor(msg, before)
    {
      if before.None? {
        after := NewThread(msg);
      } else {
        after := ApplyMessage(before.value, msg);
      }
    }

    /** The transaction of an insert, run as planned. */
    method SubmitInsert(e: Event, ops: seq<PlannedOp>) returns (r: Result<TxnOutcome>)
      requires table.Valid() && e.InsertEvent? && Ready(table.log, e) && Plans(e, ops)
      requires forall c :: c in e.candidates ==> StripAngleBrackets(c) == c
      modifies table
      ensures table.Valid() && Stepped(old(table.log), old(table.mine), table.log, table.mine, CallInsert(e.msg, e.candidates))
      ensures table.answers == old(table.answers) + [r]
      ensures r == Ok(Committed) ==> |table.mine| > |old(table.mine)|
      ensures InsertDecided(table.rows, e.msg, r)
      ensures Faults(table.fates) <= Faults(old(table.fates))
      ensures r.Err? ==> r.error in Faults(old(table.fates))
      ensures old(table.Quiet() && e == InsertNow(table.rows, e.msg, e.candidates)) ==>
                && table.Quiet() && r.Ok? && InsertEnds(old(table.rows), e.msg, e.candidates, r.value)
                && (r.value.Cancelled? ==> table.rows == old(table.rows) && table.log == old(table.log))
    {
      ghost var db := table.rows;
      RunGrows(table.log, 0);
      r := Run(e, ops, CallInsert(e.msg, e.candidates));
      InsertTold(db, table.rows, e.msg, e.candidates, e, ops, r);
    }

    /** The event and the transaction of an insert, from fresh reads. */
    method PrepareInsert(msg: Message, candidates: seq<string>) returns (r: Result<(Event, seq<PlannedOp>)>)
      requires table.Valid() && IsNewMessage(msg) && msg.sendStatus == None
      requires forall c :: c in candidates ==> StripAngleBrackets(c) == c
      modifies table
      ensures table.OnlyRead() && (old(table.Quiet()) ==> r.Ok?)
      ensures r.Ok? ==>
                && r.value.0.InsertEvent? && r.value.0.msg == msg && r.value.0.candidates == candidates
                && Ready(table.log, r.value.0) && Plans(r.value.0, r.value.1)
      ensures old(table.Quiet()) ==> r.Ok? && r.value.0 == InsertNow(table.rows, msg, candidates)
      ensures r.Err? ==> r.error in Faults(old(table.fates))
    {
      var found := ReadAliases(msg.inboxId, candidates);
      if found.Err? {
        return Err(found.error);
      }
      ghost var looked := table.log;
      var hit := FoundThread(candidates, found.value);
      var m := if hit.None? then msg else msg.(threadId := hit.value);
      var before := ReadThread(m.inboxId, m.threadId);
      PrefixTransitive(old(table.log), looked, table.log);
      if before.Err? {
        return Err(before.error);
      }
      var after := ThreadAfter(m, before.value);
      var ops := PlanInsert(m, before.value, after, AliasLookup(candidates, found.value));
      var e := InsertEvent(msg, candidates, found.value, before.value);
      InsertPlan(msg, candidates, found.value, before.value, m);
      InsertIsReady(looked, table.log, e);
      if found.value == HitsNow(table.rows, msg.inboxId, candidates) {
        InsertReadNow(table.rows, msg, candidates, found.value, before.value);
      }
      return Ok((e, ops));
    }

    /** One attempt at an insert, from fresh reads. */
    method TryInsert(msg: Message, candidates: seq<string>) returns (r: Result<TxnOutcome>)
      requires table.Valid() && IsNewMessage(msg) && msg.sendStatus == None
      requires forall c :: c in candidates ==> StripAngleBrackets(c) == c
      modifies table
      ensures table.Valid() && Stepped(old(table.log), old(table.mine), table.log, table.mine, CallInsert(msg, candidates))
      ensures r.Ok? ==> table.answers == old(table.answers) + [r]
      ensures r == Ok(Committed) ==> |table.mine| > |old(table.mine)|
      ensures InsertDecided(table.rows, msg, r)
      ensures Faults(table.fates) <= Faults(old(table.fates))
      ensures r.Err? ==> r.error in Faults(old(table.fates))
      ensures old(table.Quiet()) ==>
                && table.Quiet() && r.Ok? && InsertEnds(old(table.rows), msg, candidates, r.value)
                && (r.value.Cancelled? ==> table.rows == old(table.rows) && table.log == old(table.log))
    {
      var prepared := PrepareInsert(msg, candidates);
      if prepared.Err? {
        return Err(prepared.error);
      }
      ghost var ready := table.log;
      r := SubmitInsert(prepared.value.0, prepared.value.1);
      PrefixTransitive(old(table.log), ready, table.log);
    }

    /**
      Inserts an inbound message. `Fresh` means this call's insert is the
      table's newest commit, `AlreadyStored` that the message is there; either way,
      and whatever failed on the way, this call committed at most once. It
      gives up only when four attempts were cancelled.
     */
    method InsertMessage(msg: Message, candidates: seq<string>) returns (r: Result<InsertOutcome>)
      requires table.Valid() && IsNewMessage(msg) && msg.sendStatus == None
      requires forall c :: c in candidates ==> StripAngleBrackets(c) == c
      modifies table
      ensures table.Valid()
      ensures Worked(old(table.log), old(table.mine), table.log, table.mine, CallInsert(msg, candidates))
      ensures |table.mine| <= |old(table.mine)| + 1
      ensures r == Ok(Fresh) ==> table.mine == old(table.mine) + [|table.log| - 1]
      ensures r == Ok(AlreadyStored) ==> MessageKey(msg.inboxId, msg.messageId) in table.rows
      ensures r == Err(Conflict) ==> Cancellations(old(table.answers), table.answers, MAX_TXN_RETRIES + 1)
      ensures r.Err? ==> r.error == Conflict || r.error in Faults(old(table.fates))
      ensures old(table.Quiet()) ==> r == InsertResult(old(table.rows), msg, candidates)
    {
      for attempt := 0 to MAX_TXN_RETRIES + 1
        invariant table.Valid()
        invariant Worked(old(table.log), old(table.mine), table.log, table.mine, CallInsert(msg, candidates))
        invariant |table.mine| <= |old(table.mine)| + 1
        invariant Faults(table.fates) <= Faults(old(table.fates))
        invariant Cancellations(old(table.answers), table.answers, attempt)
        invariant old(table.Quiet()) ==>
                    table.Quiet() && table.rows == old(table.rows) && (attempt > 0 ==> InsertResult(table.rows, msg, candidates) == Err(Conflict))
      {
        ghost var log, mine, answers := table.log, table.mine, table.answers;
        var outcome := TryInsert(msg, candidates);
        WorkedOnceOn(old(table.log), old(table.mine), log, mine, table.log, table.mine, CallInsert(msg, candidates));
        if outcome.Err? {
          return Err(outcome.error);
        }
        if outcome.value.Cancelled? { OneMoreCancellation(old(table.answers), answers, attempt, outcome); }
        match outcome.value
        case Committed => return Ok(Fresh);
        case Cancelled(Duplicate) => return Ok(AlreadyStored);
        case Cancelled(Retry) =>
        case Cancelled(VersionConflict) =>
        case Cancelled(AliasTaken(_)) =>
        case Cancelled(_) => return Err(PermanentError);
      }
      return Err(Conflict);
    }

    // -------------------------------------------------------------------
    // Enqueue
    // -------------------------------------------------------------------

    /** The event and the transaction of an enqueue, from a fresh read, without the aliases known to be taken. */
    method PrepareEnqueue(msg: Message, s: SendState, key: Option<SendKey>, nowEpoch: nat, taken: seq<Key>)
      returns (r: Result<(Event, seq<PlannedOp>)>)
      requires table.Valid() && IsNewMessage(msg) && IsNewSend(msg, s, key, nowEpoch) && StayTaken(table.log, KeySet(taken))
      modifies table
      ensures table.OnlyRead()
      ensures r.Ok? ==>
                && r.value.0.EnqueueEvent? && CallOf(r.value.0) == CallEnqueue(msg, s, key, nowEpoch)
                && Ready(table.log, r.value.0) && Plans(r.value.0, r.value.1)
      ensures old(table.Quiet()) ==>
                if SendFits(table.rows, msg)
                then r.Ok? && r.value.1 == DropTaken(EnqueuePlanNow(table.rows, msg, s, key, nowEpoch), KeySet(taken))
                else r == Err(LabelLimitError)
      ensures r.Err? ==> r.error in Faults(old(table.fates)) || (r.error == LabelLimitError && !SendFits(table.rows, msg))
    {
      var before := ReadThread(msg.inboxId, msg.threadId);
      if before.Err? {
        return Err(before.error);
      }
      var after := ThreadAfter(msg, before.value);
      var plan := PlanEnqueue(msg, s, key, before.value, after, nowEpoch);
      EnqueueReadNow(table.rows, msg, s, key, nowEpoch, before.value, plan);
      if plan.LabelLimit? {
        return Err(LabelLimitError);
      }
      var ops := DropTakenAliases(plan.ops, taken);
      var e := EnqueueEvent(msg, s, key, before.value, nowEpoch, KeySet(taken));
      StayTakenGrows(old(table.log), table.log, KeySet(taken));
      EnqueueIsReady(table.log, e);
      EnqueuePlanned(e, plan);
      return Ok((e, ops));
    }

    /** The transaction of an enqueue, run as planned. */
    method SubmitEnqueue(e: Event, ops: seq<PlannedOp>) returns (r: Result<TxnOutcome>)
      requires table.Valid() && e.EnqueueEvent? && Ready(table.log, e) && Plans(e, ops)
      modifies table
      ensures table.Valid() && Stepped(old(table.log), old(table.mine), table.log, table.mine, CallOf(e))
      ensures table.answers == old(table.answers) + [r]
      ensures r == Ok(Committed) ==> |table.mine| > |old(table.mine)|
      ensures r.Ok? && r.value.Cancelled? ==> EnqueueDecided(table.rows, e.msg, e.state, e.key, e.nowEpoch, r.value.decision)
      ensures r.Ok? && r.value.Cancelled? ==> AliasesReal(table.rows, r.value.decision)
      ensures Faults(table.fates) <= Faults(old(table.fates))
      ensures r.Err? ==> r.error in Faults(old(table.fates))
      ensures old(table.Quiet()) ==>
                && table.Quiet() && r == Ok(Judged(old(table.rows), ops))
                && (r.value.Cancelled? ==> table.rows == old(table.rows) && table.log == old(table.log))
    {
      r := Run(e, ops, CallOf(e));
      if r.Ok? && r.value.Cancelled? && r.value.decision != Retry {
        RunGrows(table.log, 0);
        EnqueueDecisions(table.rows, e, ops);
      }
    }

    /** One attempt at an enqueue, without the aliases known to be taken. */
    method TryEnqueue(msg: Message, s: SendState, key: Option<SendKey>, nowEpoch: nat, taken: seq<Key>, ghost attempt: nat)
      returns (r: Result<TxnOutcome>)
      requires table.Valid() && IsNewMessage(msg) && IsNewSend(msg, s, key, nowEpoch) && StayTaken(table.log, KeySet(taken))
      modifies table
      ensures table.Valid() && Stepped(old(table.log), old(table.mine), table.log, table.mine, CallEnqueue(msg, s, key, nowEpoch))
      ensures r.Ok? ==> table.answers == old(table.answers) + [r]
      ensures r == Ok(Committed) ==> |table.mine| > |old(table.mine)|
      ensures r.Ok? && r.value.Cancelled? ==> EnqueueDecided(table.rows, msg, s, key, nowEpoch, r.value.decision)
      ensures r.Ok? ==> StayTaken(table.log, KeySet(TakenAfter(taken, r)))
      ensures Faults(table.fates) <= Faults(old(table.fates))
      ensures r.Err? ==> r.error in Faults(old(table.fates)) || (r.error == LabelLimitError && !SendFits(table.rows, msg))
      ensures old(table.Quiet() && EnqueueGoesOn(table.rows, msg, s, key, nowEpoch, taken, attempt)) ==>
                && EnqueueEndsOrGoesOn(old(table.rows), msg, s, key, nowEpoch, taken, attempt, r)
                && (r.Ok? && r.value.Cancelled? ==> table.Quiet() && table.rows == old(table.rows))
    {
      ghost var rows := table.rows;
      ghost var quiet := table.Quiet() && EnqueueGoesOn(rows, msg, s, key, nowEpoch, taken, attempt);
      var prepared := PrepareEnqueue(msg, s, key, nowEpoch, taken);
      if prepared.Err? {
        r := Err(prepared.error);
      } else {
        ghost var ready := table.log;
        r := SubmitEnqueue(prepared.value.0, prepared.value.1);
        PrefixTransitive(old(table.log), ready, table.log);
        RunGrows(table.log, 0);
        TakenNow(old(table.log), table.log, taken, r);
      }
      if quiet { EnqueueTold(rows, msg, s, key, nowEpoch, taken, attempt, r); }
    }

    /**
      Commits a queued message. `KeyInUse` is told only while the key is live,
      and however it ends, this call queued the message at most once. It gives
      up only when four attempts were cancelled.
     */
    method EnqueueSend(msg: Message, s: SendState, key: Option<SendKey>, nowEpoch: nat) returns (r: Result<EnqueueOutcome>)
      requires table.Valid() && IsNewMessage(msg) && IsNewSend(msg, s, key, nowEpoch)
      modifies table
      ensures table.Valid()
      ensures Worked(old(table.log), old(table.mine), table.log, table.mine, CallEnqueue(msg, s, key, nowEpoch))
      ensures |table.mine| <= |old(table.mine)| + 1
      ensures r == Ok(Enqueued) ==> table.mine == old(table.mine) + [|table.log| - 1]
      ensures r == Ok(AlreadyQueued) ==> MessageKey(msg.inboxId, msg.messageId) in table.rows || StateKey(s.messageId) in table.rows
      ensures r == Ok(KeyInUse) ==> KeyIsLive(table.rows, key, nowEpoch)
      ensures r == Err(Conflict) ==> Cancellations(old(table.answers), table.answers, MAX_TXN_RETRIES + 1)
      ensures r.Err? ==>
                || r.error == Conflict || r.error in Faults(old(table.fates))
                || (r.error == LabelLimitError && !SendFits(table.rows, msg))
      ensures old(table.Quiet()) ==> r == EnqueueResult(old(table.rows), msg, s, key, nowEpoch)
    {
      var taken: seq<Key> := [];
      NothingTakenYet(table.log);
      RunGrows(table.log, 0);
      for attempt := 0 to MAX_TXN_RETRIES + 1
        invariant table.Valid() && StayTaken(table.log, KeySet(taken))
        invariant Worked(old(table.log), old(table.mine), table.log, table.mine, CallEnqueue(msg, s, key, nowEpoch))
        invariant |table.mine| <= |old(table.mine)| + 1
        invariant Faults(table.fates) <= Faults(old(table.fates))
        invariant Cancellations(old(table.answers), table.answers, attempt)
        invariant old(table.Quiet()) ==>
                    table.Quiet() && table.rows == old(table.rows) && EnqueueGoesOn(table.rows, msg, s, key, nowEpoch, taken, attempt)
      {
        ghost var log, mine, answers := table.log, table.mine, table.answers;
        var outcome := TryEnqueue(msg, s, key, nowEpoch, taken, attempt);
        WorkedOnceOn(old(table.log), old(table.mine), log, mine, table.log, table.mine, CallEnqueue(msg, s, key, nowEpoch));
        if outcome.Err? {
          return Err(outcome.error);
        } else if outcome.value.Committed? {
          return Ok(Enqueued);
        }
        OneMoreCancellation(old(table.answers), answers, attempt, outcome);
        match outcome.value.decision
        case KeyExists => return Ok(KeyInUse);
        case Duplicate => return Ok(AlreadyQueued);
        case Retry =>
        case VersionConflict =>
        case AliasTaken(keys) => taken := taken + keys;
        case Permanent => return Err(PermanentError);
      }
      return Err(Conflict);
    }

    // -------------------------------------------------------------------
    // Claim and note
    // -------------------------------------------------------------------

    /** A send, if it is queued now. */
    method ReadQueued(messageId: string) returns (r: Result<Option<SendState>>)
      requires table.Valid()
      modifies table
      ensures table.OnlyRead()
      ensures r == Ok(None) ==> !IsQueued(table.rows, messageId)
      ensures r.Ok? && r.value.Some? ==> r.value.value.status == Queued && StaysSeen(table.log, StateKey(messageId), Some(StateRow(r.value.value)))
      ensures r.Ok? && r.value.Some? ==> Lookup(table.rows, StateKey(messageId)) == Some(StateRow(r.value.value))
      ensures old(table.Quiet()) ==> r.Ok? && (r.value.Some? <==> IsQueued(table.rows, messageId))
      ensures r.Err? ==> r.error in Faults(old(table.fates))
    {
      var state := ReadSendState(messageId);
      if state.Err? {
        return Err(state.error);
      } else if state.value.None? || state.value.value.status != Queued {
        return Ok(None);
      }
      return state;
    }

    /** The one conditional write of a claim or a note. */
    method SubmitCas(e: Event, ops: seq<PlannedOp>) returns (r: Result<TxnOutcome>)
      requires table.Valid() && (e.ClaimEvent? || e.NoteEvent?) && Ready(table.log, e) && Plans(e, ops)
      modifies table
      ensures table.Valid() && Stepped(old(table.log), old(table.mine), table.log, table.mine, CallOf(e))
      ensures table.answers == old(table.answers) + [r]
      ensures r == Ok(Committed) ==>
                && table.log != [] && table.log[|table.log| - 1] == e && |table.mine| > |old(table.mine)|
      ensures r.Ok? && r.value.Cancelled? ==> r.value.decision == Retry || (r.value.decision == VersionConflict && !AllHold(table.rows, ops))
      ensures Faults(table.fates) <= Faults(old(table.fates))
      ensures r.Err? ==> r.error in Faults(old(table.fates))
      ensures old(table.Quiet()) ==> r == Ok(Judged(old(table.rows), ops))
    {
      r := Run(e, ops, CallOf(e));
      if r.Ok? && r.value.Cancelled? && r.value.decision != Retry {
        StateCasDecisions(table.rows, e, ops);
      }
    }

    /** The transaction of a claim of the state just read. */
    method SubmitClaim(before: SendState, messageId: string, now: string) returns (r: Result<TxnOutcome>)
      requires table.Valid() && before.status == Queued
      requires StaysSeen(table.log, StateKey(messageId), Some(StateRow(before)))
      modifies table
      ensures table.Valid()
      ensures Stepped(old(table.log), old(table.mine), table.log, table.mine, CallClaim(messageId, now))
      ensures table.answers == old(table.answers) + [r]
      ensures r == Ok(Committed) ==>
                ClaimedLast(table.log, ClaimedState(before, now), now) && |table.mine| > |old(table.mine)|
      ensures r.Ok? && r.value.Cancelled? ==> r.value.decision == Retry || r.value.decision == VersionConflict
      ensures Faults(table.fates) <= Faults(old(table.fates))
      ensures r.Err? ==> r.error in Faults(old(table.fates))
      ensures old(table.Quiet() && Lookup(table.rows, StateKey(messageId)) == Some(StateRow(before))) ==> r == Ok(Committed)
    {
      var ops := StateCasOps(before, ClaimedState(before, now), Queued);
      RunGrows(table.log, 0);
      ClaimIsReady(table.log, table.rows, messageId, before, now, ops);
      r := SubmitCas(ClaimEvent(before, now), ops);
    }

    /** One attempt at a claim, from a fresh read: the state it would hand on, and the answer; `None` where nothing is queued. */
    method TryClaim(messageId: string, now: string) returns (r: Result<Option<(SendState, TxnOutcome)>>)
      requires table.Valid()
      modifies table
      ensures table.Valid() && Stepped(old(table.log), old(table.mine), table.log, table.mine, CallClaim(messageId, now))
      ensures r == Ok(None) ==> !IsQueued(table.rows, messageId)
      ensures r.Ok? && r.value.Some? ==>
                var (claimed, outcome) := r.value.value;
                && table.answers == old(table.answers) + [Ok(outcome)]
                && (outcome.Committed? ==> ClaimedLast(table.log, claimed, now) && |table.mine| > |old(table.mine)|)
                && (outcome.Cancelled? ==> outcome.decision == Retry || outcome.decision == VersionConflict)
      ensures Faults(table.fates) <= Faults(old(table.fates))
      ensures r.Err? ==> r.error in Faults(old(table.fates))
      ensures old(table.Quiet()) ==>
                r == Ok(if old(IsQueued(table.rows, messageId))
                        then Some((ClaimedState(old(table.rows[StateKey(messageId)].state), now), Committed)) else None)
    {
      var before := ReadQueued(messageId);
      if before.Err? {
        return Err(before.error);
      } else if before.value.None? {
        return Ok(None);
      }
      ghost var read := table.log;
      var outcome := SubmitClaim(before.value.value, messageId, now);
      PrefixTransitive(old(table.log), read, table.log);
      if outcome.Err? {
        return Err(outcome.error);
      }
      return Ok(Some((ClaimedState(before.value.value, now), outcome.value)));
    }

    /**
      Hands one queued send to one sender. What it returns was claimed by the
      table's newest commit; `None` means there was nothing queued to claim.
      It gives up only when four attempts were cancelled.
     */
    method ClaimSend(messageId: string, now: string) returns (r: Result<Option<SendState>>)
      requires table.Valid()
      modifies table
      ensures table.Valid()
      ensures Worked(old(table.log), old(table.mine), table.log, table.mine, CallClaim(messageId, now))
      ensures r.Ok? && r.value.Some? ==>
                && |table.mine| > |old(table.mine)| && table.mine[|table.mine| - 1] == |table.log| - 1
                && ClaimedLast(table.log, r.value.value, now)
      ensures r == Ok(None) ==> !IsQueued(table.rows, messageId)
      ensures r == Err(Conflict) ==> Cancellations(old(table.answers), table.answers, MAX_TXN_RETRIES + 1)
      ensures r.Err? ==> r.error == Conflict || r.error in Faults(old(table.fates))
      ensures old(table.Quiet()) ==>
                r == Ok(if old(IsQueued(table.rows, messageId)) then Some(ClaimedState(old(table.rows[StateKey(messageId)].state), now)) else None)
    {
      for attempt := 0 to MAX_TXN_RETRIES + 1
        invariant table.Valid()
        invariant Worked(old(table.log), old(table.mine), table.log, table.mine, CallClaim(messageId, now))
        invariant Faults(table.fates) <= Faults(old(table.fates))
        invariant Cancellations(old(table.answers), table.answers, attempt)
        invariant old(table.Quiet()) ==> table.Quiet() && table.rows == old(table.rows) && attempt == 0
      {
        ghost var log, mine, answers := table.log, table.mine, table.answers;
        var tried := TryClaim(messageId, now);
        WorkedOn(old(table.log), old(table.mine), log, mine, table.log, table.mine, CallClaim(messageId, now));
        if tried.Err? {
          return Err(tried.error);
        } else if tried.value.None? {
          return Ok(None);
        }
        var (claimed, outcome) := tried.value.value;
        if outcome.Committed? {
          return Ok(Some(claimed));
        }
        OneMoreCancellation(old(table.answers), answers, attempt, Ok(outcome));
        match outcome.decision
        case Retry =>
        case VersionConflict =>
        case _ => return Ok(None);
      }
      return Err(Conflict);
    }

    /** One attempt at the note before the SES call. */
    method TryNote(claimed: SendState, now: string) returns (r: Result<TxnOutcome>)
      requires table.Valid() && claimed.status == Sending && Ready(table.log, NoteEvent(claimed, now))
      requires Plans(NoteEvent(claimed, now), StateCasOps(claimed, CallingState(claimed, now), Sending))
      modifies table
      ensures table.Valid() && Ready(table.log, NoteEvent(claimed, now))
      ensures Stepped(old(table.log), old(table.mine), table.log, table.mine, CallNote(claimed, now))
      ensures table.answers == old(table.answers) + [r]
      ensures r == Ok(Committed) ==>
                && |table.mine| > |old(table.mine)|
                && table.log != [] && table.log[|table.log| - 1] == NoteEvent(claimed, now)
      ensures r.Ok? && r.value.Cancelled? && r.value.decision != Retry ==>
                Lookup(table.rows, StateKey(claimed.messageId)) != Some(StateRow(claimed))
      ensures Faults(table.fates) <= Faults(old(table.fates))
      ensures r.Err? ==> r.error in Faults(old(table.fates))
      ensures old(table.Quiet()) ==>
                && r.Ok? && (r.value.Committed? <==> old(Lookup(table.rows, StateKey(claimed.messageId)) == Some(StateRow(claimed))))
                && (r.value.Cancelled? ==> r.value.decision != Retry)
    {
      var e := NoteEvent(claimed, now);
      var after := CallingState(claimed, now);
      var ops := StateCasOps(claimed, after, Sending);
      NoteJudged(table.log, table.rows, claimed, now, ops);
      r := SubmitCas(e, ops);
      ReadyGrows(old(table.log), table.log, e);
      if r.Ok? && r.value.Cancelled? && r.value.decision != Retry {
        LostCasMeansMoved(table.rows, claimed, after, Sending);
      }
    }

    /**
      Notes that the holder of `claimed` is about to call SES. `Some` is given
      only for this call's own commit, and a claim is noted at most once; `None`
      means the claim is gone. It gives up only when four attempts were cancelled.
     */
    method NoteSesCall(claimed: SendState, now: string) returns (r: Result<Option<SendState>>)
      requires table.Valid() && ClaimedEarlier(table.log, claimed)
      modifies table
      ensures table.Valid()
      ensures Worked(old(table.log), old(table.mine), table.log, table.mine, CallNote(claimed, now))
      ensures |table.mine| <= |old(table.mine)| + 1
      ensures r.Ok? && r.value.Some? ==>
                && table.log != [] && table.mine == old(table.mine) + [|table.log| - 1]
                && table.log[|table.log| - 1] == NoteEvent(claimed, now)
                && r.value.value == CallingState(claimed, now)
      ensures r == Ok(None) ==> Lookup(table.rows, StateKey(claimed.messageId)) != Some(StateRow(claimed))
      ensures r == Err(Conflict) ==> Cancellations(old(table.answers), table.answers, MAX_TXN_RETRIES + 1)
      ensures r.Err? ==> r.error == Conflict || r.error in Faults(old(table.fates))
      ensures old(table.Quiet()) ==>
                r == Ok(if old(Lookup(table.rows, StateKey(claimed.messageId))) == Some(StateRow(claimed))
                        then Some(CallingState(claimed, now)) else None)
    {
      NoteIsReady(table.log, claimed, now);
      for attempt := 0 to MAX_TXN_RETRIES + 1
        invariant table.Valid() && Ready(table.log, NoteEvent(claimed, now))
        invariant Worked(old(table.log), old(table.mine), table.log, table.mine, CallNote(claimed, now))
        invariant |table.mine| <= |old(table.mine)| + 1
        invariant Faults(table.fates) <= Faults(old(table.fates))
        invariant Cancellations(old(table.answers), table.answers, attempt)
        invariant old(table.Quiet()) ==> table.Quiet() && table.rows == old(table.rows) && attempt == 0
      {
        ghost var log, mine, answers := table.log, table.mine, table.answers;
        var outcome := TryNote(claimed, now);
        WorkedOnceOn(old(table.log), old(table.mine), log, mine, table.log, table.mine, CallNote(claimed, now));
        if outcome.Err? {
          return Err(outcome.error);
        }
        if outcome.value.Cancelled? { OneMoreCancellation(old(table.answers), answers, attempt, outcome); }
        match outcome.value
        case Committed => return Ok(Some(CallingState(claimed, now)));
        case Cancelled(Retry) =>
        case Cancelled(_) => return Ok(None);
      }
      return Err(Conflict);
    }

    // -------------------------------------------------------------------
    // Outcomes
    // -------------------------------------------------------------------

    /** The thread a mark changes, if it moves any label, before the change. */
    method ReadMarkedThread(msg: Message, outcome: MarkOutcome) returns (r: Result<Option<ThreadState>>)
      requires table.Valid() && StaysSeen(table.log, MessageKey(msg.inboxId, msg.messageId), Some(MessageRow(msg)))
      modifies table
      ensures table.OnlyRead()
      ensures r.Ok? ==>
                && (r.value.Some? <==> MarkMovesLabels(msg, outcome))
                && (r.value.Some? ==> && StaysSeen(table.log, ThreadKey(msg.inboxId, msg.threadId), ThreadRowOf(r.value))
                                      && Lookup(table.rows, ThreadKey(msg.inboxId, msg.threadId)) == ThreadRowOf(r.value))
      ensures old(table.Quiet()) ==> r.Ok?
      ensures r.Err? ==> r.error in Faults(old(table.fates))
    {
      var added, removed := LabelChanges(msg.labels, MarkedLabels(msg.labels, outcome));
      if added == [] && removed == [] {
        return Ok(None);
      }
      var before := ReadThread(msg.inboxId, msg.threadId);
      if before.Err? {
        return Err(before.error);
      }
      StaysSeenGrows(old(table.log), table.log, MessageKey(msg.inboxId, msg.messageId), Some(MessageRow(msg)));
      MessageHasThread(table.log, MessageKey(msg.inboxId, msg.messageId), msg);
      if before.value.None? {
        return Err(PermanentError);
      }
      return before;
    }

    /** A mark's transaction, planned from what was read, without taken aliases. */
    method MarkTransaction(s: SendState, outcome: MarkOutcome, msg: Message, thread: Option<ThreadState>, now: string, taken: seq<Key>)
      returns (ops: seq<PlannedOp>)
      ensures Plans(MarkEvent(s, outcome, msg, thread, now, KeySet(taken)), ops)
      ensures ops == DropTaken(MarkPlan(MarkEvent(s, outcome, msg, thread, now, {})), KeySet(taken))
    {
      var labels := MarkedLabels(msg.labels, outcome);
      var change: Option<ThreadChange> := None;
      if thread.Some? {
        var added, removed := LabelChanges(msg.labels, labels);
        var next := ApplyLabelPatch(thread.value, added, removed, now);
        change := Some(ThreadChange(thread.value, next));
      }
      var plan := PlanMark(s, MarkedState(s, msg, outcome, now), msg, labels, change, MarkedSes(outcome), now);
      ops := DropTakenAliases(plan, taken);
    }

    /** The message a mark changes and, if it moves any label, the thread, from fresh reads. */
    method ReadForMark(s: SendState, outcome: MarkOutcome) returns (r: Result<(Message, Option<ThreadState>)>)
      requires table.Valid() && StaysSeen(table.log, StateKey(s.messageId), Some(StateRow(s)))
      modifies table
      ensures table.OnlyRead() && (old(table.Quiet()) ==> r.Ok?)
      ensures r.Ok? ==> MarkSeen(table.log, s, outcome, r.value.0, r.value.1)
      ensures old(table.Quiet()) ==> MarkSees(table.rows, s, outcome, r.value.0, r.value.1)
      ensures r.Err? ==> r.error in Faults(old(table.fates))
    {
      var msg := ReadMessage(s.inboxId, s.messageId);
      if msg.Err? {
        return Err(msg.error);
      }
      ghost var read := table.log;
      SendHasMessage(old(table.log), read, s);
      if msg.value.None? {
        return Err(PermanentError);
      }
      var m := msg.value.value;
      MessageHasThread(read, MessageKey(s.inboxId, s.messageId), m);
      var thread := ReadMarkedThread(m, outcome);
      PrefixTransitive(old(table.log), read, table.log);
      if thread.Err? {
        return Err(thread.error);
      }
      StaysSeenGrows(read, table.log, MessageKey(s.inboxId, s.messageId), Some(MessageRow(m)));
      return Ok((m, thread.value));
    }

    /** The event and the transaction of a mark, from fresh reads of the message and its thread. */
    method PrepareMark(s: SendState, outcome: MarkOutcome, now: string, taken: seq<Key>) returns (r: Result<(Event, seq<PlannedOp>)>)
      requires table.Valid() && MarksFrom(s.status, outcome) && StayTaken(table.log, KeySet(taken))
      requires StaysSeen(table.log, StateKey(s.messageId), Some(StateRow(s)))
      modifies table
      ensures table.OnlyRead()
      ensures r.Ok? ==>
                && r.value.0.MarkEvent? && CallOf(r.value.0) == CallMark(s, outcome, now)
                && Ready(table.log, r.value.0) && Plans(r.value.0, r.value.1)
      ensures old(table.Quiet()) ==>
                && r.Ok? && MarkCanRead(table.rows, s, outcome)
                && r.value.1 == DropTaken(MarkPlanNow(table.rows, s, outcome, now), KeySet(taken))
      ensures r.Err? ==> r.error in Faults(old(table.fates))
    {
      var read := ReadForMark(s, outcome);
      if read.Err? {
        return Err(read.error);
      }
      var (m, thread) := read.value;
      StaysSeenGrows(old(table.log), table.log, StateKey(s.messageId), Some(StateRow(s)));
      StayTakenGrows(old(table.log), table.log, KeySet(taken));
      MarkIsReady(table.log, s, outcome, m, thread, now, KeySet(taken));
      if MarkSees(table.rows, s, outcome, m, thread) { MarkReadNow(table.rows, s, outcome, m, thread, now); }
      var ops := MarkTransaction(s, outcome, m, thread, now, taken);
      return Ok((MarkEvent(s, outcome, m, thread, now, KeySet(taken)), ops));
    }

    /** The transaction of a mark, run as planned. */
    method SubmitMark(e: Event, ops: seq<PlannedOp>) returns (r: Result<TxnOutcome>)
      requires table.Valid() && e.MarkEvent? && Ready(table.log, e) && Plans(e, ops)
      modifies table
      ensures table.Valid() && Stepped(old(table.log), old(table.mine), table.log, table.mine, CallOf(e))
      ensures table.answers == old(table.answers) + [r]
      ensures r == Ok(Committed) ==> |table.mine| > |old(table.mine)|
      ensures r.Ok? && r.value.Cancelled? ==> r.value.decision == VersionConflict || r.value.decision == Retry || r.value.decision.AliasTaken?
      ensures r.Ok? && r.value.Cancelled? ==> AliasesReal(table.rows, r.value.decision)
      ensures r.Ok? && r.value.Cancelled? && r.value.decision != Retry ==> |table.mine| == |old(table.mine)|
      ensures Faults(table.fates) <= Faults(old(table.fates))
      ensures r.Err? ==> r.error in Faults(old(table.fates))
      ensures old(table.Quiet()) ==>
                && table.Quiet() && r == Ok(Judged(old(table.rows), ops))
                && (r.value.Cancelled? ==> table.rows == old(table.rows) && table.log == old(table.log))
    {
      r := Run(e, ops, CallOf(e));
      if r.Ok? && r.value.Cancelled? && r.value.decision != Retry {
        RunGrows(table.log, 0);
        MarkFailure(table.rows, e, ops);
      }
    }

    /** One attempt at a mark, from fresh reads of the message and its thread. */
    method TryMark(s: SendState, outcome: MarkOutcome, now: string, taken: seq<Key>) returns (r: Result<TxnOutcome>)
      requires table.Valid() && MarksFrom(s.status, outcome) && StayTaken(table.log, KeySet(taken))
      requires StaysSeen(table.log, StateKey(s.messageId), Some(StateRow(s)))
      modifies table
      ensures table.Valid() && Stepped(old(table.log), old(table.mine), table.log, table.mine, CallMark(s, outcome, now))
      ensures r.Ok? ==> table.answers == old(table.answers) + [r]
      ensures r == Ok(Committed) ==> |table.mine| > |old(table.mine)|
      ensures r.Ok? && r.value.Cancelled? ==> r.value.decision == VersionConflict || r.value.decision == Retry || r.value.decision.AliasTaken?
      ensures r.Ok? ==> StayTaken(table.log, KeySet(TakenAfter(taken, r)))
      ensures r.Ok? && r.value.Cancelled? && r.value.decision != Retry ==> |table.mine| == |old(table.mine)|
      ensures Faults(table.fates) <= Faults(old(table.fates))
      ensures r.Err? ==> r.error in Faults(old(table.fates))
      ensures old(table.Quiet()) ==>
                && table.Quiet() && MarkCanRead(old(table.rows), s, outcome)
                && r == Ok(Judged(old(table.rows), DropTaken(MarkPlanNow(old(table.rows), s, outcome, now), KeySet(taken))))
                && (r.value.Cancelled? ==> table.rows == old(table.rows) && table.log == old(table.log))
    {
      var prepared := PrepareMark(s, outcome, now, taken);
      if prepared.Err? {
        return Err(prepared.error);
      }
      ghost var ready := table.log;
      r := SubmitMark(prepared.value.0, prepared.value.1);
      PrefixTransitive(old(table.log), ready, table.log);
      RunGrows(table.log, 0);
      TakenNow(old(table.log), table.log, taken, r);
    }

    /** After a version conflict: whether another writer moved the send on. */
    method HasMovedOn(s: SendState) returns (r: Result<bool>)
      requires table.Valid()
      modifies table
      ensures table.OnlyRead() && (old(table.Quiet()) ==> r.Ok?)
      ensures r.Ok? ==> (r.value <==> !VersionCheck(table.rows, StateKey(s.messageId), s.version))
      ensures r.Err? ==> r.error in Faults(old(table.fates))
    {
      var current := ReadSendState(s.messageId);
      if current.Err? {
        return Err(current.error);
      }
      return Ok(current.value.None? || current.value.value.version != s.version);
    }

    /** One attempt at a mark; `Conflict` means another writer has moved the send on. */
    method AttemptMark(s: SendState, outcome: MarkOutcome, now: string, taken: seq<Key>, ghost attempt: nat)
      returns (r: Result<TxnOutcome>)
      requires table.Valid() && MarksFrom(s.status, outcome) && StayTaken(table.log, KeySet(taken))
      requires StaysSeen(table.log, StateKey(s.messageId), Some(StateRow(s)))
      modifies table
      ensures table.Valid() && Stepped(old(table.log), old(table.mine), table.log, table.mine, CallMark(s, outcome, now))
      ensures r.Ok? ==> table.answers == old(table.answers) + [r]
      ensures r == Ok(Committed) ==> |table.mine| > |old(table.mine)|
      ensures r.Ok? && r.value.Cancelled? ==> r.value.decision == VersionConflict || r.value.decision == Retry || r.value.decision.AliasTaken?
      ensures StaysSeen(table.log, StateKey(s.messageId), Some(StateRow(s)))
      ensures r.Ok? ==> StayTaken(table.log, KeySet(TakenAfter(taken, r)))
      ensures r == Err(Conflict) ==> !VersionCheck(table.rows, StateKey(s.messageId), s.version)
      ensures Faults(table.fates) <= Faults(old(table.fates))
      ensures r.Err? ==> r.error == Conflict || r.error in Faults(old(table.fates))
      ensures old(table.Quiet() && MarkGoesOn(table.rows, s, outcome, now, taken, attempt)) ==>
                && MarkEndsOrGoesOn(old(table.rows), s, outcome, now, taken, attempt, r)
                && (r.Ok? && r.value.Cancelled? ==> table.Quiet() && table.rows == old(table.rows))
    {
      ghost var rows := table.rows;
      ghost var quiet := table.Quiet() && MarkGoesOn(rows, s, outcome, now, taken, attempt);
      r := TryMark(s, outcome, now, taken);
      if quiet { MarkTold(rows, s, outcome, now, taken, attempt, r); }
      StaysSeenGrows(old(table.log), table.log, StateKey(s.messageId), Some(StateRow(s)));
      if r == Ok(Cancelled(VersionConflict)) {
        ghost var told := table.log;
        var moved := HasMovedOn(s);
        PrefixTransitive(old(table.log), told, table.log);
        StaysSeenGrows(told, table.log, StateKey(s.messageId), Some(StateRow(s)));
        StayTakenGrows(told, table.log, KeySet(taken));
        if moved.Err? {
          return Err(moved.error);
        } else if moved.value {
          return Err(Conflict);
        }
      } else if r.Ok? && r.value.Cancelled? && r.value.decision != Retry && !r.value.decision.AliasTaken? {
        return Err(PermanentError);
      }
    }

    /**
      Records a send's outcome. It commits at most once. It gives up only when
      another writer has moved the send on, or four attempts were cancelled, and
      any other error is one a call met: the message and the thread it needs are
      always there.
     */
    method MarkSend(s: SendState, outcome: MarkOutcome, now: string) returns (r: Result<()>)
      requires table.Valid() && MarksFrom(s.status, outcome)
      requires StaysSeen(table.log, StateKey(s.messageId), Some(StateRow(s)))
      modifies table
      ensures table.Valid()
      ensures Worked(old(table.log), old(table.mine), table.log, table.mine, CallMark(s, outcome, now))
      ensures |table.mine| <= |old(table.mine)| + 1
      ensures r.Ok? ==> table.mine == old(table.mine) + [|table.log| - 1]
      ensures r == Err(Conflict) ==>
                || !VersionCheck(table.rows, StateKey(s.messageId), s.version)
                || Cancellations(old(table.answers), table.answers, MAX_TXN_RETRIES + 1)
      ensures r.Err? ==> r.error == Conflict || r.error in Faults(old(table.fates))
      ensures old(table.Quiet()) ==>
                r == if old(VersionCheck(table.rows, StateKey(s.messageId), s.version)) then Ok(()) else Err(Conflict)
    {
      var taken: seq<Key> := [];
      NothingTakenYet(table.log);
      RunGrows(table.log, 0);
      for attempt := 0 to MAX_TXN_RETRIES + 1
        invariant table.Valid() && StayTaken(table.log, KeySet(taken)) && StaysSeen(table.log, StateKey(s.messageId), Some(StateRow(s)))
        invariant Worked(old(table.log), old(table.mine), table.log, table.mine, CallMark(s, outcome, now))
        invariant |table.mine| <= |old(table.mine)| + 1
        invariant Faults(table.fates) <= Faults(old(table.fates))
        invariant Cancellations(old(table.answers), table.answers, attempt)
        invariant old(table.Quiet()) ==>
                    table.Quiet() && table.rows == old(table.rows) && MarkGoesOn(table.rows, s, outcome, now, taken, attempt)
      {
        ghost var log, mine, answers := table.log, table.mine, table.answers;
        var result := AttemptMark(s, outcome, now, taken, attempt);
        WorkedOnceOn(old(table.log), old(table.mine), log, mine, table.log, table.mine, CallMark(s, outcome, now));
        if result.Err? {
          return Err(result.error);
        } else if result.value.Committed? {
          return Ok(());
        }
        OneMoreCancellation(old(table.answers), answers, attempt, result);
        taken := TakenAfter(taken, result);
      }
      return Err(Conflict);
    }

    // -------------------------------------------------------------------
    // Label patches
    // -------------------------------------------------------------------

    /** The transaction of a patch that changes something. */
    method SubmitPatch(msg: Message, add: seq<string>, remove: seq<string>, t: ThreadState, now: string) returns (r: Result<TxnOutcome>)
      requires table.Valid() && Ready(table.log, PatchEvent(msg, add, remove, t, now))
      requires StaysSeen(table.log, MessageKey(msg.inboxId, msg.messageId), Some(MessageRow(msg)))
      requires StaysSeen(table.log, ThreadKey(msg.inboxId, msg.threadId), Some(ThreadRow(t)))
      modifies table
      ensures table.Valid()
      ensures Stepped(old(table.log), old(table.mine), table.log, table.mine,
                      CallPatch(msg.inboxId, msg.messageId, add, remove, now))
      ensures r.Ok? ==> table.answers == old(table.answers) + [r]
      ensures r == Ok(Committed) ==>
                && |table.mine| > |old(table.mine)|
                && PatchedLast(table.log, MessageKey(msg.inboxId, msg.messageId), add, remove, Patched(msg.labels, add, remove).labels)
      ensures r.Ok? && r.value.Cancelled? ==> r.value.decision == VersionConflict || r.value.decision == Retry
      ensures Faults(table.fates) <= Faults(old(table.fates))
      ensures r.Err? ==>
                || r.error in Faults(old(table.fates))
                || (r.error == LabelLimitError && PatchTooBig(table.log, MessageKey(msg.inboxId, msg.messageId), add, remove))
      ensures old(table.Quiet() && PatchReads(table.rows, msg, t)) ==>
                r == if PatchFits(old(table.rows), msg, Patched(msg.labels, add, remove)) then Ok(Committed) else Err(LabelLimitError)
    {
      var patch := PatchLabels(msg.labels, add, remove);
      var after := ApplyLabelPatch(t, patch.added, patch.removed, now);
      var plan := PlanPatch(msg, patch.labels, t, after, now);
      if PatchReads(table.rows, msg, t) { PatchNow(table.rows, msg, add, remove, t, now, plan); }
      if plan.LabelLimit? {
        PatchRefused(table.log, msg, add, remove, t, now, plan);
        return Err(LabelLimitError);
      }
      var e := PatchEvent(msg, add, remove, t, now);
      PatchPlanned(e, plan);
      r := Run(e, plan.ops, CallPatch(msg.inboxId, msg.messageId, add, remove, now));
      if r.Ok? && r.value.Cancelled? && r.value.decision != Retry {
        PatchFailure(table.rows, e, plan.ops);
      }
    }

    /** The message a patch is for and its thread, from fresh reads; `None` where there is no such message. */
    method ReadPatched(inboxId: string, messageId: string) returns (r: Result<Option<(Message, ThreadState)>>)
      requires table.Valid()
      modifies table
      ensures table.OnlyRead() && (old(table.Quiet()) ==> r.Ok?)
      ensures r == Ok(None) ==> MessageKey(inboxId, messageId) !in table.rows
      ensures r.Ok? && r.value.Some? ==>
                var (m, t) := r.value.value;
                && m.inboxId == inboxId && m.messageId == messageId
                && StaysSeen(table.log, MessageKey(inboxId, messageId), Some(MessageRow(m)))
                && StaysSeen(table.log, ThreadKey(inboxId, m.threadId), Some(ThreadRow(t)))
                && (old(table.Quiet()) ==> PatchReads(table.rows, m, t))
      ensures r.Err? ==> r.error in Faults(old(table.fates))
    {
      var mk := MessageKey(inboxId, messageId);
      var msg := ReadMessage(inboxId, messageId);
      if msg.Err? {
        return Err(msg.error);
      } else if msg.value.None? {
        return Ok(None);
      }
      var m := msg.value.value;
      ghost var log1 := table.log;
      MessageHasThread(log1, mk, m);
      var before := ReadThread(inboxId, m.threadId);
      PrefixTransitive(old(table.log), log1, table.log);
      StaysSeenGrows(log1, table.log, mk, Some(MessageRow(m)));
      if before.Err? {
        return Err(before.error);
      }
      MessageHasThread(table.log, mk, m);
      if before.value.None? {
        return Err(PermanentError);
      }
      SeenRowIsTyped(table.log, ThreadKey(inboxId, m.threadId), ThreadRow(before.value.value));
      return Ok(Some((m, before.value.value)));
    }

    /** One attempt at a patch, from fresh reads. */
    method TryPatch(inboxId: string, messageId: string, add: seq<string>, remove: seq<string>, now: string) returns (r: Result<PatchStep>)
      requires table.Valid()
      modifies table
      ensures table.Valid() && Stepped(old(table.log), old(table.mine), table.log, table.mine, CallPatch(inboxId, messageId, add, remove, now))
      ensures r == Ok(NoMessage) ==> MessageKey(inboxId, messageId) !in table.rows
      ensures r.Ok? && r.value.Unchanged? ==> NothingToPatch(table.log, MessageKey(inboxId, messageId), add, remove, r.value.labels)
      ensures r.Ok? && r.value.Tried? ==> table.answers == old(table.answers) + [Ok(r.value.outcome)]
      ensures r.Ok? && r.value.Tried? && r.value.outcome.Committed? ==>
                && |table.mine| > |old(table.mine)|
                && PatchedLast(table.log, MessageKey(inboxId, messageId), add, remove, r.value.labels)
      ensures r.Ok? && r.value.Tried? && r.value.outcome.Cancelled? ==>
                r.value.outcome.decision == VersionConflict || r.value.outcome.decision == Retry
      ensures Faults(table.fates) <= Faults(old(table.fates))
      ensures r.Err? ==>
                || r.error in Faults(old(table.fates))
                || (r.error == LabelLimitError && PatchTooBig(table.log, MessageKey(inboxId, messageId), add, remove))
      ensures old(table.Quiet()) ==> PatchStepEnds(r, PatchResult(old(table.rows), inboxId, messageId, add, remove))
    {
      var read := ReadPatched(inboxId, messageId);
      if read.Err? {
        return Err(read.error);
      } else if read.value.None? {
        return Ok(NoMessage);
      }
      ghost var log := table.log;
      var (m, t) := read.value.value;
      var patch := PatchLabels(m.labels, add, remove);
      if patch.added == [] && patch.removed == [] {
        MessageNeedsNoPatch(log, MessageKey(inboxId, messageId), m, add, remove);
        return Ok(Unchanged(patch.labels));
      }
      PatchIsReady(log, m, add, remove, t, now);
      var outcome := SubmitPatch(m, add, remove, t, now);
      PrefixTransitive(old(table.log), log, table.log);
      if outcome.Err? {
        return Err(outcome.error);
      }
      return Ok(Tried(patch.labels, outcome.value));
    }

    /**
      Applies a label patch. The labels it returns are those its own newest
      commit stored, or, where the patch changes nothing, those the message
      already had; `None` means there is no such message. It gives up only when
      four attempts were cancelled.
     */
    method UpdateLabels(inboxId: string, messageId: string, add: seq<string>, remove: seq<string>, now: string)
      returns (r: Result<Option<seq<string>>>)
      requires table.Valid()
      modifies table
      ensures table.Valid()
      ensures Worked(old(table.log), old(table.mine), table.log, table.mine, CallPatch(inboxId, messageId, add, remove, now))
      ensures r == Ok(None) ==> MessageKey(inboxId, messageId) !in table.rows
      ensures r.Ok? && r.value.Some? ==>
                || NothingToPatch(table.log, MessageKey(inboxId, messageId), add, remove, r.value.value)
                || (&& |table.mine| > |old(table.mine)| && table.mine[|table.mine| - 1] == |table.log| - 1
                    && PatchedLast(table.log, MessageKey(inboxId, messageId), add, remove, r.value.value))
      ensures r == Err(Conflict) ==> Cancellations(old(table.answers), table.answers, MAX_TXN_RETRIES + 1)
      ensures r.Err? ==>
                || r.error == Conflict || r.error in Faults(old(table.fates))
                || (r.error == LabelLimitError && PatchTooBig(table.log, MessageKey(inboxId, messageId), add, remove))
      ensures old(table.Quiet()) ==> r == PatchResult(old(table.rows), inboxId, messageId, add, remove)
    {
      for attempt := 0 to MAX_TXN_RETRIES + 1
        invariant table.Valid()
        invariant Worked(old(table.log), old(table.mine), table.log, table.mine, CallPatch(inboxId, messageId, add, remove, now))
        invariant Faults(table.fates) <= Faults(old(table.fates))
        invariant Cancellations(old(table.answers), table.answers, attempt)
        invariant old(table.Quiet()) ==> table.Quiet() && table.rows == old(table.rows) && attempt == 0
      {
        ghost var log, mine, answers := table.log, table.mine, table.answers;
        var step := TryPatch(inboxId, messageId, add, remove, now);
        WorkedOn(old(table.log), old(table.mine), log, mine, table.log, table.mine, CallPatch(inboxId, messageId, add, remove, now));
        if step.Err? {
          return Err(step.error);
        }
        match step.value
        case NoMessage => return Ok(None);
        case Unchanged(labels) => return Ok(Some(labels));
        case Tried(labels, Committed) => return Ok(Some(labels));
        case Tried(_, Cancelled(decision)) =>
          OneMoreCancellation(old(table.answers), answers, attempt, Ok(step.value.outcome));
          if decision != Retry && decision != VersionConflict {
            return Err(PermanentError);
          }
      }
      return Err(Conflict);
    }
  }
}
