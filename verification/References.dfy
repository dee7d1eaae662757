/**
  SES references over any run: the rows that lead a delivery event back to
  the message it is about.
 */
module References {
  import opened Aliases
  import opened Plan
  import opened Records
  import opened Rollups
  import opened Runs
  import opened Sending
  import opened Shapes

  /** A reference row after a transaction is what it was, or one the plan wrote. */
  lemma {:induction false} RefSource(db: Db, ops: seq<PlannedOp>, k: Key, m: Message, kind: Kind)
    requires k.SesRefKey? && AllShaped(ops, m, kind)
    ensures var row := Lookup(ApplyAll(db, ops), k);
            || row == Lookup(db, k)
            || (row.Some? && row.value.SesRefRow? && row.value.inboxId == m.inboxId && row.value.messageId == m.messageId)
  {
    if ops != [] {
      var init, last := ops[..|ops| - 1], ops[|ops| - 1];
      RefSource(db, init, k, m, kind);
      assert Shaped(last, m, kind);
    }
  }

  /** The message a reference row names is stored. */
  ghost predicate RefNames(db: Db, row: Row) {
    row.SesRefRow? && HasMessage(db, MessageKey(row.inboxId, row.messageId))
  }

  ghost predicate RefsSound(db: Db) {
    forall id: string :: SesRefKey(id) in db ==> RefNames(db, db[SesRefKey(id)])
  }

  lemma RefStep(events: seq<Event>, e: Event, id: string)
    requires ValidRun(events) && CanCommit(events, e) && RefsSound(After(events))
    requires SesRefKey(id) in Commit(After(events), e)
    ensures RefNames(Commit(After(events), e), Commit(After(events), e)[SesRefKey(id)])
  {
    var k := SesRefKey(id);
    if OnlyState(e) {
      UntargetedUnchanged(After(events), PlanOf(e).ops, k);
    } else {
      PlanShape(e);
      RefSource(After(events), PlanOf(e).ops, k, Subject(e), KindOf(e));
      SubjectIsStored(events, e);
    }
    if Lookup(Commit(After(events), e), k) == Lookup(After(events), k) {
      OldRefNames(events, e, After(events)[k]);
    }
  }

  lemma OldRefNames(events: seq<Event>, e: Event, row: Row)
    requires ValidRun(events) && CanCommit(events, e) && RefNames(After(events), row)
    ensures RefNames(Commit(After(events), e), row)
  {
    MessageStep(events, e, MessageKey(row.inboxId, row.messageId));
  }

  /** In every reachable state, a delivery event's SES id leads to a stored message or to none. */
  lemma {:induction false} RefsAlwaysSound(events: seq<Event>)
    requires ValidRun(events)
    ensures RefsSound(After(events))
  {
    if events != [] {
      var init, e := events[..|events| - 1], events[|events| - 1];
      LastStep(events);
      RefsAlwaysSound(init);
      forall id: string | SesRefKey(id) in After(events) ensures RefNames(After(events), After(events)[SesRefKey(id)]) {
        RefStep(init, e, id);
      }
    }
  }
}
