/**
  The table as one of its writers meets it. Between any two of its steps
  other writers commit, its calls may be throttled or fail, and a commit may
  be reported to it as a retry or as an error.
 */
module Store {
  import opened Calls
  import opened Cancellation
  import opened Plan
  import opened Records
  import opened Runs

  datatype StoreError = Conflict | Transient | PermanentError | LabelLimitError

  datatype Result<+T> = Ok(value: T) | Err(error: StoreError)

  datatype TxnOutcome = Committed | Cancelled(decision: TxnDecision)

  /** What becomes of one call to the table. */
  datatype Fate =
    | Answered
    | Throttled
    | Broken(permanent: bool)
    | AppliedThrottled
    | AppliedBroken(permanent: bool)

  /** The error a failed call reports. */
  function ErrorOf(permanent: bool): StoreError {
    if permanent then PermanentError else Transient
  }

  /** The errors the coming calls are going to report. */
  function Faults(fates: seq<Fate>): set<StoreError> {
    set i | 0 <= i < |fates| && (fates[i].Broken? || fates[i].AppliedBroken?) :: ErrorOf(fates[i].permanent)
  }

  function FateNow(fates: seq<Fate>): Fate {
    if fates == [] then Answered else fates[0]
  }

  function FatesLeft(fates: seq<Fate>): seq<Fate> {
    if fates == [] then [] else fates[1..]
  }

  /** What a table holding `db` makes of a transaction. */
  function Judged(db: Db, ops: seq<PlannedOp>): TxnOutcome {
    if AllHold(db, ops) then Committed else Cancelled(Decide(ops, ReasonsFor(db, ops)))
  }

  /** Whether it is applied, and what its writer is told, which need not agree. */
  predicate Applies(fate: Fate, db: Db, ops: seq<PlannedOp>) {
    !fate.Throttled? && !fate.Broken? && AllHold(db, ops)
  }

  function Answer(fate: Fate, db: Db, ops: seq<PlannedOp>): Result<TxnOutcome> {
    match fate
    case Answered => Ok(Judged(db, ops))
    case Throttled => Ok(Cancelled(Retry))
    case AppliedThrottled => Ok(Cancelled(Retry))
    case Broken(permanent) => Err(ErrorOf(permanent))
    case AppliedBroken(permanent) => Err(ErrorOf(permanent))
  }

  /** What the answers say, whatever became of the call. */
  lemma AnswerMeans(fates0: seq<Fate>, met: Db, ops: seq<PlannedOp>, r: Result<TxnOutcome>)
    requires r == Answer(FateNow(fates0), met, ops)
    ensures r == Ok(Committed) ==> Applies(FateNow(fates0), met, ops)
    ensures r.Ok? && r.value.Cancelled? && r.value.decision != Retry ==>
              && !Applies(FateNow(fates0), met, ops) && !AllHold(met, ops) && r.value.decision == Decide(ops, ReasonsFor(met, ops))
    ensures r.Err? ==> r.error in Faults(fates0)
  {
  }

  /** The commits in `log` leave `rows`; the table's rows are looked at through this alone. */
  ghost predicate Leaves(log: seq<Event>, rows: Db) {
    forall done {:trigger After(done)} :: done == log ==> After(done) == rows
  }

  /** One of this writer's commits; their order is looked at through this alone. */
  ghost function Nth(mine: seq<nat>, i: nat): nat
    requires i < |mine|
  {
    mine[i]
  }

  /** Ascending, and all among the first `n` commits. */
  ghost predicate InOrder(mine: seq<nat>, n: nat) {
    && (forall i {:trigger Nth(mine, i)} :: 0 <= i < |mine| ==> Nth(mine, i) < n)
    && (forall i, j {:trigger Nth(mine, i), Nth(mine, j)} :: 0 <= i < j < |mine| ==> Nth(mine, i) < Nth(mine, j))
  }

  lemma OneMoreInOrder(mine: seq<nat>, n: nat)
    requires InOrder(mine, n)
    ensures InOrder(mine + [n], n + 1)
  {
    forall i | 0 <= i < |mine + [n]| ensures Nth(mine + [n], i) < n + 1 {
      if i < |mine| { assert Nth(mine, i) < n; }
    }
    forall i, j | 0 <= i < j < |mine + [n]| ensures Nth(mine + [n], i) < Nth(mine + [n], j) {
      assert Nth(mine, i) < n;
      if j < |mine| { assert Nth(mine, i) < Nth(mine, j); }
    }
  }

  class Table {
    /** The rows stored now. */
    var rows: Db
    /** The transactions that made them, in commit order. */
    var log: seq<Event>
    /** What the other writers submit at each of this writer's steps. */
    var arrivals: seq<seq<Event>>
    /** What becomes of this writer's calls. */
    var fates: seq<Fate>
    /** Which of the commits are this writer's. */
    ghost var mine: seq<nat>
    /** What this writer was told about each of its transactions. */
    ghost var answers: seq<Result<TxnOutcome>>

    /** Nobody else is about to write, and every call will be answered. */
    predicate Quiet()
      reads this
    {
      arrivals == [] && fates == []
    }

    /** What a read leaves as it was, and what a quiet table leaves as it was besides. */
    twostate predicate OnlyRead()
      reads this
    {
      && Valid() && IsPrefix(old(log), log) && mine == old(mine) && answers == old(answers)
      && Faults(fates) <= Faults(old(fates))
      && (old(Quiet()) ==> Quiet() && rows == old(rows) && log == old(log))
    }

    ghost predicate Valid()
      reads this
    {
      && ValidRun(log) && Leaves(log, rows)
      && InOrder(mine, |log|)
    }

    constructor (arrivals: seq<seq<Event>>, fates: seq<Fate>)
      ensures Valid() && log == [] && mine == [] && answers == []
      ensures this.arrivals == arrivals && this.fates == fates
    {
      rows, log, mine, answers := map[], [], [], [];
      this.arrivals, this.fates := arrivals, fates;
    }

    /** The other writers' turn: each of their transactions commits if it can. */
    method OthersCommit()
      requires Valid()
      modifies this`rows, this`log, this`arrivals
      ensures Valid() && IsPrefix(old(log), log)
      ensures old(arrivals) == [] ==> rows == old(rows) && log == old(log) && arrivals == []
    {
      if arrivals == [] {
        return;
      }
      var batch := arrivals[0];
      arrivals := arrivals[1..];
      for i := 0 to |batch|
        invariant Valid() && IsPrefix(old(log), log)
      {
        Admit(batch[i]);
      }
    }

    /** Another writer's transaction: it commits if it can. */
    method Admit(e: Event)
      requires Valid()
      modifies this`rows, this`log
      ensures Valid()
      ensures log == if old(Legal(log, e) && Passes(rows, e)) then old(log) + [e] else old(log)
    {
      if Legal(log, e) && Passes(rows, e) {
        LegalIsReady(log, e);
        Extend(log, e);
        rows := Commit(rows, e);
        log := log + [e];
      }
    }

    method NextFate() returns (fate: Fate)
      modifies this`fates
      ensures fate == FateNow(old(fates)) && fates == FatesLeft(old(fates))
      ensures Faults(fates) <= Faults(old(fates))
      ensures fate.Broken? || fate.AppliedBroken? ==> ErrorOf(fate.permanent) in Faults(old(fates))
    {
      if fates == [] {
        return Answered;
      }
      fate := fates[0];
      fates := fates[1..];
    }

    /** A consistent read of one row. */
    method Get(k: Key) returns (r: Result<Option<Row>>)
      requires Valid()
      modifies this`rows, this`log, this`arrivals, this`fates
      ensures OnlyRead()
      ensures r.Ok? ==> r.value == Lookup(rows, k) && StaysSeen(log, k, r.value)
      ensures old(Quiet()) ==> r.Ok?
      ensures r.Err? ==> r.error in Faults(old(fates))
    {
      OthersCommit();
      var fate := NextFate();
      if fate.Broken? {
        return Err(ErrorOf(fate.permanent));
      }
      r := Ok(Lookup(rows, k));
      assert log[..|log|] == log;
      SeenStays(log, k, r.value);
    }

    /** Every write's condition against the rows stored now. */
    method CheckAll(ops: seq<PlannedOp>) returns (reasons: seq<CancellationReason>, allOk: bool)
      ensures reasons == ReasonsFor(rows, ops) && allOk == AllHold(rows, ops)
    {
      reasons, allOk := [], true;
      for i := 0 to |ops|
        invariant |reasons| == i && allOk == AllHold(rows, ops[..i])
        invariant forall j :: 0 <= j < i ==> reasons[j] == if OpHolds(rows, ops[j].op) then NoReason else ConditionalCheckFailed
      {
        assert ops[..i + 1] == ops[..i] + [ops[i]];
        if OpHolds(rows, ops[i].op) {
          reasons := reasons + [NoReason];
        } else {
          allOk := false;
          reasons := reasons + [ConditionalCheckFailed];
        }
      }
      assert ops[..|ops|] == ops;
    }

    /** Every write, in order. */
    method ApplyEach(ops: seq<PlannedOp>)
      modifies this`rows
      ensures rows == ApplyAll(old(rows), ops)
    {
      for i := 0 to |ops|
        invariant rows == ApplyAll(old(rows), ops[..i])
      {
        assert ops[..i + 1][..i] == ops[..i];
        rows := ApplyOp(rows, ops[i].op);
      }
      assert ops[..|ops|] == ops;
    }

    /** All the writes or, if any check fails, none of them. */
    method Attempt(e: Event, ops: seq<PlannedOp>) returns (outcome: TxnOutcome)
      requires Valid() && Ready(log, e) && Plans(e, ops)
      modifies this`rows, this`log, this`mine
      ensures Valid()
      ensures outcome.Committed? <==> old(AllHold(rows, ops))
      ensures outcome.Committed? ==> log == old(log) + [e] && mine == old(mine) + [|old(log)|]
      ensures outcome.Cancelled? ==> && rows == old(rows) && log == old(log) && mine == old(mine)
                                     && outcome.decision == Decide(ops, ReasonsFor(rows, ops))
    {
      var reasons, allOk := CheckAll(ops);
      if !allOk {
        var decision := DecodeCancellation(ops, reasons);
        return Cancelled(decision);
      }
      ReadyCommits(log, e, ops);
      ApplyEach(ops);
      OneMoreInOrder(mine, |log|);
      mine := mine + [|log|];
      log := log + [e];
      return Committed;
    }

    /** One attempt and the answer to it, which may hide that it committed. */
    method Submit(e: Event, ops: seq<PlannedOp>) returns (r: Result<TxnOutcome>)
      requires Valid() && Ready(log, e) && Plans(e, ops)
      modifies this`rows, this`log, this`mine, this`fates, this`answers
      ensures Valid() && fates == FatesLeft(old(fates)) && answers == old(answers) + [r]
      ensures r == Answer(FateNow(old(fates)), old(rows), ops)
      ensures if Applies(FateNow(old(fates)), old(rows), ops) then log == old(log) + [e] && mine == old(mine) + [|old(log)|]
              else log == old(log) && mine == old(mine) && rows == old(rows)
    {
      var fate := NextFate();
      if fate.Throttled? {
        r := Ok(Cancelled(Retry));
      } else if fate.Broken? {
        r := Err(ErrorOf(fate.permanent));
      } else {
        var outcome := Attempt(e, ops);
        r := if fate.AppliedThrottled? then Ok(Cancelled(Retry))
             else if fate.AppliedBroken? then Err(ErrorOf(fate.permanent))
             else Ok(outcome);
      }
      answers := answers + [r];
    }

    /**
      One transaction, as its writer sees it. It is judged against the rows it
      meets once the others have had their turn, and answered, unless the call
      is throttled or breaks, with that judgement. Only `Committed` says that it
      committed, and only a decision other than `Retry` says that it did not.
     */
    method Transact(e: Event, ops: seq<PlannedOp>) returns (r: Result<TxnOutcome>, ghost met: Db)
      requires Valid() && Ready(log, e) && Plans(e, ops)
      modifies this
      ensures Valid() && IsPrefix(old(log), log)
      ensures r == Answer(FateNow(old(fates)), met, ops) && answers == old(answers) + [r]
      ensures if Applies(FateNow(old(fates)), met, ops)
              then log != [] && log[|log| - 1] == e && mine == old(mine) + [|log| - 1]
              else mine == old(mine) && rows == met
      ensures Faults(fates) <= Faults(old(fates))
      ensures old(Quiet()) ==> Quiet() && met == old(rows) && (mine == old(mine) ==> log == old(log))
    {
      OthersCommit();
      ReadyGrows(old(log), log, e);
      met := rows;
      r := Submit(e, ops);
    }
  }
}
