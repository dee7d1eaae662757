/**
  Changes to one message's labels: a caller's patch, and the relabelling a
  send outcome brings. Both are described to the thread as the lists of
  labels that were really added and really removed.
 */
module Labels {
  import opened Text

  /**
    `added` and `removed`, applied in that order, turn `before` into `after`:
    each added label was missing, each removed one was there by then.
   */
  ghost predicate IsChange(before: seq<string>, after: seq<string>, added: seq<string>, removed: seq<string>) {
    && StrictlyAscending(after)
    && NoDuplicates(added) && NoDuplicates(removed)
    && (forall l :: l in added ==> l !in before)
    && (forall l :: l in removed ==> l in before || l in added)
    && (forall l :: l in after <==> (l in before || l in added) && l !in removed)
  }

  // ---------------------------------------------------------------------
  // A caller's patch
  // ---------------------------------------------------------------------

  datatype LabelPatch = LabelPatch(labels: seq<string>, added: seq<string>, removed: seq<string>)

  /** The labels of `add`, in order, that `current` did not have yet. */
  function AddedBy(current: seq<string>, add: seq<string>): (r: seq<string>)
    ensures forall l :: l in r <==> l in add && l !in current
  {
    if add == [] then []
    else
      var init, last := add[..|add| - 1], add[|add| - 1];
      assert add == init + [last];
      var sofar := AddedBy(current, init);
      if last in current || last in sofar then sofar else sofar + [last]
  }

  /** What is left of `labels`, and what was taken, after removing `remove`. */
  function RemovedBy(labels: seq<string>, remove: seq<string>): (r: (seq<string>, seq<string>))
    ensures forall l :: l in r.0 <==> l in labels && l !in remove
    ensures forall l :: l in r.1 <==> l in labels && l in remove
  {
    if remove == [] then (labels, [])
    else
      var init, last := remove[..|remove| - 1], remove[|remove| - 1];
      assert remove == init + [last];
      var (left, taken) := RemovedBy(labels, init);
      if last in left then (Without(left, last), taken + [last]) else (left, taken)
  }

  function Patched(current: seq<string>, add: seq<string>, remove: seq<string>): LabelPatch {
    var added := AddedBy(current, add);
    var (left, removed) := RemovedBy(current + added, remove);
    LabelPatch(Sort(left), added, removed)
  }

  lemma {:induction false} AddedByHasNoDuplicates(current: seq<string>, add: seq<string>)
    ensures NoDuplicates(AddedBy(current, add))
  {
    if add != [] {
      AddedByHasNoDuplicates(current, add[..|add| - 1]);
    }
  }

  lemma {:induction false} RemovedByHasNoDuplicates(labels: seq<string>, remove: seq<string>)
    requires NoDuplicates(labels)
    ensures NoDuplicates(RemovedBy(labels, remove).0)
    ensures NoDuplicates(RemovedBy(labels, remove).1)
  {
    if remove != [] {
      var init, last := remove[..|remove| - 1], remove[|remove| - 1];
      RemovedByHasNoDuplicates(labels, init);
      WithoutKeepsNoDuplicates(RemovedBy(labels, init).0, last);
      if last in RemovedBy(labels, init).0 {
        assert last !in RemovedBy(labels, init).1;
      }
    }
  }

  /** A patch reports exactly the changes it made, whatever was asked. */
  lemma PatchedIsChange(current: seq<string>, add: seq<string>, remove: seq<string>)
    requires StrictlyAscending(current)
    ensures var p := Patched(current, add, remove);
            && IsChange(current, p.labels, p.added, p.removed)
            && forall l :: l in p.labels <==> (l in current || l in add) && l !in remove
  {
    var added := AddedBy(current, add);
    AscendingHasNoDuplicates(current);
    AddedByHasNoDuplicates(current, add);
    var with := current + added;
    forall i, j | 0 <= i < j < |with| ensures with[i] != with[j] {
      if i < |current| <= j {
        assert with[i] in current && with[j] in added;
      }
    }
    RemovedByHasNoDuplicates(with, remove);
    SortAscends(RemovedBy(with, remove).0);
  }

  method PatchLabels(current: seq<string>, add: seq<string>, remove: seq<string>) returns (patch: LabelPatch)
    ensures patch == Patched(current, add, remove)
  {
    var labels := current;
    var added := [];
    for i := 0 to |add|
      invariant added == AddedBy(current, add[..i])
      invariant labels == current + added
    {
      assert add[..i + 1][..i] == add[..i];
      if add[i] !in labels {
        labels := labels + [add[i]];
        added := added + [add[i]];
      }
    }
    assert add[..|add|] == add;
    var removed := [];
    for i := 0 to |remove|
      invariant (labels, removed) == RemovedBy(current + added, remove[..i])
    {
      assert remove[..i + 1][..i] == remove[..i];
      if remove[i] in labels {
        labels := Without(labels, remove[i]);
        removed := removed + [remove[i]];
      }
    }
    assert remove[..|remove|] == remove;
    patch := LabelPatch(Sort(labels), added, removed);
  }

  // ---------------------------------------------------------------------
  // The relabelling a send outcome brings
  // ---------------------------------------------------------------------

  /** The elements of `a` that `b` lacks, in order. */
  function Minus(a: seq<string>, b: seq<string>): (r: seq<string>)
    ensures forall l :: l in r <==> l in a && l !in b
  {
    if a == [] then []
    else
      var init, last := a[..|a| - 1], a[|a| - 1];
      assert a == init + [last];
      if last in b then Minus(init, b) else Minus(init, b) + [last]
  }

  lemma {:induction false} MinusHasNoDuplicates(a: seq<string>, b: seq<string>)
    requires NoDuplicates(a)
    ensures NoDuplicates(Minus(a, b))
  {
    if a != [] {
      var init, last := a[..|a| - 1], a[|a| - 1];
      MinusHasNoDuplicates(init, b);
      assert last !in init;
    }
  }

  /** Between two sorted label lists, the two differences are the change. */
  lemma DifferencesAreChange(before: seq<string>, after: seq<string>)
    requires StrictlyAscending(before) && StrictlyAscending(after)
    ensures IsChange(before, after, Minus(after, before), Minus(before, after))
    ensures Minus(after, before) == [] && Minus(before, after) == [] ==> before == after
  {
    AscendingHasNoDuplicates(before);
    AscendingHasNoDuplicates(after);
    MinusHasNoDuplicates(after, before);
    MinusHasNoDuplicates(before, after);
    if Minus(after, before) == [] && Minus(before, after) == [] {
      forall x ensures x in before <==> x in after {
        assert x in Minus(after, before) <==> x in after && x !in before;
        assert x in Minus(before, after) <==> x in before && x !in after;
      }
      AscendingUnique(before, after);
    }
  }

  method LabelChanges(before: seq<string>, after: seq<string>) returns (added: seq<string>, removed: seq<string>)
    ensures added == Minus(after, before)
    ensures removed == Minus(before, after)
  {
    added := [];
    for i := 0 to |after|
      invariant added == Minus(after[..i], before)
    {
      assert after[..i + 1][..i] == after[..i];
      if after[i] !in before { added := added + [after[i]]; }
    }
    assert after[..|after|] == after;
    removed := [];
    for i := 0 to |before|
      invariant removed == Minus(before[..i], after)
    {
      assert before[..i + 1][..i] == before[..i];
      if before[i] !in after { removed := removed + [before[i]]; }
    }
    assert before[..|before|] == before;
  }

  /** `labels` with `remove` dropped and `add` present, sorted. */
  function Relabel(labels: seq<string>, remove: string, add: string): (r: seq<string>)
    ensures forall l :: l in r <==> (l in labels && l != remove) || l == add
  {
    var kept := Without(labels, remove);
    Sort(if add in kept then kept else kept + [add])
  }

  lemma RelabelAscends(labels: seq<string>, remove: string, add: string)
    requires StrictlyAscending(labels)
    ensures StrictlyAscending(Relabel(labels, remove, add))
  {
    AscendingHasNoDuplicates(labels);
    WithoutKeepsNoDuplicates(labels, remove);
    var kept := Without(labels, remove);
    SortAscends(if add in kept then kept else kept + [add]);
  }
}
