/**
  Paging: a query that returns one page of an index partition, the loop that
  fills a filtered page from several of them, and the walk a client makes by
  following continuations until there is none.
 */
module Pages {
  import opened Records
  import opened Text
  import opened Windows

  /** How many queries one list request may spend on a page. */
  const MAX_FILL_PAGES: nat := 5

  /** The largest page a query returns. */
  const MAX_LIMIT: nat := 100

  /** An item of a partition under its index sort key. */
  datatype Entry<T> = Entry(sort: string, item: T)

  /** A query's direction and its exclusive bounds. */
  datatype Shape = Shape(ascending: bool, before: Option<string>, after: Option<string>)

  datatype Page<T> = Page(entries: seq<Entry<T>>, next: Option<string>)

  /** Whether `a` comes before `b` in the direction of the listing. */
  predicate Precedes(ascending: bool, a: string, b: string) {
    if ascending then Less(a, b) else Less(b, a)
  }

  /** Whether a sort key lies past the continuation. */
  predicate Past(ascending: bool, start: Option<string>, sort: string) {
    start.Some? ==> Precedes(ascending, start.value, sort)
  }

  /** Listed in order; strictly, so no sort key twice. */
  ghost predicate Ordered<T>(entries: seq<Entry<T>>, ascending: bool) {
    forall i, j :: 0 <= i < j < |entries| ==> Precedes(ascending, entries[i].sort, entries[j].sort)
  }

  /** No two items of the partition share a sort key. */
  ghost predicate Distinct<T>(rows: seq<Entry<T>>) {
    forall i, j :: 0 <= i < j < |rows| ==> rows[i].sort != rows[j].sort
  }

  /** `listing` is the whole partition within the bounds, in order. */
  ghost predicate IsListing<T(!new)>(listing: seq<Entry<T>>, rows: seq<Entry<T>>, shape: Shape) {
    && Ordered(listing, shape.ascending)
    && forall e :: e in listing <==> e in rows && Selected(e.sort, shape.before, shape.after)
  }

  // ---------------------------------------------------------------------
  // Order
  // ---------------------------------------------------------------------

  lemma PrecedesTransitive(ascending: bool, a: string, b: string, c: string)
    requires Precedes(ascending, a, b) && Precedes(ascending, b, c)
    ensures Precedes(ascending, a, c)
  {
    if ascending { LessTransitive(a, b, c); } else { LessTransitive(c, b, a); }
  }

  lemma PrecedesIrreflexive(ascending: bool, a: string)
    ensures !Precedes(ascending, a, a)
  {
    LessIrreflexive(a);
  }

  lemma FirstIsSame<T(!new)>(a: seq<Entry<T>>, b: seq<Entry<T>>, ascending: bool)
    requires Ordered(a, ascending) && Ordered(b, ascending) && a != [] && b != []
    requires forall e :: e in a <==> e in b
    ensures a[0] == b[0]
  {
    assert a[0] in b && b[0] in a;
    var i :| 0 <= i < |b| && b[i] == a[0];
    var j :| 0 <= j < |a| && a[j] == b[0];
    if i > 0 && j > 0 {
      PrecedesTransitive(ascending, a[0].sort, b[0].sort, a[0].sort);
      PrecedesIrreflexive(ascending, a[0].sort);
    }
  }

  lemma TailMembers<T(!new)>(a: seq<Entry<T>>, ascending: bool, e: Entry<T>)
    requires Ordered(a, ascending) && a != []
    ensures e in a[1..] <==> e in a && e != a[0]
  {
    assert a == [a[0]] + a[1..];
    forall i | 0 <= i < |a[1..]| ensures a[1..][i] != a[0] {
      PrecedesIrreflexive(ascending, a[0].sort);
      assert Precedes(ascending, a[0].sort, a[i + 1].sort);
    }
  }

  lemma SomeMember<T(!new)>(a: seq<Entry<T>>)
    requires a != []
    ensures exists e :: e in a
  {
    assert a[0] in a;
  }

  /** There is one way to list a set in order. */
  lemma {:induction false} OrderedUnique<T(!new)>(a: seq<Entry<T>>, b: seq<Entry<T>>, ascending: bool)
    requires Ordered(a, ascending) && Ordered(b, ascending)
    requires forall e :: e in a <==> e in b
    ensures a == b
  {
    if a != [] && b != [] {
      FirstIsSame(a, b, ascending);
      forall e ensures e in a[1..] <==> e in b[1..] {
        TailMembers(a, ascending, e);
        TailMembers(b, ascending, e);
      }
      OrderedUnique(a[1..], b[1..], ascending);
      assert a == [a[0]] + a[1..] && b == [b[0]] + b[1..];
    } else if a != [] {
      SomeMember(a);
    } else if b != [] {
      SomeMember(b);
    }
  }

  // ---------------------------------------------------------------------
  // Filters
  // ---------------------------------------------------------------------

  /** The entries `keep` accepts, in order. */
  function Kept<T>(entries: seq<Entry<T>>, keep: Entry<T> -> bool): seq<Entry<T>> {
    if entries == [] then []
    else Kept(entries[..|entries| - 1], keep) + if keep(entries[|entries| - 1]) then [entries[|entries| - 1]] else []
  }

  lemma {:induction false} KeptMember<T>(entries: seq<Entry<T>>, keep: Entry<T> -> bool, e: Entry<T>)
    ensures e in Kept(entries, keep) <==> e in entries && keep(e)
  {
    if entries != [] {
      assert entries == entries[..|entries| - 1] + [entries[|entries| - 1]];
      KeptMember(entries[..|entries| - 1], keep, e);
    }
  }

  lemma {:induction false} KeptOrdered<T(!new)>(entries: seq<Entry<T>>, keep: Entry<T> -> bool, ascending: bool)
    requires Ordered(entries, ascending)
    ensures Ordered(Kept(entries, keep), ascending)
  {
    if entries != [] {
      var init, last := entries[..|entries| - 1], entries[|entries| - 1];
      KeptOrdered(init, keep, ascending);
      var sofar := Kept(init, keep);
      forall i | 0 <= i < |sofar| ensures Precedes(ascending, sofar[i].sort, last.sort) {
        KeptMember(init, keep, sofar[i]);
        var j :| 0 <= j < |init| && init[j] == sofar[i];
        assert entries[j] == sofar[i];
      }
    }
  }

  lemma {:induction false} KeptConcat<T(!new)>(a: seq<Entry<T>>, b: seq<Entry<T>>, keep: Entry<T> -> bool)
    ensures Kept(a + b, keep) == Kept(a, keep) + Kept(b, keep)
  {
    if b == [] {
      assert a + b == a;
    } else {
      assert (a + b)[..|a + b| - 1] == a + b[..|b| - 1];
      KeptConcat(a, b[..|b| - 1], keep);
    }
  }

  /** Where the last kept entry stands; nothing after it is kept. */
  lemma {:induction false} LastKept<T(!new)>(entries: seq<Entry<T>>, n: nat, keep: Entry<T> -> bool) returns (j: nat)
    requires n <= |entries| && Kept(entries[..n], keep) != []
    ensures j < n && Kept(entries[..j + 1], keep) == Kept(entries[..n], keep)
    ensures entries[j] == Kept(entries[..n], keep)[|Kept(entries[..n], keep)| - 1]
  {
    assert entries[..n][..n - 1] == entries[..n - 1];
    if keep(entries[n - 1]) {
      j := n - 1;
    } else {
      j := LastKept(entries, n - 1, keep);
    }
  }

  function Within<T>(shape: Shape): Entry<T> -> bool {
    (e: Entry<T>) => Selected(e.sort, shape.before, shape.after)
  }

  function Beyond<T>(ascending: bool, start: Option<string>): Entry<T> -> bool {
    (e: Entry<T>) => Past(ascending, start, e.sort)
  }

  function Fetched<T>(shape: Shape, start: Option<string>): Entry<T> -> bool {
    (e: Entry<T>) => Selected(e.sort, shape.before, shape.after) && Past(shape.ascending, start, e.sort)
  }

  /** What is left of a listing past a continuation. */
  ghost function Remaining<T(!new)>(listing: seq<Entry<T>>, ascending: bool, start: Option<string>): seq<Entry<T>> {
    Kept(listing, Beyond(ascending, start))
  }

  /** Resuming after an entry leaves exactly the entries behind it. */
  lemma ResumeAfter<T(!new)>(listing: seq<Entry<T>>, ascending: bool, start: Option<string>, m: nat)
    requires Ordered(listing, ascending)
    requires 0 < m <= |Remaining(listing, ascending, start)|
    ensures var left := Remaining(listing, ascending, start);
            Remaining(listing, ascending, Some(left[m - 1].sort)) == left[m..]
  {
    var left := Remaining(listing, ascending, start);
    var k := left[m - 1].sort;
    assert left[m - 1] in left;
    var rest := Remaining(listing, ascending, Some(k));
    KeptOrdered(listing, Beyond(ascending, start), ascending);
    KeptOrdered(listing, Beyond(ascending, Some(k)), ascending);
    KeptMember(listing, Beyond(ascending, start), left[m - 1]);
    assert Ordered(left[m..], ascending);
    forall e ensures e in left[m..] <==> e in rest {
      BehindIsPast(left, ascending, m, e);
      KeptMember(listing, Beyond(ascending, start), e);
      KeptMember(listing, Beyond(ascending, Some(k)), e);
      if e in rest {
        PastIsLeft(listing, ascending, start, k, e);
      }
    }
    OrderedUnique(left[m..], rest, ascending);
  }

  lemma BehindIsPast<T>(left: seq<Entry<T>>, ascending: bool, m: nat, e: Entry<T>)
    requires Ordered(left, ascending) && 0 < m <= |left|
    ensures e in left[m..] <==> e in left && Precedes(ascending, left[m - 1].sort, e.sort)
  {
    assert left == left[..m] + left[m..];
    forall i | 0 <= i < m ensures !Precedes(ascending, left[m - 1].sort, left[i].sort) {
      PrecedesIrreflexive(ascending, left[m - 1].sort);
      if i < m - 1 && Precedes(ascending, left[m - 1].sort, left[i].sort) {
        PrecedesTransitive(ascending, left[m - 1].sort, left[i].sort, left[m - 1].sort);
      }
    }
  }

  lemma PastIsLeft<T(!new)>(listing: seq<Entry<T>>, ascending: bool, start: Option<string>, k: string, e: Entry<T>)
    requires Past(ascending, start, k) && e in listing && Precedes(ascending, k, e.sort)
    ensures e in Remaining(listing, ascending, start)
  {
    if start.Some? { PrecedesTransitive(ascending, start.value, k, e.sort); }
    KeptMember(listing, Beyond(ascending, start), e);
  }

  // ---------------------------------------------------------------------
  // One query
  // ---------------------------------------------------------------------

  function FirstN<T>(entries: seq<Entry<T>>, n: nat): seq<Entry<T>> {
    if |entries| <= n then entries else entries[..n]
  }

  /** The page a listing answers with, and where it resumes: a full page always says so. */
  ghost function PageOf<T(!new)>(listing: seq<Entry<T>>, ascending: bool, start: Option<string>, limit: nat): Page<T> {
    var entries := FirstN(Remaining(listing, ascending, start), limit);
    Page(entries, if |entries| == limit && limit > 0 then Some(entries[limit - 1].sort) else None)
  }

  /** Puts one more entry in its place. */
  function Inserted<T>(entries: seq<Entry<T>>, e: Entry<T>): seq<Entry<T>> {
    if entries == [] then [e]
    else if Less(e.sort, entries[0].sort) then [e] + entries
    else [entries[0]] + Inserted(entries[1..], e)
  }

  function Sorted<T>(entries: seq<Entry<T>>): seq<Entry<T>> {
    if entries == [] then [] else Inserted(Sorted(entries[..|entries| - 1]), entries[|entries| - 1])
  }

  function Backwards<T>(entries: seq<Entry<T>>): (r: seq<Entry<T>>)
    ensures |r| == |entries| && forall i :: 0 <= i < |r| ==> r[i] == entries[|r| - 1 - i]
  {
    seq(|entries|, i requires 0 <= i < |entries| => entries[|entries| - 1 - i])
  }

  lemma {:induction false} InsertedMembers<T>(entries: seq<Entry<T>>, e: Entry<T>, x: Entry<T>)
    ensures x in Inserted(entries, e) <==> x == e || x in entries
  {
    if entries != [] {
      assert entries == [entries[0]] + entries[1..];
      InsertedMembers(entries[1..], e, x);
    }
  }

  lemma {:induction false} InsertedOrdered<T>(entries: seq<Entry<T>>, e: Entry<T>)
    requires Ordered(entries, true) && forall i :: 0 <= i < |entries| ==> entries[i].sort != e.sort
    ensures Ordered(Inserted(entries, e), true)
  {
    if entries != [] {
      if Less(e.sort, entries[0].sort) {
        forall i | 0 <= i < |entries| ensures Less(e.sort, entries[i].sort) {
          if i > 0 { LessTransitive(e.sort, entries[0].sort, entries[i].sort); }
        }
      } else {
        LessTotal(e.sort, entries[0].sort);
        InsertedOrdered(entries[1..], e);
        var rest := Inserted(entries[1..], e);
        forall i | 0 <= i < |rest| ensures Less(entries[0].sort, rest[i].sort) {
          InsertedMembers(entries[1..], e, rest[i]);
          if rest[i] != e {
            var j :| 0 <= j < |entries[1..]| && entries[1..][j] == rest[i];
            assert Precedes(true, entries[0].sort, entries[j + 1].sort);
          }
        }
      }
    }
  }

  lemma {:induction false} SortedIsOrdered<T(!new)>(entries: seq<Entry<T>>)
    requires Distinct(entries)
    ensures Ordered(Sorted(entries), true)
    ensures forall e :: e in Sorted(entries) <==> e in entries
  {
    if entries != [] {
      var init, last := entries[..|entries| - 1], entries[|entries| - 1];
      assert entries == init + [last];
      SortedIsOrdered(init);
      var sofar := Sorted(init);
      forall i | 0 <= i < |sofar| ensures sofar[i].sort != last.sort {
        var x := sofar[i];
        assert x in Sorted(init);
        assert x in init;
      }
      InsertedOrdered(sofar, last);
      forall e ensures e in Sorted(entries) <==> e in entries {
        InsertedMembers(sofar, last, e);
      }
    }
  }

  lemma BackwardsOrdered<T(!new)>(entries: seq<Entry<T>>)
    requires Ordered(entries, true)
    ensures Ordered(Backwards(entries), false)
    ensures forall e :: e in Backwards(entries) <==> e in entries
  {
    var r := Backwards(entries);
    forall i, j | 0 <= i < j < |r| ensures Precedes(false, r[i].sort, r[j].sort) {
      assert Precedes(true, entries[|r| - 1 - j].sort, entries[|r| - 1 - i].sort);
    }
    forall e | e in entries ensures e in r {
      var i :| 0 <= i < |entries| && entries[i] == e;
      assert r[|r| - 1 - i] == e;
    }
  }

  lemma {:induction false} KeptDistinct<T(!new)>(rows: seq<Entry<T>>, keep: Entry<T> -> bool)
    requires Distinct(rows)
    ensures Distinct(Kept(rows, keep))
  {
    if rows != [] {
      var init, last := rows[..|rows| - 1], rows[|rows| - 1];
      KeptDistinct(init, keep);
      var sofar := Kept(init, keep);
      forall i | 0 <= i < |sofar| ensures sofar[i].sort != last.sort {
        KeptMember(init, keep, sofar[i]);
      }
    }
  }

  /** A partition's listing: selected, sorted, and turned round for newest first. */
  function Listing<T(!new)>(rows: seq<Entry<T>>, shape: Shape): seq<Entry<T>> {
    var sorted := Sorted(Kept(rows, Within(shape)));
    if shape.ascending then sorted else Backwards(sorted)
  }

  lemma ArrangedIsOrdered<T(!new)>(picked: seq<Entry<T>>, ascending: bool)
    requires Distinct(picked)
    ensures var arranged := if ascending then Sorted(picked) else Backwards(Sorted(picked));
            Ordered(arranged, ascending) && forall e :: e in arranged <==> e in picked
  {
    SortedIsOrdered(picked);
    if !ascending { BackwardsOrdered(Sorted(picked)); }
  }

  lemma ListingIsListing<T(!new)>(rows: seq<Entry<T>>, shape: Shape)
    requires Distinct(rows)
    ensures IsListing(Listing(rows, shape), rows, shape)
  {
    var picked := Kept(rows, Within(shape));
    KeptDistinct(rows, Within(shape));
    ArrangedIsOrdered(picked, shape.ascending);
    forall e ensures e in Listing(rows, shape) <==> e in rows && Selected(e.sort, shape.before, shape.after) {
      KeptMember(rows, Within(shape), e);
    }
  }

  lemma FetchedMembers<T(!new)>(rows: seq<Entry<T>>, shape: Shape, start: Option<string>, e: Entry<T>)
    requires Distinct(rows)
    ensures e in Kept(rows, Fetched(shape, start)) <==> e in Remaining(Listing(rows, shape), shape.ascending, start)
  {
    ListingIsListing(rows, shape);
    KeptMember(rows, Fetched(shape, start), e);
    KeptMember(Listing(rows, shape), Beyond(shape.ascending, start), e);
  }

  lemma RemainingIsOrdered<T(!new)>(rows: seq<Entry<T>>, shape: Shape, start: Option<string>)
    requires Distinct(rows)
    ensures Ordered(Remaining(Listing(rows, shape), shape.ascending, start), shape.ascending)
  {
    ListingIsListing(rows, shape);
    KeptOrdered(Listing(rows, shape), Beyond(shape.ascending, start), shape.ascending);
  }

  /** Gathering what lies past the start and sorting it gives what is left of the listing. */
  lemma PickedIsPage<T(!new)>(rows: seq<Entry<T>>, shape: Shape, start: Option<string>, picked: seq<Entry<T>>, arranged: seq<Entry<T>>)
    requires Distinct(rows) && picked == Kept(rows, Fetched(shape, start))
    requires arranged == if shape.ascending then Sorted(picked) else Backwards(Sorted(picked))
    ensures arranged == Remaining(Listing(rows, shape), shape.ascending, start)
  {
    KeptDistinct(rows, Fetched(shape, start));
    ArrangedIsOrdered(picked, shape.ascending);
    RemainingIsOrdered(rows, shape, start);
    var left := Remaining(Listing(rows, shape), shape.ascending, start);
    forall e ensures e in arranged <==> e in left {
      FetchedMembers(rows, shape, start, e);
    }
    OrderedUnique(arranged, left, shape.ascending);
  }

  /** The rows within the bounds that lie past the start, in no particular order. */
  method Pick<T>(rows: seq<Entry<T>>, shape: Shape, start: Option<string>) returns (picked: seq<Entry<T>>)
    ensures picked == Kept(rows, Fetched(shape, start))
  {
    picked := [];
    for i := 0 to |rows|
      invariant picked == Kept(rows[..i], Fetched(shape, start))
    {
      assert rows[..i + 1][..i] == rows[..i];
      var sort := rows[i].sort;
      if shape.after.Some? && !Less(shape.after.value, sort) {
        continue;
      }
      if shape.before.Some? && !Less(sort, shape.before.value) {
        continue;
      }
      if start.Some? && !Precedes(shape.ascending, start.value, sort) {
        continue;
      }
      picked := picked + [rows[i]];
    }
    assert rows[..|rows|] == rows;
  }

  /** One page of the partition, gathered, sorted and cut to the limit. */
  method QueryPage<T(!new)>(rows: seq<Entry<T>>, shape: Shape, start: Option<string>, limit: nat) returns (page: Page<T>)
    requires Distinct(rows)
    ensures page == PageOf(Listing(rows, shape), shape.ascending, start, limit)
  {
    var picked := Pick(rows, shape, start);
    var sorted := Sorted(picked);
    var arranged := if shape.ascending then sorted else Backwards(sorted);
    PickedIsPage(rows, shape, start, picked, arranged);
    var cut := FirstN(arranged, limit);
    var next := if |cut| == limit && cut != [] then Some(cut[|cut| - 1].sort) else None;
    page := Page(cut, next);
  }

  // ---------------------------------------------------------------------
  // Filling one page
  // ---------------------------------------------------------------------

  /** A query resumed inside a listing answers with the next stretch of it. */
  lemma PageAdvances<T(!new)>(listing: seq<Entry<T>>, ascending: bool, left: seq<Entry<T>>, m: nat, start: Option<string>, limit: nat)
    requires Ordered(listing, ascending) && limit > 0 && m <= |left| && Remaining(listing, ascending, start) == left[m..]
    ensures var page := PageOf(listing, ascending, start, limit);
            var n := m + |page.entries|;
            && n <= |left| && page.entries == left[m..n]
            && (page.next.None? ==> n == |left|)
            && (page.next.Some? ==> n > m && Remaining(listing, ascending, page.next) == left[n..])
  {
    var page := PageOf(listing, ascending, start, limit);
    if page.next.Some? {
      ResumeAfter(listing, ascending, start, limit);
      assert left[m..][limit..] == left[m + limit..];
    }
  }

  /** Adds the accepted entries of one page until the limit is passed. */
  method Gather<T(!new)>(entries: seq<Entry<T>>, limit: nat, keep: Entry<T> -> bool, sofar: seq<Entry<T>>)
    returns (collected: seq<Entry<T>>, overflow: bool, ghost taken: nat)
    requires |sofar| <= limit
    ensures taken <= |entries| && collected == sofar + Kept(entries[..taken], keep) && |collected| <= limit
    ensures if overflow then |collected| == limit else taken == |entries|
  {
    collected := sofar;
    for i := 0 to |entries|
      invariant collected == sofar + Kept(entries[..i], keep) && |collected| <= limit
    {
      assert entries[..i + 1][..i] == entries[..i];
      if !keep(entries[i]) {
        continue;
      }
      if |collected| == limit {
        return collected, true, i;
      }
      collected := collected + [entries[i]];
    }
    return collected, false, |entries|;
  }

  /** `collected` is what is kept of the first `m` entries left, and `next` resumes right behind them. */
  ghost predicate Fills<T(!new)>(listing: seq<Entry<T>>, ascending: bool, start: Option<string>, keep: Entry<T> -> bool,
                                 collected: seq<Entry<T>>, next: Option<string>, m: nat)
  {
    var left := Remaining(listing, ascending, start);
    && m <= |left| && collected == Kept(left[..m], keep)
    && (next.None? ==> m == |left|)
    && (next.Some? ==> m > 0 && Remaining(listing, ascending, next) == left[m..])
  }

  lemma KeptFurther<T(!new)>(left: seq<Entry<T>>, m: nat, page: seq<Entry<T>>, taken: nat, keep: Entry<T> -> bool)
    requires m + |page| <= |left| && page == left[m..m + |page|] && taken <= |page|
    ensures Kept(left[..m], keep) + Kept(page[..taken], keep) == Kept(left[..m + taken], keep)
  {
    KeptConcat(left[..m], page[..taken], keep);
    assert left[..m] + page[..taken] == left[..m + taken];
  }

  /** A page cut short resumes right after the last entry it returns. */
  lemma CutFills<T(!new)>(listing: seq<Entry<T>>, ascending: bool, start: Option<string>, keep: Entry<T> -> bool,
                          collected: seq<Entry<T>>, n: nat) returns (m: nat)
    requires Ordered(listing, ascending) && n <= |Remaining(listing, ascending, start)|
    requires collected == Kept(Remaining(listing, ascending, start)[..n], keep) && collected != []
    ensures Fills(listing, ascending, start, keep, collected, Some(collected[|collected| - 1].sort), m)
  {
    var left := Remaining(listing, ascending, start);
    var j := LastKept(left, n, keep);
    m := j + 1;
    ResumeAfter(listing, ascending, start, m);
  }

  /** Part of the way: what is kept of the first `m` entries left, and where to go on. */
  ghost predicate PartWay<T(!new)>(listing: seq<Entry<T>>, ascending: bool, left: seq<Entry<T>>, keep: Entry<T> -> bool,
                                   collected: seq<Entry<T>>, next: Option<string>, m: nat)
  {
    m <= |left| && collected == Kept(left[..m], keep) && Remaining(listing, ascending, next) == left[m..]
  }

  lemma RoundFills<T(!new)>(listing: seq<Entry<T>>, ascending: bool, start0: Option<string>, keep: Entry<T> -> bool, sofar: seq<Entry<T>>,
                            start: Option<string>, m: nat, size: nat, page: Page<T>, taken: nat, collected: seq<Entry<T>>)
    requires Ordered(listing, ascending) && size >= 1 && page == PageOf(listing, ascending, start, size)
    requires PartWay(listing, ascending, Remaining(listing, ascending, start0), keep, sofar, start, m)
    requires taken <= |page.entries| && collected == sofar + Kept(page.entries[..taken], keep)
    ensures m + taken <= |Remaining(listing, ascending, start0)|
    ensures collected == Kept(Remaining(listing, ascending, start0)[..m + taken], keep)
    ensures taken == |page.entries| ==> Fills(listing, ascending, start0, keep, collected, page.next, m + taken)
  {
    var left := Remaining(listing, ascending, start0);
    PageAdvances(listing, ascending, left, m, start, size);
    KeptFurther(left, m, page.entries, taken, keep);
  }

  /** Whether the page overflowed or was used up, the round resumes right behind what it collected. */
  lemma RoundResumes<T(!new)>(listing: seq<Entry<T>>, ascending: bool, start0: Option<string>, keep: Entry<T> -> bool, sofar: seq<Entry<T>>,
                              start: Option<string>, m: nat, size: nat, page: Page<T>, taken: nat, collected: seq<Entry<T>>,
                              overflow: bool, next: Option<string>) returns (m': nat)
    requires Ordered(listing, ascending) && size >= 1 && page == PageOf(listing, ascending, start, size)
    requires PartWay(listing, ascending, Remaining(listing, ascending, start0), keep, sofar, start, m)
    requires taken <= |page.entries| && collected == sofar + Kept(page.entries[..taken], keep)
    requires if overflow then collected != [] && next == Some(collected[|collected| - 1].sort)
             else taken == |page.entries| && next == page.next
    ensures Fills(listing, ascending, start0, keep, collected, next, m')
    ensures !overflow && next.Some? ==> m' == m + size
  {
    RoundFills(listing, ascending, start0, keep, sofar, start, m, size, page, taken, collected);
    if overflow {
      m' := CutFills(listing, ascending, start0, keep, collected, m + taken);
    } else {
      m' := m + taken;
    }
  }

  predicate NoneFails(fails: seq<bool>) {
    forall i :: 0 <= i < |fails| ==> !fails[i]
  }

  lemma NoMoreFails(fails: seq<bool>, n: nat)
    requires n < |fails| && NoneFails(fails[..n]) && !fails[n]
    ensures NoneFails(fails[..n + 1])
  {
    assert fails[..n + 1] == fails[..n] + [fails[n]];
  }

  /** How many entries that many queries reach. */
  function Covered(limit: nat, queries: nat): nat {
    if queries == 0 then 0 else limit + (queries - 1) * MAX_LIMIT
  }

  /** The first `m` entries left are there, and too few of them are accepted to fill a page. */
  ghost predicate TooFew<T(!new)>(left: seq<Entry<T>>, limit: nat, keep: Entry<T> -> bool, m: nat) {
    m <= |left| && forall part {:trigger Kept(part, keep)} :: part == left[..m] ==> |Kept(part, keep)| < limit
  }

  /** After that many queries the page is not done; the way it has come is looked at through this alone. */
  ghost predicate Underway<T(!new)>(listing: seq<Entry<T>>, ascending: bool, start: Option<string>, limit: nat, keep: Entry<T> -> bool,
                                    collected: seq<Entry<T>>, next: Option<string>, queries: nat)
  {
    forall left, m {:trigger PartWay(listing, ascending, left, keep, collected, next, m)} ::
      left == Remaining(listing, ascending, start) && m == Covered(limit, queries) ==>
        PartWay(listing, ascending, left, keep, collected, next, m) && (queries > 0 ==> next.Some? && |collected| < limit)
  }

  lemma StartsUnderway<T(!new)>(listing: seq<Entry<T>>, ascending: bool, start: Option<string>, limit: nat, keep: Entry<T> -> bool)
    ensures Underway(listing, ascending, start, limit, keep, [], start, 0)
  {
    var left := Remaining(listing, ascending, start);
    assert left[..0] == [] && left[0..] == left;
  }

  lemma GoesOn<T(!new)>(listing: seq<Entry<T>>, ascending: bool, start: Option<string>, limit: nat, keep: Entry<T> -> bool,
                        collected: seq<Entry<T>>, next: Option<string>, queries: nat, m: nat)
    requires Fills(listing, ascending, start, keep, collected, next, m) && next.Some? && |collected| < limit
    requires m == Covered(limit, queries)
    ensures Underway(listing, ascending, start, limit, keep, collected, next, queries)
    ensures TooFew(Remaining(listing, ascending, start), limit, keep, Covered(limit, queries))
  {
  }

  /** What the queries made so far leave behind. */
  lemma UnderwayFills<T(!new)>(listing: seq<Entry<T>>, ascending: bool, start: Option<string>, limit: nat, keep: Entry<T> -> bool,
                               collected: seq<Entry<T>>, next: Option<string>, queries: nat)
    requires Underway(listing, ascending, start, limit, keep, collected, next, queries) && queries > 0 && limit >= 1
    ensures Fills(listing, ascending, start, keep, collected, next, Covered(limit, queries)) && |collected| < limit && next.Some?
  {
    assert PartWay(listing, ascending, Remaining(listing, ascending, start), keep, collected, next, Covered(limit, queries));
  }

  /** One more query: the page is done, or the way goes on. */
  method FillRound<T(!new)>(rows: seq<Entry<T>>, shape: Shape, ghost start0: Option<string>, limit: nat, keep: Entry<T> -> bool,
                            size: nat, sofar: seq<Entry<T>>, start: Option<string>, ghost queries: nat, ghost listing: seq<Entry<T>>)
    returns (collected: seq<Entry<T>>, next: Option<string>, ghost m: nat, done: bool)
    requires Distinct(rows) && listing == Listing(rows, shape) && Ordered(listing, shape.ascending)
    requires limit >= 1 && size == (if queries == 0 then limit else MAX_LIMIT) && |sofar| <= limit
    requires Underway(listing, shape.ascending, start0, limit, keep, sofar, start, queries)
    ensures |collected| <= limit
    ensures done ==> Fills(listing, shape.ascending, start0, keep, collected, next, m) && (next.None? || |collected| == limit)
    ensures !done ==> Underway(listing, shape.ascending, start0, limit, keep, collected, next, queries + 1)
    ensures !done ==> TooFew(Remaining(listing, shape.ascending, start0), limit, keep, Covered(limit, queries + 1))
  {
    ghost var m0 := Covered(limit, queries);
    assert PartWay(listing, shape.ascending, Remaining(listing, shape.ascending, start0), keep, sofar, start, m0);
    var page := QueryPage(rows, shape, start, size);
    var overflow;
    ghost var taken;
    collected, overflow, taken := Gather(page.entries, limit, keep, sofar);
    next := if overflow then Some(collected[|collected| - 1].sort) else page.next;
    m := RoundResumes(listing, shape.ascending, start0, keep, sofar, start, m0, size, page, taken, collected, overflow, next);
    done := next.None? || |collected| >= limit;
    if !done { GoesOn(listing, shape.ascending, start0, limit, keep, collected, next, queries + 1, m); }
  }

  /**
    One list request: up to `limit` accepted entries, from at most five queries;
    `fails` says which of them fail, and the first that does ends the request. A
    query follows only where those before it found too few. A page that stops
    short and goes on has spent them all: it is what is kept of the next `limit`
    entries and four times a hundred more.
   */
  method Fill<T(!new)>(rows: seq<Entry<T>>, shape: Shape, start: Option<string>, limit: nat, keep: Entry<T> -> bool, fails: seq<bool>)
    returns (collected: seq<Entry<T>>, next: Option<string>, failed: bool, ghost m: nat, ghost queries: nat)
    requires Distinct(rows) && limit >= 1 && |fails| == MAX_FILL_PAGES
    ensures 0 < queries <= MAX_FILL_PAGES && failed == fails[queries - 1] && NoneFails(fails[..queries - 1])
    ensures queries > 1 ==>
              TooFew(Remaining(Listing(rows, shape), shape.ascending, start), limit, keep, Covered(limit, queries - 1))
    ensures !failed ==> |collected| <= limit
    ensures !failed ==> Fills(Listing(rows, shape), shape.ascending, start, keep, collected, next, m)
    ensures !failed && |collected| < limit && next.Some? ==> queries == MAX_FILL_PAGES && m == Covered(limit, MAX_FILL_PAGES)
  {
    ghost var listing := Listing(rows, shape);
    ListingIsListing(rows, shape);
    StartsUnderway(listing, shape.ascending, start, limit, keep);
    collected, next, failed, m, queries := [], start, false, 0, 0;
    for round := 0 to MAX_FILL_PAGES
      invariant queries == round && !failed && |collected| <= limit && NoneFails(fails[..round])
      invariant Underway(listing, shape.ascending, start, limit, keep, collected, next, round)
      invariant round > 0 ==> TooFew(Remaining(listing, shape.ascending, start), limit, keep, Covered(limit, round))
      invariant round > 1 ==> TooFew(Remaining(listing, shape.ascending, start), limit, keep, Covered(limit, round - 1))
    {
      queries := queries + 1;
      if fails[round] {
        failed := true;
        return;
      }
      NoMoreFails(fails, round);
      var size := if round == 0 then limit else MAX_LIMIT;
      var done;
      collected, next, m, done := FillRound(rows, shape, start, limit, keep, size, collected, next, round, listing);
      if done {
        return;
      }
    }
    UnderwayFills(listing, shape.ascending, start, limit, keep, collected, next, MAX_FILL_PAGES);
    m := Covered(limit, MAX_FILL_PAGES);
  }

  // ---------------------------------------------------------------------
  // The whole walk
  // ---------------------------------------------------------------------

  function AllPages<T>(pages: seq<seq<Entry<T>>>): seq<Entry<T>> {
    if pages == [] then [] else AllPages(pages[..|pages| - 1]) + pages[|pages| - 1]
  }

  lemma {:induction false} NothingBehind<T(!new)>(listing: seq<Entry<T>>, ascending: bool)
    ensures Remaining(listing, ascending, None) == listing
  {
    if listing != [] {
      NothingBehind(listing[..|listing| - 1], ascending);
      assert listing == listing[..|listing| - 1] + [listing[|listing| - 1]];
    }
  }

  /** The pages so far hold what is kept of the listing's first `done` entries. */
  ghost predicate WalkedTo<T(!new)>(listing: seq<Entry<T>>, ascending: bool, keep: Entry<T> -> bool, pages: seq<seq<Entry<T>>>,
                                    start: Option<string>, done: nat)
  {
    done <= |listing| && AllPages(pages) == Kept(listing[..done], keep) && Remaining(listing, ascending, start) == listing[done..]
  }

  lemma WalkStarts<T(!new)>(listing: seq<Entry<T>>, ascending: bool, keep: Entry<T> -> bool)
    ensures WalkedTo(listing, ascending, keep, [], None, 0)
  {
    NothingBehind(listing, ascending);
    assert listing[..0] == [] && listing[0..] == listing;
  }

  lemma SlicesMeet<T>(listing: seq<Entry<T>>, done: nat, m: nat)
    requires done + m <= |listing|
    ensures listing[..done] + listing[done..][..m] == listing[..done + m]
    ensures listing[done..][m..] == listing[done + m..]
    ensures done + m == |listing| ==> listing[..done + m] == listing
  {
  }

  lemma JoinedOne<T>(pages: seq<seq<Entry<T>>>, page: seq<Entry<T>>)
    ensures AllPages(pages + [page]) == AllPages(pages) + page
  {
    assert (pages + [page])[..|pages|] == pages;
  }

  lemma KeptThrough<T(!new)>(listing: seq<Entry<T>>, keep: Entry<T> -> bool, done: nat, m: nat)
    requires done + m <= |listing|
    ensures Kept(listing[..done], keep) + Kept(listing[done..][..m], keep) == Kept(listing[..done + m], keep)
  {
    KeptConcat(listing[..done], listing[done..][..m], keep);
    SlicesMeet(listing, done, m);
  }

  lemma WalkOn<T(!new)>(listing: seq<Entry<T>>, ascending: bool, keep: Entry<T> -> bool, pages: seq<seq<Entry<T>>>,
                        start: Option<string>, done: nat, page: seq<Entry<T>>, next: Option<string>, m: nat)
    requires WalkedTo(listing, ascending, keep, pages, start, done) && Fills(listing, ascending, start, keep, page, next, m)
    ensures next.None? ==> AllPages(pages + [page]) == Kept(listing, keep)
    ensures next.Some? ==> m > 0 && WalkedTo(listing, ascending, keep, pages + [page], next, done + m)
  {
    JoinedOne(pages, page);
    KeptThrough(listing, keep, done, m);
    SlicesMeet(listing, done, m);
  }

  /** No page over the limit. */
  ghost predicate WithinLimit<T>(pages: seq<seq<Entry<T>>>, limit: nat) {
    forall i :: 0 <= i < |pages| ==> |pages[i]| <= limit
  }

  lemma OneMorePage<T>(pages: seq<seq<Entry<T>>>, page: seq<Entry<T>>, limit: nat)
    requires WithinLimit(pages, limit) && |page| <= limit
    ensures WithinLimit(pages + [page], limit)
  {
  }

  /** A list request none of whose queries fails. */
  method FillUnfailing<T(!new)>(rows: seq<Entry<T>>, shape: Shape, start: Option<string>, limit: nat, keep: Entry<T> -> bool)
    returns (collected: seq<Entry<T>>, next: Option<string>, ghost m: nat)
    requires Distinct(rows) && limit >= 1
    ensures |collected| <= limit
    ensures Fills(Listing(rows, shape), shape.ascending, start, keep, collected, next, m)
  {
    var failed;
    ghost var queries;
    var fails := seq(MAX_FILL_PAGES, i => false);
    collected, next, failed, m, queries := Fill(rows, shape, start, limit, keep, fails);
    assert !fails[queries - 1];
  }

  /** One step of the walk: fetch a page and see whether there is more. */
  method WalkStep<T(!new)>(rows: seq<Entry<T>>, shape: Shape, limit: nat, keep: Entry<T> -> bool, before: seq<seq<Entry<T>>>,
                           start: Option<string>, ghost done0: nat, ghost listing: seq<Entry<T>>)
    returns (pages: seq<seq<Entry<T>>>, next: Option<string>, ghost done: nat)
    requires Distinct(rows) && limit >= 1 && listing == Listing(rows, shape) && WithinLimit(before, limit)
    requires WalkedTo(listing, shape.ascending, keep, before, start, done0)
    ensures WithinLimit(pages, limit)
    ensures next.None? ==> AllPages(pages) == Kept(listing, keep)
    ensures next.Some? ==> done > done0 && WalkedTo(listing, shape.ascending, keep, pages, next, done)
  {
    var page;
    ghost var m;
    page, next, m := FillUnfailing(rows, shape, start, limit, keep);
    WalkOn(listing, shape.ascending, keep, before, start, done0, page, next, m);
    OneMorePage(before, page, limit);
    pages, done := before + [page], done0 + m;
  }

  /**
    Following continuations from the start until there is none ends, and
    returns every accepted entry of the partition exactly once and in order,
    no page over the limit.
   */
  method Walk<T(!new)>(rows: seq<Entry<T>>, shape: Shape, limit: nat, keep: Entry<T> -> bool) returns (pages: seq<seq<Entry<T>>>)
    requires Distinct(rows) && limit >= 1
    ensures AllPages(pages) == Kept(Listing(rows, shape), keep)
    ensures WithinLimit(pages, limit)
  {
    ghost var listing := Listing(rows, shape);
    ghost var done: nat := 0;
    WalkStarts(listing, shape.ascending, keep);
    pages := [];
    var start: Option<string> := None;
    while true
      invariant WalkedTo(listing, shape.ascending, keep, pages, start, done) && WithinLimit(pages, limit)
      decreases |listing| - done
    {
      pages, start, done := WalkStep(rows, shape, limit, keep, pages, start, done, listing);
      if start.None? {
        return;
      }
    }
  }
}
