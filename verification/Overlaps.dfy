/**
  The key cache when requests overlap. Each takes its turns one by one, a look at
  the cache, an answer taken in, a claim of the miss slot, and others take theirs
  in between, so an answer may land in a cache that has moved on since.
 */
module Overlaps {
  import opened KeyCaches
  import opened Records

  /** One turn: a request looks and fetches if it has to, one that missed claims a fetch, or the answer to a fetch lands. */
  datatype Turn =
    | Look(at: int)
    | Miss(at: int)
    | Land(begun: nat, fetched: Option<seq<KeyHash>>, at: int)

  /** One turn taken; `warm` says of an answer whether its request had found keys. */
  function Taken(c: Cache, turn: Turn, warm: bool): Cache {
    match turn
    case Look(_) => c
    case Miss(at) => if MayRefreshOnMiss(c.lastMiss, at) then c.(lastMiss := Some(at)) else c
    case Land(_, fetched, at) => Landed(c, fetched, warm, at)
  }

  /** The cache after these turns. */
  function CacheAt(turns: seq<Turn>): Cache {
    if turns == [] then NEW_CACHE
    else
      var init, last := turns[..|turns| - 1], turns[|turns| - 1];
      Taken(CacheAt(init), last, last.Land? && last.begun < |init| && CacheAt(init[..last.begun]).hashes.Some?)
  }

  /** The cache as turn `i` finds it. */
  function CacheBefore(turns: seq<Turn>, i: nat): Cache
    requires i <= |turns|
  {
    CacheAt(turns[..i])
  }

  predicate IsWarmAt(turns: seq<Turn>, i: nat)
    requires i <= |turns|
  {
    CacheBefore(turns, i).hashes.Some?
  }

  /** Turn `i` begins a fetch. */
  predicate Begins(turns: seq<Turn>, i: nat)
    requires i < |turns|
  {
    var c := CacheBefore(turns, i);
    match turns[i]
    case Look(at) => c.hashes.None? || IsStale(c.loadedAt, at)
    case Miss(at) => MayRefreshOnMiss(c.lastMiss, at)
    case Land(_, _, _) => false
  }

  predicate LandsAt(turns: seq<Turn>, i: nat, k: nat)
    requires k < |turns|
  {
    turns[k].Land? && turns[k].begun == i
  }

  /** Turns in time order; a miss is seen by a request that found keys, and an answer is to one fetch begun before. */
  ghost predicate Possible(turns: seq<Turn>) {
    && (forall i, j :: 0 <= i < j < |turns| ==> turns[i].at <= turns[j].at)
    && (forall i :: 0 <= i < |turns| && turns[i].Miss? ==> IsWarmAt(turns, i))
    && (forall k :: 0 <= k < |turns| && turns[k].Land? ==>
          turns[k].begun < k && Begins(turns, turns[k].begun) && forall h :: 0 <= h < k ==> !LandsAt(turns, turns[k].begun, h))
  }

  lemma TurnTaken(turns: seq<Turn>, i: nat)
    requires i < |turns|
    ensures var t := turns[i];
            CacheBefore(turns, i + 1) == Taken(CacheBefore(turns, i), t, t.Land? && t.begun < i && IsWarmAt(turns, t.begun))
  {
    var now := turns[..i + 1];
    assert now[..i] == turns[..i];
    if turns[i].Land? && turns[i].begun < i {
      assert turns[..i][..turns[i].begun] == turns[..turns[i].begun];
    }
  }

  /** The cache remembers nothing later than `now`. */
  ghost predicate IsPast(c: Cache, now: int) {
    && (c.loadedAt.Some? ==> c.loadedAt.value <= now)
    && (c.lastMiss.Some? ==> c.lastMiss.value <= now)
  }

  /** What the later cache knows is no older: keys and gates are there if they were, and the gates no earlier. */
  ghost predicate MovesOn(c: Cache, d: Cache) {
    && (c.hashes.Some? ==> d.hashes.Some?)
    && (c.loadedAt.Some? ==> d.loadedAt.Some? && d.loadedAt.value >= c.loadedAt.value)
    && (c.lastMiss.Some? ==> d.lastMiss.Some? && d.lastMiss.value >= c.lastMiss.value)
  }

  lemma TakenMovesOn(c: Cache, turn: Turn, warm: bool)
    requires IsPast(c, turn.at)
    ensures IsPast(Taken(c, turn, warm), turn.at) && MovesOn(c, Taken(c, turn, warm))
  {
  }

  lemma {:induction false} RemembersThePast(turns: seq<Turn>, n: nat)
    requires Possible(turns) && n < |turns|
    ensures IsPast(CacheBefore(turns, n), turns[n].at) && IsPast(CacheBefore(turns, n + 1), turns[n].at)
    ensures MovesOn(CacheBefore(turns, n), CacheBefore(turns, n + 1))
  {
    var t := turns[n];
    if n > 0 {
      RemembersThePast(turns, n - 1);
      assert turns[n - 1].at <= t.at;
    }
    TurnTaken(turns, n);
    TakenMovesOn(CacheBefore(turns, n), t, t.Land? && t.begun < n && IsWarmAt(turns, t.begun));
  }

  /** Neither the keys nor the gates are ever lost or moved back, however requests overlap. */
  lemma {:induction false} GatesNeverMoveBack(turns: seq<Turn>, i: nat, j: nat)
    requires Possible(turns) && i <= j <= |turns|
    ensures MovesOn(CacheBefore(turns, i), CacheBefore(turns, j))
  {
    if i < j {
      GatesNeverMoveBack(turns, i, j - 1);
      RemembersThePast(turns, j - 1);
    }
  }

  /** No look finds the cache stale within 30 seconds of the landing of a fetch whose request had found keys. */
  lemma LandingHoldsTheGate(turns: seq<Turn>, i: nat, k: nat, j: nat)
    requires Possible(turns) && k < j < |turns| && LandsAt(turns, i, k) && IsWarmAt(turns, i)
    requires turns[j].Look? && Begins(turns, j)
    ensures turns[j].at >= turns[k].at + FAILURE_BACKOFF
  {
    TurnTaken(turns, k);
    RemembersThePast(turns, k);
    GatesNeverMoveBack(turns, i, j);
    GatesNeverMoveBack(turns, k + 1, j);
  }

  /**
    Two scheduled fetches by a loaded cache that begin less than 30 seconds apart
    overlap: the first had not landed when the second began.
   */
  lemma CloseFetchesOverlap(turns: seq<Turn>, i: nat, j: nat, k: nat)
    requires Possible(turns) && i < j < |turns| && turns[i].Look? && turns[j].Look?
    requires Begins(turns, i) && Begins(turns, j) && IsWarmAt(turns, i)
    requires turns[j].at < turns[i].at + FAILURE_BACKOFF && k < j
    ensures !LandsAt(turns, i, k)
  {
    if LandsAt(turns, i, k) {
      LandingHoldsTheGate(turns, i, k, j);
    }
  }

  /** Fetches after a miss are 30 seconds apart, however many requests miss at once. */
  lemma MissesCollapse(turns: seq<Turn>, i: nat, j: nat)
    requires Possible(turns) && i < j < |turns| && turns[i].Miss? && turns[j].Miss? && Begins(turns, i) && Begins(turns, j)
    ensures turns[j].at >= turns[i].at + MISS_REFRESH_FLOOR
  {
    TurnTaken(turns, i);
    GatesNeverMoveBack(turns, i + 1, j);
  }

  // ---------------------------------------------------------------------
  // Requests that come at once
  // ---------------------------------------------------------------------

  /** A cache loaded at 0, and `n` looks at it when it has just gone stale. */
  function Rush(keys: seq<KeyHash>, n: nat): (turns: seq<Turn>)
    ensures |turns| == n + 2
  {
    if n == 0 then [Look(0), Land(0, Some(keys), 0)] else Rush(keys, n - 1) + [Look(REFRESH_INTERVAL)]
  }

  lemma {:induction false} RushStarts(keys: seq<KeyHash>, n: nat, m: nat)
    requires m <= n
    ensures Rush(keys, n)[..m + 2] == Rush(keys, m) && (m < n ==> Rush(keys, n)[m + 2] == Look(REFRESH_INTERVAL))
  {
    if m < n { RushStarts(keys, n - 1, m); }
  }

  lemma {:induction false} RushLeaves(keys: seq<KeyHash>, n: nat)
    ensures CacheAt(Rush(keys, n)) == Cache(Some(keys), Some(0), None)
  {
    var rush := Rush(keys, n);
    if n == 0 {
      assert rush[..1] == [Look(0)] && [Look(0)][..0] == [];
    } else {
      RushLeaves(keys, n - 1);
      assert rush[..|rush| - 1] == Rush(keys, n - 1);
    }
  }

  lemma RushLooks(keys: seq<KeyHash>, n: nat, i: nat)
    requires 2 <= i < n + 2
    ensures Rush(keys, n)[i] == Look(REFRESH_INTERVAL) && Begins(Rush(keys, n), i) && IsWarmAt(Rush(keys, n), i)
  {
    RushStarts(keys, n, i - 2);
    RushLeaves(keys, i - 2);
  }

  lemma RushIsPossible(keys: seq<KeyHash>, n: nat)
    ensures Possible(Rush(keys, n))
  {
    var rush := Rush(keys, n);
    RushStarts(keys, n, 0);
    assert rush[0] == rush[..2][0] && rush[1] == rush[..2][1] && rush[..0] == [];
    assert Begins(rush, 0);
    forall i | 2 <= i < n + 2 ensures rush[i] == Look(REFRESH_INTERVAL) {
      RushLooks(keys, n, i);
    }
  }

  /** Overlapping requests are not held back: `n` of them that come at once to a stale cache make `n` fetches. */
  lemma RushesFetch(keys: seq<KeyHash>, n: nat)
    ensures Possible(Rush(keys, n))
    ensures forall i :: 2 <= i < n + 2 ==> Begins(Rush(keys, n), i) && IsWarmAt(Rush(keys, n), i) && Rush(keys, n)[i].at == REFRESH_INTERVAL
  {
    RushIsPossible(keys, n);
    forall i | 2 <= i < n + 2 ensures Begins(Rush(keys, n), i) && IsWarmAt(Rush(keys, n), i) && Rush(keys, n)[i].at == REFRESH_INTERVAL {
      RushLooks(keys, n, i);
    }
  }
}
