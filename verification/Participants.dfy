/**
  The senders and recipients a thread lists: one entry per mailbox, sorted by
  how it was written, up to a cap past which the list stays as it is.

  A participant comes with what the address parser makes of it; the parser
  itself is not part of this model.
 */
module Participants {
  import opened Records
  import opened Text

  /** How many participants a thread lists, and how many its snapshot shows. */
  const ADDRESS_SET_CAP: nat := 50
  const SNAPSHOT_ADDRESS_CAP: nat := 20

  function Lower(c: char): char {
    if 'A' <= c <= 'Z' then c - 'A' + 'a' else c
  }

  predicate SameIgnoringCase(a: string, b: string) {
    |a| == |b| && forall i :: 0 <= i < |a| ==> Lower(a[i]) == Lower(b[i])
  }

  /** The same mailbox, however it was written; what does not parse matches only its own spelling. */
  predicate SameMailbox(a: Participant, b: Participant) {
    if a.mailbox.Some? && b.mailbox.Some? then a.mailbox == b.mailbox else SameIgnoringCase(a.text, b.text)
  }

  predicate Knows(listed: seq<Participant>, p: Participant) {
    exists i :: 0 <= i < |listed| && SameMailbox(listed[i], p)
  }

  predicate Spells(listed: seq<Participant>, p: Participant) {
    exists i :: 0 <= i < |listed| && listed[i].text == p.text
  }

  /** `p` put in its place. */
  function Placed(listed: seq<Participant>, p: Participant): (r: seq<Participant>)
    ensures |r| == |listed| + 1 && forall q :: q in r <==> q in listed || q == p
  {
    if listed == [] then [p]
    else if Less(p.text, listed[0].text) then [p] + listed
    else
      var r := Placed(listed[1..], p);
      assert listed == [listed[0]] + listed[1..];
      [listed[0]] + r
  }

  function AddParticipant(listed: seq<Participant>, p: Participant): seq<Participant> {
    if Knows(listed, p) || |listed| >= ADDRESS_SET_CAP || Spells(listed, p) then listed else Placed(listed, p)
  }

  function AddParticipants(listed: seq<Participant>, more: seq<Participant>): seq<Participant> {
    if more == [] then listed
    else AddParticipant(AddParticipants(listed, more[..|more| - 1]), more[|more| - 1])
  }

  lemma {:induction false} AddInTwo(listed: seq<Participant>, a: seq<Participant>, b: seq<Participant>)
    ensures AddParticipants(AddParticipants(listed, a), b) == AddParticipants(listed, a + b)
  {
    if b == [] {
      assert a + b == a;
    } else {
      assert (a + b)[..|a + b| - 1] == a + b[..|b| - 1];
      AddInTwo(listed, a, b[..|b| - 1]);
    }
  }

  // ---------------------------------------------------------------------
  // What such a list is
  // ---------------------------------------------------------------------

  ghost predicate Ascends(listed: seq<Participant>) {
    forall i, j :: 0 <= i < j < |listed| ==> Less(listed[i].text, listed[j].text)
  }

  ghost predicate OnePerMailbox(listed: seq<Participant>) {
    forall p, q :: p in listed && q in listed && p != q ==> !SameMailbox(p, q)
  }

  ghost predicate IsList(listed: seq<Participant>) {
    |listed| <= ADDRESS_SET_CAP && Ascends(listed) && OnePerMailbox(listed)
  }

  /** `p`'s mailbox or spelling is listed, or there was no room for it. */
  ghost predicate Covers(listed: seq<Participant>, p: Participant) {
    Knows(listed, p) || Spells(listed, p) || |listed| == ADDRESS_SET_CAP
  }

  lemma {:induction false} PlacedAscends(listed: seq<Participant>, p: Participant)
    requires Ascends(listed) && !Spells(listed, p)
    ensures Ascends(Placed(listed, p))
  {
    if listed != [] {
      var first := listed[0];
      LessTotal(p.text, first.text);
      if Less(p.text, first.text) {
        forall j | 0 < j < |listed| ensures Less(p.text, listed[j].text) {
          LessTransitive(p.text, first.text, listed[j].text);
        }
      } else {
        PlacedAscends(listed[1..], p);
        var r := Placed(listed[1..], p);
        forall j | 0 <= j < |r| ensures Less(first.text, r[j].text) {
          assert r[j] in listed[1..] || r[j] == p;
        }
      }
    }
  }

  lemma SameMailboxIsSymmetric(a: Participant, b: Participant)
    ensures SameMailbox(a, b) <==> SameMailbox(b, a)
  {
  }

  lemma KnownIsIn(listed: seq<Participant>, p: Participant, q: Participant)
    requires q in listed && SameMailbox(q, p)
    ensures Knows(listed, p)
  {
    var i :| 0 <= i < |listed| && listed[i] == q;
  }

  lemma PlacedOnePerMailbox(listed: seq<Participant>, p: Participant)
    requires OnePerMailbox(listed) && !Knows(listed, p)
    ensures OnePerMailbox(Placed(listed, p))
  {
    forall q, s | q in Placed(listed, p) && s in Placed(listed, p) && q != s ensures !SameMailbox(q, s) {
      SameMailboxIsSymmetric(q, s);
      if q == p && SameMailbox(s, p) { KnownIsIn(listed, p, s); }
      if s == p && SameMailbox(q, p) { KnownIsIn(listed, p, q); }
    }
  }

  lemma AddStaysList(listed: seq<Participant>, p: Participant)
    requires IsList(listed)
    ensures IsList(AddParticipant(listed, p))
  {
    if AddParticipant(listed, p) != listed {
      PlacedAscends(listed, p);
      PlacedOnePerMailbox(listed, p);
    }
  }

  lemma CoversMore(a: seq<Participant>, b: seq<Participant>, p: Participant)
    requires (forall q :: q in a ==> q in b) && |a| <= |b| <= ADDRESS_SET_CAP && Covers(a, p)
    ensures Covers(b, p)
  {
    if Knows(a, p) {
      var i :| 0 <= i < |a| && SameMailbox(a[i], p);
      KnownIsIn(b, p, a[i]);
    } else if Spells(a, p) {
      var i :| 0 <= i < |a| && a[i].text == p.text;
      assert a[i] in b;
      var j :| 0 <= j < |b| && b[j] == a[i];
    }
  }

  /** Adding keeps what is listed, and lists what there is room for. */
  lemma AddCovers(listed: seq<Participant>, p: Participant)
    requires IsList(listed)
    ensures var r := AddParticipant(listed, p);
            && Covers(r, p) && |listed| <= |r|
            && (forall q :: q in listed ==> q in r) && (forall q :: q in r ==> q in listed || q == p)
  {
    var r := AddParticipant(listed, p);
    if r != listed {
      assert p in r;
      var j :| 0 <= j < |r| && r[j] == p;
    }
  }

  /**
    A list built up from any number of participants holds only those, and the
    ones it started with; it covers them all, and never drops one.
   */
  lemma {:induction false} AddsUp(listed: seq<Participant>, more: seq<Participant>)
    requires IsList(listed)
    ensures var r := AddParticipants(listed, more);
            && IsList(r) && |listed| <= |r|
            && (forall p :: p in listed ==> p in r) && (forall p :: p in r ==> p in listed || p in more)
            && forall p :: p in more ==> Covers(r, p)
  {
    if more != [] {
      var init, last := more[..|more| - 1], more[|more| - 1];
      assert more == init + [last];
      var before := AddParticipants(listed, init);
      AddsUp(listed, init);
      AddStaysList(before, last);
      AddCovers(before, last);
      forall p | p in more ensures Covers(AddParticipants(listed, more), p) {
        if p != last { CoversMore(before, AddParticipants(listed, more), p); }
      }
    }
  }

  /** Adds one participant after another. */
  method AddAll(listed: seq<Participant>, more: seq<Participant>) returns (r: seq<Participant>)
    ensures r == AddParticipants(listed, more)
  {
    r := listed;
    for i := 0 to |more|
      invariant r == AddParticipants(listed, more[..i])
    {
      assert more[..i + 1][..i] == more[..i];
      r := AddParticipant(r, more[i]);
    }
    assert more[..|more|] == more;
  }
}
