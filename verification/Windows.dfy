/**
  Time windows over sort keys: the exclusive string bounds a list request
  sends select exactly the items whose instant lies in `[after, before)`.
 */
module Windows {
  import opened Records
  import opened Text
  import opened Timestamps

  // ---------------------------------------------------------------------
  // The hexadecimal time prefix of a UUIDv7
  // ---------------------------------------------------------------------

  function HexDigit(n: nat): char
    requires n < 16
  {
    if n < 10 then ('0' as int + n) as char else ('a' as int + n - 10) as char
  }

  /** `n` in lower-case hexadecimal, with zeros in front up to `width` digits. */
  function HexPad(n: nat, width: nat): string
    decreases n + width
  {
    if n == 0 && width == 0 then ""
    else HexPad(n / 16, if width > 0 then width - 1 else 0) + [HexDigit(n % 16)]
  }

  function Power16(width: nat): nat {
    if width == 0 then 1 else 16 * Power16(width - 1)
  }

  lemma {:induction false} HexPadWidth(n: nat, width: nat)
    requires n < Power16(width)
    ensures |HexPad(n, width)| == width
  {
    if width != 0 {
      HexPadWidth(n / 16, width - 1);
    }
  }

  lemma {:induction false} HexPadAscends(a: nat, b: nat, width: nat)
    requires a < b < Power16(width)
    ensures Less(HexPad(a, width), HexPad(b, width))
  {
    HexPadWidth(a / 16, width - 1);
    HexPadWidth(b / 16, width - 1);
    var x, y := HexPad(a / 16, width - 1), HexPad(b / 16, width - 1);
    if a / 16 == b / 16 {
      LessAtFirstDifference(x, [HexDigit(a % 16)], [HexDigit(b % 16)]);
    } else {
      HexPadAscends(a / 16, b / 16, width - 1);
      LessIrreflexive(x);
      LessFixedWidth(x, y, [HexDigit(a % 16)], [HexDigit(b % 16)]);
    }
  }

  /** One past the largest millisecond a UUIDv7 can hold: 48 bits. */
  const ID_MS_END: nat := 0x1_0000_0000_0000

  /** Eight digits for the high 32 bits, four for the low 16. */
  function TimePrefix(ms: nat): string {
    HexPad(ms / 0x1_0000, 8) + "-" + HexPad(ms % 0x1_0000, 4)
  }

  lemma HexPowers()
    ensures Power16(4) == 0x1_0000 && Power16(8) == 0x1_0000_0000
  {
    assert Power16(1) == 16 && Power16(2) == 0x100 && Power16(3) == 0x1000;
    assert Power16(5) == 0x10_0000 && Power16(6) == 0x100_0000 && Power16(7) == 0x1000_0000;
  }

  lemma PrefixWidth(ms: nat)
    requires ms < ID_MS_END
    ensures |TimePrefix(ms)| == 13
  {
    HexPowers();
    HexPadWidth(ms / 0x1_0000, 8);
    HexPadWidth(ms % 0x1_0000, 4);
  }

  lemma HalvesOrder(a: nat, b: nat)
    requires a < b < ID_MS_END
    ensures || a / 0x1_0000 < b / 0x1_0000 < 0x1_0000_0000
            || (a / 0x1_0000 == b / 0x1_0000 && a % 0x1_0000 < b % 0x1_0000 < 0x1_0000)
  {
  }

  lemma PrefixAscends(a: nat, b: nat)
    requires a < b < ID_MS_END
    ensures Less(TimePrefix(a), TimePrefix(b))
  {
    HexPowers();
    HalvesOrder(a, b);
    var x, y := HexPad(a / 0x1_0000, 8), HexPad(b / 0x1_0000, 8);
    var u, v := HexPad(a % 0x1_0000, 4), HexPad(b % 0x1_0000, 4);
    assert TimePrefix(a) == x + ("-" + u) && TimePrefix(b) == y + ("-" + v);
    if a / 0x1_0000 < b / 0x1_0000 {
      HexPadAscends(a / 0x1_0000, b / 0x1_0000, 8);
      HexPadWidth(a / 0x1_0000, 8);
      HexPadWidth(b / 0x1_0000, 8);
      LessIrreflexive(x);
      LessFixedWidth(x, y, "-" + u, "-" + v);
    } else {
      HexPadAscends(a % 0x1_0000, b % 0x1_0000, 4);
      LessAtFirstDifference("-", u, v);
      LessAtFirstDifference(x, "-" + u, "-" + v);
    }
  }

  /** Below 2^48, time prefixes sort exactly as the milliseconds they encode. */
  lemma PrefixKeepsOrder(a: nat, b: nat)
    requires a < ID_MS_END && b < ID_MS_END
    ensures Less(TimePrefix(a), TimePrefix(b)) <==> a < b
    ensures TimePrefix(a) == TimePrefix(b) <==> a == b
  {
    LessIrreflexive(TimePrefix(a));
    if a < b {
      PrefixAscends(a, b);
    } else if b < a {
      PrefixAscends(b, a);
      LessAsymmetric(TimePrefix(b), TimePrefix(a));
    }
  }

  // ---------------------------------------------------------------------
  // Windows
  // ---------------------------------------------------------------------

  /** What the index query keeps: both bounds exclusive, as strings. */
  predicate Selected(sort: string, before: Option<string>, after: Option<string>) {
    (after.Some? ==> Less(after.value, sort)) && (before.Some? ==> Less(sort, before.value))
  }

  /** What the caller asked for: at or after `after`, strictly before `before`. */
  predicate InWindow(ms: nat, before: Option<nat>, after: Option<nat>) {
    (after.Some? ==> after.value <= ms) && (before.Some? ==> ms < before.value)
  }

  function MessageBound(ms: Option<nat>): Option<string> {
    if ms.None? then None else Some(TimePrefix(ms.value))
  }

  function ThreadBound(ms: Option<nat>): Option<string> {
    if ms.None? then None else Some(Format(ms.value))
  }

  function ThreadTimeSort(timestamp: string, threadId: string): string {
    timestamp + "#" + threadId
  }

  /** A bound against a key that extends an encoding of the same width. */
  lemma BoundAgainst(bound: string, stem: string, rest: string)
    requires |bound| == |stem| && rest != ""
    ensures Less(bound, stem + rest) <==> bound == stem || Less(bound, stem)
    ensures Less(stem + rest, bound) <==> Less(stem, bound)
  {
    assert bound + "" == bound;
    if bound == stem {
      LessExtension(stem, rest);
      LessIrreflexive(stem);
    } else {
      LessFixedWidth(bound, stem, "", rest);
      LessFixedWidth(stem, bound, rest, "");
    }
  }

  lemma MessageBoundAgainst(bound: nat, ms: nat, rest: string)
    requires bound < ID_MS_END && ms < ID_MS_END && rest != ""
    ensures Less(TimePrefix(bound), TimePrefix(ms) + rest) <==> bound <= ms
    ensures Less(TimePrefix(ms) + rest, TimePrefix(bound)) <==> ms < bound
  {
    PrefixWidth(bound);
    PrefixWidth(ms);
    BoundAgainst(TimePrefix(bound), TimePrefix(ms), rest);
    PrefixKeepsOrder(bound, ms);
    PrefixKeepsOrder(ms, bound);
  }

  lemma ThreadBoundAgainst(bound: nat, ms: nat, rest: string)
    requires bound <= MAX_MS && ms <= MAX_MS && rest != ""
    ensures Less(Format(bound), Format(ms) + rest) <==> bound <= ms
    ensures Less(Format(ms) + rest, Format(bound)) <==> ms < bound
  {
    FormatRoundTrip(bound);
    FormatRoundTrip(ms);
    BoundAgainst(Format(bound), Format(ms), rest);
    FormatKeepsOrder(bound, ms);
    FormatKeepsOrder(ms, bound);
  }

  /** A message list selects exactly the ids minted in `[after, before)`. */
  lemma MessageWindowIsExact(ms: nat, rest: string, before: Option<nat>, after: Option<nat>)
    requires ms < ID_MS_END && rest != ""
    requires (before.Some? ==> before.value < ID_MS_END) && (after.Some? ==> after.value < ID_MS_END)
    ensures Selected(TimePrefix(ms) + rest, MessageBound(before), MessageBound(after)) <==> InWindow(ms, before, after)
  {
    if before.Some? { MessageBoundAgainst(before.value, ms, rest); }
    if after.Some? { MessageBoundAgainst(after.value, ms, rest); }
  }

  /** A thread list selects exactly the threads last active in `[after, before)`. */
  lemma ThreadWindowIsExact(ms: nat, threadId: string, before: Option<nat>, after: Option<nat>)
    requires ms <= MAX_MS && (before.Some? ==> before.value <= MAX_MS) && (after.Some? ==> after.value <= MAX_MS)
    ensures Selected(ThreadTimeSort(Format(ms), threadId), ThreadBound(before), ThreadBound(after)) <==> InWindow(ms, before, after)
  {
    assert ThreadTimeSort(Format(ms), threadId) == Format(ms) + ("#" + threadId);
    if before.Some? { ThreadBoundAgainst(before.value, ms, "#" + threadId); }
    if after.Some? { ThreadBoundAgainst(after.value, ms, "#" + threadId); }
  }
}
