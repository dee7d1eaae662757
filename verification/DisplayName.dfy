/**
  Printing a mailbox as `Name <address>` within a byte limit, so that it reads
  back to the same address and, as far as it fits, the same name.

  Strings here are sequences of Unicode characters; lengths that the program
  measures in bytes are measured in UTF-8 bytes.
 */
module DisplayNames {
  import opened Records

  const ADDRESS_MAX_BYTES: nat := 320

  // ---------------------------------------------------------------------
  // Characters and bytes
  // ---------------------------------------------------------------------

  function CharBytes(c: char): (n: nat)
    ensures 1 <= n <= 4
  {
    var code := c as int;
    if code < 0x80 then 1 else if code < 0x800 then 2 else if code < 0x1_0000 then 3 else 4
  }

  function Bytes(s: string): nat {
    if s == "" then 0 else Bytes(s[..|s| - 1]) + CharBytes(s[|s| - 1])
  }

  lemma {:induction false} BytesConcat(a: string, b: string)
    ensures Bytes(a + b) == Bytes(a) + Bytes(b)
  {
    if b == "" {
      assert a + b == a;
    } else {
      assert (a + b)[..|a + b| - 1] == a + b[..|b| - 1];
      BytesConcat(a, b[..|b| - 1]);
    }
  }

  predicate IsStartOf(a: string, b: string) {
    |a| <= |b| && a == b[..|a|]
  }

  /** The longest prefix of at most `max` bytes that splits no character. */
  function Truncate(s: string, max: nat): (r: string)
    ensures IsStartOf(r, s) && Bytes(r) <= max
    ensures |r| < |s| ==> Bytes(r) + CharBytes(s[|r|]) > max
    ensures Bytes(s) <= max ==> r == s
  {
    if Bytes(s) <= max then s
    else
      var r := Truncate(s[..|s| - 1], max);
      assert s[..|s| - 1][..|r|] == s[..|r|];
      r
  }

  predicate IsControl(c: char) {
    c as int < 0x20 || 0x7F <= c as int <= 0x9F
  }

  predicate IsWhite(c: char) {
    var code := c as int;
    || 0x09 <= code <= 0x0D || code == 0x20 || code == 0x85 || code == 0xA0 || code == 0x1680
    || 0x2000 <= code <= 0x200A || code == 0x2028 || code == 0x2029 || code == 0x202F || code == 0x205F || code == 0x3000
  }

  /** The characters that force a phrase to be quoted. */
  predicate IsSpecial(c: char) {
    c in "()<>[]:;@\\,.\""
  }

  predicate HasSpecial(s: string) {
    exists i :: 0 <= i < |s| && IsSpecial(s[i])
  }

  /** Control characters folded to spaces. */
  function Folded(s: string): (r: string)
    ensures |r| == |s| && forall i :: 0 <= i < |r| ==> r[i] == (if IsControl(s[i]) then ' ' else s[i])
  {
    seq(|s|, i requires 0 <= i < |s| => if IsControl(s[i]) then ' ' else s[i])
  }

  function TrimStart(s: string): string {
    if s != "" && IsWhite(s[0]) then TrimStart(s[1..]) else s
  }

  function TrimEnd(s: string): (r: string)
    ensures IsStartOf(r, s)
    ensures r == "" || !IsWhite(r[|r| - 1])
    ensures forall i :: |r| <= i < |s| ==> IsWhite(s[i])
  {
    if s != "" && IsWhite(s[|s| - 1]) then
      var r := TrimEnd(s[..|s| - 1]);
      assert s[..|s| - 1][..|r|] == s[..|r|];
      r
    else s
  }

  function Trim(s: string): string {
    TrimEnd(TrimStart(s))
  }

  // ---------------------------------------------------------------------
  // Quoted strings
  // ---------------------------------------------------------------------

  function EscapedChar(c: char): string {
    if c == '"' || c == '\\' then ['\\', c] else [c]
  }

  function Escaped(s: string): string {
    if s == "" then "" else Escaped(s[..|s| - 1]) + EscapedChar(s[|s| - 1])
  }

  /** Reads a quoted string: what stands between the quotes, with the escapes undone. */
  function ReadQuoted(s: string): Option<string> {
    if s == "" || s[0] != '"' then None else ReadBody(s[1..])
  }

  /** Reads up to the closing quote, which has to be the end. */
  function ReadBody(s: string): Option<string> {
    if s == "" then None
    else if s[0] == '"' then if |s| == 1 then Some("") else None
    else if s[0] == '\\' then if |s| < 2 then None else Before(s[1], ReadBody(s[2..]))
    else Before(s[0], ReadBody(s[1..]))
  }

  function Before(c: char, rest: Option<string>): Option<string> {
    if rest.None? then None else Some([c] + rest.value)
  }

  /** An escaped character in front of a body is read as that character. */
  lemma ReadEscaped(c: char, rest: string)
    ensures ReadBody(EscapedChar(c) + rest) == Before(c, ReadBody(rest))
  {
    var s := EscapedChar(c) + rest;
    assert s[|EscapedChar(c)|..] == rest;
  }

  lemma EscapedLast(s: string, rest: string)
    requires s != ""
    ensures Escaped(s) + rest == Escaped(s[..|s| - 1]) + (EscapedChar(s[|s| - 1]) + rest)
  {
  }

  lemma AppendLast(s: string, tail: string)
    requires s != ""
    ensures s + tail == s[..|s| - 1] + ([s[|s| - 1]] + tail)
  {
  }

  lemma {:induction false} ReadEscapes(s: string, rest: string, tail: string)
    requires ReadBody(rest) == Some(tail)
    ensures ReadBody(Escaped(s) + rest) == Some(s + tail)
  {
    if s == "" {
      assert Escaped(s) + rest == rest && s + tail == tail;
    } else {
      ReadEscaped(s[|s| - 1], rest);
      ReadEscapes(s[..|s| - 1], EscapedChar(s[|s| - 1]) + rest, [s[|s| - 1]] + tail);
      EscapedLast(s, rest);
      AppendLast(s, tail);
    }
  }

  /** Every string survives being quoted and read. */
  lemma QuotedReadsBack(s: string)
    ensures ReadQuoted("\"" + Escaped(s) + "\"") == Some(s)
  {
    ReadEscapes(s, "\"", "");
    assert ("\"" + Escaped(s) + "\"")[1..] == Escaped(s) + "\"";
    assert s + "" == s;
  }

  // ---------------------------------------------------------------------
  // The printer
  // ---------------------------------------------------------------------

  lemma PrefixHasNoSpecial(a: string, b: string)
    requires IsStartOf(a, b) && !HasSpecial(b)
    ensures !HasSpecial(a)
  {
    forall i | 0 <= i < |a| ensures !IsSpecial(a[i]) {
      assert a[i] == b[i];
    }
  }

  /** A quoted string still open, holding the first `n` characters. */
  function Opened(name: string, n: nat): string
    requires n <= |name|
  {
    "\"" + Escaped(name[..n])
  }

  lemma BytesOfEscape(c: char)
    ensures Bytes(EscapedChar(c)) == |EscapedChar(c)| - 1 + CharBytes(c)
  {
    assert ['\\', c][..1] == ['\\'] && ['\\'][..0] == "" && [c][..0] == "";
  }

  /** Bytes the open string takes with `c` and the closing quote after it. */
  function LengthWith(length: nat, c: char): nat {
    length + (if c == '"' || c == '\\' then 1 else 0) + CharBytes(c) + 1
  }

  lemma OpenedNext(name: string, n: nat)
    requires n < |name|
    ensures Opened(name, n + 1) == Opened(name, n) + EscapedChar(name[n])
    ensures Bytes(Opened(name, n + 1)) == LengthWith(Bytes(Opened(name, n)), name[n]) - 1
  {
    assert name[..n + 1][..n] == name[..n];
    assert "\"" + (Escaped(name[..n]) + EscapedChar(name[n])) == "\"" + Escaped(name[..n]) + EscapedChar(name[n]);
    BytesConcat(Opened(name, n), EscapedChar(name[n]));
    BytesOfEscape(name[n]);
  }

  lemma Closed(name: string, n: nat)
    requires n <= |name|
    ensures Bytes(Opened(name, n) + "\"") == Bytes(Opened(name, n)) + 1
    ensures Opened(name, 0) == "\"" && Bytes("\"") == 1
  {
    assert "\""[..0] == "";
    BytesConcat(Opened(name, n), "\"");
  }

  /** Bytes the first `n` characters take as they are, and quoted after the opening quote. */
  function BytesUpTo(s: string, n: nat): nat
    requires n <= |s|
  {
    if n == 0 then 0 else BytesUpTo(s, n - 1) + CharBytes(s[n - 1])
  }

  function QuotedUpTo(s: string, n: nat): nat
    requires n <= |s|
  {
    if n == 0 then 1 else LengthWith(QuotedUpTo(s, n - 1), s[n - 1]) - 1
  }

  lemma {:induction false} BytesAreUpTo(s: string, n: nat)
    requires n <= |s|
    ensures Bytes(s[..n]) == BytesUpTo(s, n)
  {
    if n > 0 {
      assert s[..n][..n - 1] == s[..n - 1];
      BytesAreUpTo(s, n - 1);
    }
  }

  lemma {:induction false} UpToGrows(s: string, n: nat, m: nat)
    requires n <= m <= |s|
    ensures BytesUpTo(s, n) <= BytesUpTo(s, m) && QuotedUpTo(s, n) <= QuotedUpTo(s, m)
  {
    if n < m { UpToGrows(s, n, m - 1); }
  }

  /** How many characters of `name` fit, and the open string that holds them. */
  method OpenQuote(name: string, budget: nat) returns (open: string, kept: nat)
    ensures kept <= |name| && open == Opened(name, kept) && Bytes(open) == QuotedUpTo(name, kept)
    ensures kept > 0 ==> Bytes(open) + 1 <= budget
    ensures kept < |name| ==> LengthWith(Bytes(open), name[kept]) > budget
  {
    open, kept := "\"", 0;
    var length := 1;
    Closed(name, 0);
    while kept < |name| && LengthWith(length, name[kept]) <= budget
      invariant kept <= |name| && open == Opened(name, kept) && length == Bytes(open) == QuotedUpTo(name, kept)
      invariant kept > 0 ==> length + 1 <= budget
    {
      OpenedNext(name, kept);
      open, length := open + EscapedChar(name[kept]), LengthWith(length, name[kept]) - 1;
      kept := kept + 1;
    }
  }

  /** The quoted form of as many characters of `name` as fit. */
  method Quote(name: string, budget: nat) returns (quoted: Option<string>, kept: nat)
    ensures kept <= |name| && (quoted.Some? <==> kept > 0)
    ensures quoted.Some? ==> quoted.value == Opened(name, kept) + "\"" && Bytes(quoted.value) == QuotedUpTo(name, kept) + 1 <= budget
    ensures kept < |name| ==> Bytes(Opened(name, kept + 1) + "\"") == QuotedUpTo(name, kept + 1) + 1 > budget
  {
    var open, n := OpenQuote(name, budget);
    kept := n;
    Closed(name, n);
    if n < |name| {
      OpenedNext(name, n);
      Closed(name, n + 1);
    }
    quoted := if n > 0 then Some(open + "\"") else None;
  }

  /** The name a phrase is printed from: control characters folded, ends trimmed. */
  function Clean(name: string): string {
    Trim(Folded(name))
  }

  /** `phrase` shows the first `kept` characters of the clean name, one way or the other. */
  ghost predicate IsPhrase(phrase: string, name: string, kept: nat) {
    && 0 < kept <= |Clean(name)|
    && if HasSpecial(Clean(name)) then phrase == Opened(Clean(name), kept) + "\""
       else phrase == Clean(name)[..kept]
  }

  /** What a printed phrase reads back to: a prefix of the clean name; unquoted, it holds no special. */
  lemma PhraseReadsBack(phrase: string, name: string, kept: nat)
    requires IsPhrase(phrase, name, kept)
    ensures HasSpecial(Clean(name)) ==> ReadQuoted(phrase) == Some(Clean(name)[..kept])
    ensures !HasSpecial(Clean(name)) ==> phrase == Clean(name)[..kept] && !HasSpecial(phrase)
  {
    if HasSpecial(Clean(name)) {
      QuotedReadsBack(Clean(name)[..kept]);
    } else {
      PrefixHasNoSpecial(phrase, Clean(name));
    }
  }

  lemma {:induction false} TrimStartStarts(s: string)
    ensures TrimStart(s) == "" || !IsWhite(TrimStart(s)[0])
  {
    if s != "" && IsWhite(s[0]) { TrimStartStarts(s[1..]); }
  }

  lemma {:induction false} TrimEndKeepsStart(s: string)
    requires s != "" && !IsWhite(s[0])
    ensures TrimEnd(s) != "" && TrimEnd(s)[0] == s[0]
  {
    if IsWhite(s[|s| - 1]) { TrimEndKeepsStart(s[..|s| - 1]); }
  }

  /** A clean name starts with something to show. */
  lemma CleanStarts(name: string)
    ensures Clean(name) == "" || !IsWhite(Clean(name)[0])
  {
    var s := TrimStart(Folded(name));
    TrimStartStarts(Folded(name));
    if s != "" { TrimEndKeepsStart(s); }
  }

  /** A whole clean name ends in something to show. */
  lemma CleanEnds(name: string)
    ensures Clean(name) == "" || !IsWhite(Clean(name)[|Clean(name)| - 1])
  {
  }

  /** The first `n` characters of `s` are within `budget` bytes, and no more are. */
  predicate LongestWithin(s: string, n: nat, budget: nat) {
    n <= |s| && BytesUpTo(s, n) <= budget && (n < |s| ==> BytesUpTo(s, n + 1) > budget)
  }

  /**
    `kept` is how much of `clean` a phrase of at most `budget` bytes can show:
    quoted, every character up to the first that would not fit with its escape
    and the closing quote; unquoted, the longest prefix that fits but for the
    white space it ends in.
   */
  ghost predicate AsMuchAsFits(clean: string, budget: nat, kept: nat) {
    && kept <= |clean|
    && if HasSpecial(clean)
       then && (kept > 0 ==> QuotedUpTo(clean, kept) + 1 <= budget)
            && (kept < |clean| ==> QuotedUpTo(clean, kept + 1) + 1 > budget)
       else && (kept > 0 ==> !IsWhite(clean[kept - 1]))
            && exists n :: kept <= n && LongestWithin(clean, n, budget) && forall i :: kept <= i < n ==> IsWhite(clean[i])
  }

  /** The longest prefix that fits, without the white space it ends in. */
  lemma CutAsMuchAsFits(clean: string, budget: nat)
    requires !HasSpecial(clean)
    ensures var shown := TrimEnd(Truncate(clean, budget));
            IsStartOf(shown, clean) && Bytes(shown) <= budget && AsMuchAsFits(clean, budget, |shown|)
  {
    var cut := Truncate(clean, budget);
    var shown := TrimEnd(cut);
    CutIsLongest(clean, budget);
    assert clean[..|cut|][..|shown|] == clean[..|shown|];
    BytesAreUpTo(clean, |shown|);
    UpToGrows(clean, |shown|, |cut|);
    forall i | |shown| <= i < |cut| ensures IsWhite(clean[i]) {
      assert clean[i] == cut[i];
    }
  }

  lemma CutIsLongest(clean: string, budget: nat)
    ensures LongestWithin(clean, |Truncate(clean, budget)|, budget)
  {
    var n := |Truncate(clean, budget)|;
    BytesAreUpTo(clean, n);
    if n < |clean| { BytesAreUpTo(clean, n + 1); }
  }

  lemma OneLongest(s: string, budget: nat, n: nat, m: nat)
    requires LongestWithin(s, n, budget) && LongestWithin(s, m, budget)
    ensures n == m
  {
    if n < m { UpToGrows(s, n + 1, m); }
    if m < n { UpToGrows(s, m + 1, n); }
  }

  /** A budget leaves one way to print a name. */
  lemma PhraseIsDetermined(clean: string, budget: nat, k1: nat, k2: nat)
    requires AsMuchAsFits(clean, budget, k1) && AsMuchAsFits(clean, budget, k2)
    ensures k1 == k2
  {
    if HasSpecial(clean) {
      if k1 < k2 { UpToGrows(clean, k1 + 1, k2); }
      if k2 < k1 { UpToGrows(clean, k2 + 1, k1); }
    } else {
      var n1 :| k1 <= n1 && LongestWithin(clean, n1, budget) && forall i :: k1 <= i < n1 ==> IsWhite(clean[i]);
      var n2 :| k2 <= n2 && LongestWithin(clean, n2, budget) && forall i :: k2 <= i < n2 ==> IsWhite(clean[i]);
      OneLongest(clean, budget, n1, n2);
    }
  }

  /** The bytes a phrase needs to show the first `n` characters of a clean name. */
  function BytesToShow(clean: string, n: nat): nat
    requires n <= |clean|
  {
    if HasSpecial(clean) then QuotedUpTo(clean, n) + 1 else BytesUpTo(clean, n)
  }

  /** A name is shown whole where its phrase fits, and not at all only where nothing of it does. */
  lemma NameIsShown(name: string, budget: nat, kept: nat)
    requires AsMuchAsFits(Clean(name), budget, kept) && Clean(name) != ""
    ensures BytesToShow(Clean(name), |Clean(name)|) <= budget ==> kept == |Clean(name)|
    ensures kept == 0 <==> BytesToShow(Clean(name), 1) > budget
  {
    CleanStarts(name);
    CleanEnds(name);
    var clean := Clean(name);
    if HasSpecial(clean) {
      if kept < |clean| { UpToGrows(clean, kept + 1, |clean|); }
      if kept > 0 { UpToGrows(clean, 1, kept); }
    } else {
      PlainIsShown(clean, budget, kept);
    }
  }

  lemma PlainIsShown(clean: string, budget: nat, kept: nat)
    requires !HasSpecial(clean) && clean != "" && AsMuchAsFits(clean, budget, kept)
    requires !IsWhite(clean[0]) && !IsWhite(clean[|clean| - 1])
    ensures BytesUpTo(clean, |clean|) <= budget ==> kept == |clean|
    ensures kept == 0 <==> BytesUpTo(clean, 1) > budget
  {
    var n :| kept <= n && LongestWithin(clean, n, budget) && forall i :: kept <= i < n ==> IsWhite(clean[i]);
    LongestMeans(clean, budget, n);
  }

  lemma LongestMeans(s: string, budget: nat, n: nat)
    requires s != "" && LongestWithin(s, n, budget)
    ensures BytesUpTo(s, |s|) <= budget ==> n == |s|
    ensures n == 0 <==> BytesUpTo(s, 1) > budget
  {
    if n < |s| { UpToGrows(s, n + 1, |s|); }
    if n > 0 { UpToGrows(s, 1, n); }
  }

  /** A name as a phrase of at most `budget` bytes that shows as much as fits, or nothing where nothing does. */
  method DisplayName(name: string, budget: nat) returns (phrase: Option<string>, kept: nat)
    ensures AsMuchAsFits(Clean(name), budget, kept) && (phrase.Some? <==> kept > 0)
    ensures phrase.Some? ==> IsPhrase(phrase.value, name, kept) && Bytes(phrase.value) <= budget
  {
    var clean := Clean(name);
    if !HasSpecial(clean) {
      var cut := Truncate(clean, budget);
      var shown := TrimEnd(cut);
      CutAsMuchAsFits(clean, budget);
      kept := |shown|;
      return if shown != "" then Some(shown) else None, kept;
    }
    phrase, kept := Quote(clean, budget);
  }

  /** `address` printed alone, cut to the limit only if it must be. */
  function BareAddress(address: string): string {
    Truncate(address, ADDRESS_MAX_BYTES)
  }

  /** The bytes a printed name leaves for itself: the limit less its address and ` <` and `>`. */
  function NameBudget(address: string): Option<nat> {
    var framing := 2 + Bytes(address) + 1;
    if framing <= ADDRESS_MAX_BYTES then Some(ADDRESS_MAX_BYTES - framing) else None
  }

  /**
    A mailbox as printed: at most 320 bytes, its address whole wherever a name
    is shown, and as much of the name as fits beside the address. Only a missing
    name, a long address, or a name of which nothing fits is left out.
   */
  method FormatAddr(address: Option<string>, name: Option<string>) returns (printed: Option<string>, ghost phrase: Option<string>, ghost kept: nat)
    ensures printed.None? <==> address.None?
    ensures printed.Some? ==> Bytes(printed.value) <= ADDRESS_MAX_BYTES
    ensures printed.Some? ==>
              printed.value == if phrase.Some? then phrase.value + " <" + address.value + ">" else BareAddress(address.value)
    ensures phrase.Some? ==> name.Some? && IsPhrase(phrase.value, name.value, kept)
    ensures printed.Some? && name.Some? && NameBudget(address.value).Some? ==>
              AsMuchAsFits(Clean(name.value), NameBudget(address.value).value, kept) && (phrase.Some? <==> kept > 0)
  {
    phrase, kept := None, 0;
    if address.None? {
      return None, None, 0;
    }
    var framing := 2 + Bytes(address.value) + 1;
    if name.Some? && framing <= ADDRESS_MAX_BYTES {
      var shown;
      shown, kept := DisplayName(name.value, ADDRESS_MAX_BYTES - framing);
      if shown.Some? {
        FramedBytes(shown.value, address.value);
        return Some(shown.value + " <" + address.value + ">"), shown, kept;
      }
    }
    return Some(BareAddress(address.value)), None, kept;
  }

  lemma FramedBytes(phrase: string, address: string)
    ensures Bytes(phrase + " <" + address + ">") == Bytes(phrase) + 2 + Bytes(address) + 1
  {
    BytesConcat(phrase + " <" + address, ">");
    BytesConcat(phrase + " <", address);
    BytesConcat(phrase, " <");
    assert " <"[..1] == " " && " "[..0] == "" && ">"[..0] == "";
  }

  // ---------------------------------------------------------------------
  // Reading the address back
  // ---------------------------------------------------------------------

  /** What follows the last `<`. */
  function AfterLastAngle(s: string): Option<string> {
    if s == "" then None
    else if s[|s| - 1] == '<' then Some("")
    else
      var rest := AfterLastAngle(s[..|s| - 1]);
      if rest.None? then None else Some(rest.value + [s[|s| - 1]])
  }

  /** The address of a printed mailbox: between the last `<` and a closing `>`, or all of it. */
  function AddressOf(printed: string): string {
    if printed == "" || printed[|printed| - 1] != '>' then printed
    else
      var inner := AfterLastAngle(printed[..|printed| - 1]);
      if inner.None? then printed else inner.value
  }

  lemma {:induction false} AngleFound(before: string, address: string)
    requires '<' !in address
    ensures AfterLastAngle(before + "<" + address) == Some(address)
  {
    var s := before + "<" + address;
    if address == "" {
      assert s[|s| - 1] == '<';
    } else {
      var init, last := address[..|address| - 1], address[|address| - 1];
      assert address == init + [last];
      AngleFound(before, init);
      assert s[..|s| - 1] == before + "<" + init;
      assert s[|s| - 1] == last;
    }
  }

  /** However its name is shown or cut, a printed mailbox reads back to its whole address. */
  lemma AddressReadsBack(address: string, phrase: Option<string>)
    requires '<' !in address && '>' !in address && Bytes(address) <= ADDRESS_MAX_BYTES
    ensures AddressOf(if phrase.Some? then phrase.value + " <" + address + ">" else BareAddress(address)) == address
  {
    if phrase.Some? {
      var s := phrase.value + " <" + address + ">";
      assert s[..|s| - 1] == (phrase.value + " ") + "<" + address;
      AngleFound(phrase.value + " ", address);
    } else {
      assert address == "" || address[|address| - 1] in address;
    }
  }
}
