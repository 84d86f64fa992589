/** The text layer of the session journal: lines, trimming, fields, numbers and percent-encoding
    (section 2.1 of RFC 3986). Text is given as its UTF-8 bytes, one char each. */
module JournalText {

  predicate IsSpace(c: char) {
    c in {' ', '\t', '\n', '\r', '\U{0B}', '\U{0C}'}
  }

  predicate IsBytes(t: string) {
    forall i :: 0 <= i < |t| ==> t[i] as int < 256
  }

  predicate NoSpace(t: string) {
    forall i :: 0 <= i < |t| ==> !IsSpace(t[i])
  }

  // ---- Trimming ----

  function TrimLeft(t: string): string {
    if t != "" && IsSpace(t[0]) then TrimLeft(t[1..]) else t
  }

  function TrimRight(t: string): string {
    if t != "" && IsSpace(t[|t| - 1]) then TrimRight(t[..|t| - 1]) else t
  }

  function Trim(t: string): string {
    TrimLeft(TrimRight(t))
  }

  /** No space at either end. */
  predicate Trimmed(t: string) {
    t == "" || (!IsSpace(t[0]) && !IsSpace(t[|t| - 1]))
  }

  lemma TrimSame(t: string)
    requires Trimmed(t)
    ensures Trim(t) == t
  {
  }

  /** Spaces behind a text that does not end in one are all that trimming takes. */
  lemma {:induction false} TrimRightTail(t: string, spaces: string)
    requires (t == "" || !IsSpace(t[|t| - 1])) && forall i :: 0 <= i < |spaces| ==> IsSpace(spaces[i])
    ensures TrimRight(t + spaces) == t
  {
    if spaces == "" {
      assert t + spaces == t;
    } else {
      var s := spaces[..|spaces| - 1];
      TrimRightTail(t, s);
      assert (t + spaces)[..|t + spaces| - 1] == t + s;
    }
  }

  predicate OneLine(t: string) {
    forall i :: 0 <= i < |t| ==> t[i] != '\n'
  }

  lemma {:induction false} TrimRightEnds(t: string)
    ensures TrimRight(t) == "" || !IsSpace(TrimRight(t)[|TrimRight(t)| - 1])
    ensures OneLine(t) ==> OneLine(TrimRight(t))
  {
    if t != "" && IsSpace(t[|t| - 1]) {
      TrimRightEnds(t[..|t| - 1]);
    }
  }

  lemma {:induction false} TrimLeftStarts(t: string)
    requires t == "" || !IsSpace(t[|t| - 1])
    ensures Trimmed(TrimLeft(t)) && (OneLine(t) ==> OneLine(TrimLeft(t)))
  {
    if t != "" && IsSpace(t[0]) {
      TrimLeftStarts(t[1..]);
    }
  }

  /** Trimming a line leaves a trimmed text, without the newline. */
  lemma TrimsLine(body: string, end: string)
    requires OneLine(body) && (end == "" || end == "\n")
    ensures Trimmed(Trim(body + end)) && OneLine(Trim(body + end))
  {
    if end == "" {
      assert body + end == body;
    } else {
      assert (body + end)[..|body|] == body;
    }
    TrimRightEnds(body);
    TrimLeftStarts(TrimRight(body));
  }

  lemma TrimsText(t: string)
    requires OneLine(t)
    ensures Trimmed(Trim(t)) && OneLine(Trim(t))
  {
    TrimRightEnds(t);
    TrimLeftStarts(TrimRight(t));
  }

  // ---- Searching and splitting ----

  /** The first position of the character, or the length. */
  function IndexOf(t: string, c: char): (k: nat)
    ensures k <= |t| && (k < |t| ==> t[k] == c) && forall i :: 0 <= i < k ==> t[i] != c
  {
    if t == "" || t[0] == c then 0 else 1 + IndexOf(t[1..], c)
  }

  /** The fields between single spaces; there is always one, possibly empty. */
  function Split(t: string): seq<string> {
    var k := IndexOf(t, ' ');
    if k == |t| then [t] else [t[..k]] + Split(t[k + 1..])
  }

  predicate IsField(t: string) {
    forall i :: 0 <= i < |t| ==> t[i] != ' '
  }

  lemma SplitOne(t: string)
    requires IsField(t)
    ensures Split(t) == [t]
  {
  }

  lemma SplitFirst(field: string, rest: string)
    requires IsField(field)
    ensures Split(field + " " + rest) == [field] + Split(rest)
  {
    var t := field + " " + rest;
    assert t[|field|] == ' ' && forall i :: 0 <= i < |field| ==> t[i] == field[i];
    assert IndexOf(t, ' ') == |field|;
    assert t[..|field|] == field && t[|field| + 1..] == rest;
  }

  // ---- Numbers ----

  predicate IsDigit(c: char) {
    '0' <= c <= '9'
  }

  function Digit(n: nat): char
    requires n < 10
  {
    ('0' as int + n) as char
  }

  function Digits(n: nat): (t: string)
    ensures t != "" && forall i :: 0 <= i < |t| ==> IsDigit(t[i])
  {
    if n < 10 then [Digit(n)] else Digits(n / 10) + [Digit(n % 10)]
  }

  /** The number a text spells, or zero if it does not spell one. */
  function ToInt(t: string): nat {
    if t != "" && (forall i :: 0 <= i < |t| ==> IsDigit(t[i])) then Value(t) else 0
  }

  function Value(t: string): nat
    requires forall i :: 0 <= i < |t| ==> IsDigit(t[i])
  {
    if t == "" then 0
    else
      assert IsDigit(t[|t| - 1]);
      Value(t[..|t| - 1]) * 10 + (t[|t| - 1] as int - '0' as int)
  }

  lemma {:induction false} ValueDigits(n: nat)
    ensures Value(Digits(n)) == n && ToInt(Digits(n)) == n
  {
    var t := Digits(n);
    if n < 10 {
      assert t[..|t| - 1] == "";
    } else {
      ValueDigits(n / 10);
      assert t[..|t| - 1] == Digits(n / 10);
    }
  }

  // ---- Percent-encoding ----

  predicate IsUnreserved(c: char) {
    'A' <= c <= 'Z' || 'a' <= c <= 'z' || '0' <= c <= '9' || c in {'-', '.', '_', '~'}
  }

  function HexDigit(n: nat): char
    requires n < 16
  {
    if n < 10 then ('0' as int + n) as char else ('A' as int + n - 10) as char
  }

  /** The value of a hex digit, or 16. */
  function HexValue(c: char): nat {
    if '0' <= c <= '9' then c as int - '0' as int
    else if 'A' <= c <= 'F' then c as int - 'A' as int + 10
    else if 'a' <= c <= 'f' then c as int - 'a' as int + 10
    else 16
  }

  function EncodeChar(c: char): string {
    if IsUnreserved(c) then [c] else ['%', HexDigit(c as int / 16 % 16), HexDigit(c as int % 16)]
  }

  function PercentEncode(t: string): string {
    if t == "" then "" else EncodeChar(t[0]) + PercentEncode(t[1..])
  }

  function PercentDecode(t: string): string {
    if t == "" then ""
    else if t[0] == '%' && |t| >= 3 && HexValue(t[1]) < 16 && HexValue(t[2]) < 16 then
      [(HexValue(t[1]) * 16 + HexValue(t[2])) as char] + PercentDecode(t[3..])
    else [t[0]] + PercentDecode(t[1..])
  }

  lemma EncodeCharDecodes(c: char, rest: string)
    requires c as int < 256
    ensures PercentDecode(EncodeChar(c) + rest) == [c] + PercentDecode(rest)
  {
    var t := EncodeChar(c) + rest;
    if IsUnreserved(c) {
      assert t[0] == c && t[1..] == rest;
    } else {
      assert t[0] == '%' && t[1] == HexDigit(c as int / 16 % 16) && t[2] == HexDigit(c as int % 16) && t[3..] == rest;
      assert HexValue(t[1]) * 16 + HexValue(t[2]) == c as int;
    }
  }

  /** Every byte string survives the encoding. */
  lemma {:induction false} PercentRoundTrip(t: string)
    requires IsBytes(t)
    ensures PercentDecode(PercentEncode(t)) == t
  {
    if t != "" {
      PercentRoundTrip(t[1..]);
      EncodeCharDecodes(t[0], PercentEncode(t[1..]));
    }
  }

  /** And the encoded form can stand as a field in a line. */
  lemma {:induction false} EncodedNoSpace(t: string)
    ensures NoSpace(PercentEncode(t)) && (t != "" ==> PercentEncode(t) != "")
  {
    if t != "" {
      EncodedNoSpace(t[1..]);
      assert NoSpace(EncodeChar(t[0]));
    }
  }
}
