/**
  Text as the source's strings hold it: bytes that are usually, but not necessarily, UTF-8. Lead and
  continuation bytes follow section 3 of RFC 3629; a scalar outside the basic plane takes two UTF-16
  code units (section 2.1 of RFC 2781), and so does nothing else. As in Go, a byte that starts no
  well-formed sequence decodes to one replacement character of width one.
*/
module Utf8 {

  /** A byte, 0 to 255. */
  type Byte = int

  type Text = seq<Byte>

  const NEWLINE: Byte := 10

  predicate Between(s: Text, i: nat, low: nat, high: nat) {
    i < |s| && low <= s[i] <= high
  }

  predicate IsContinuation(b: Byte) {
    0x80 <= b < 0xC0
  }

  /** utf8.RuneStart */
  predicate RuneStart(b: Byte) {
    !IsContinuation(b)
  }

  /** The length of the well-formed sequence at the start of `s`, or 0 if there is none. */
  function Sequence(s: Text): (w: nat)
    ensures w <= 4 && w <= |s|
    ensures w > 0 ==> RuneStart(s[0])
    ensures forall k | 1 <= k < w :: IsContinuation(s[k])
  {
    if |s| == 0 then 0
    else if s[0] < 0x80 then 1
    else if 0xC2 <= s[0] <= 0xDF then (if Between(s, 1, 0x80, 0xBF) then 2 else 0)
    else if 0xE0 <= s[0] <= 0xEF then
      var low, high := if s[0] == 0xE0 then 0xA0 else 0x80, if s[0] == 0xED then 0x9F else 0xBF;
      if Between(s, 1, low, high) && Between(s, 2, 0x80, 0xBF) then 3 else 0
    else if 0xF0 <= s[0] <= 0xF4 then
      var low, high := if s[0] == 0xF0 then 0x90 else 0x80, if s[0] == 0xF4 then 0x8F else 0xBF;
      if Between(s, 1, low, high) && Between(s, 2, 0x80, 0xBF) && Between(s, 3, 0x80, 0xBF) then 4 else 0
    else 0
  }

  predicate Valid(s: Text) {
    s == [] || (Sequence(s) > 0 && Valid(s[Sequence(s)..]))
  }

  /** A valid text cut where a character starts, or at its end, is valid. */
  lemma {:induction false} ValidSuffix(s: Text, k: nat)
    requires Valid(s) && k <= |s| && (k < |s| ==> RuneStart(s[k]))
    ensures Valid(s[k..])
    decreases |s|
  {
    if k > 0 {
      var w := Sequence(s);
      assert k >= w;
      ValidSuffix(s[w..], k - w);
      assert s[w..][k - w..] == s[k..];
    }
  }

  function Utf16Units(s: Text): nat {
    if s == [] then 0
    else
      var w := Sequence(s);
      (if w == 4 then 2 else 1) + Utf16Units(s[if w == 0 then 1 else w..])
  }

  lemma SequenceBeforeNewline(a: Text, rest: Text)
    requires a != []
    ensures Sequence(a + [NEWLINE] + rest) == Sequence(a)
  {
    var s := a + [NEWLINE] + rest;
    assert s[0] == a[0];
    assert |a| > 1 ==> s[1] == a[1];
    assert |a| > 2 ==> s[2] == a[2];
    assert |a| > 3 ==> s[3] == a[3];
    assert s[|a|] == NEWLINE;
  }

  /** A newline ends whatever precedes it, well-formed or not, so counting splits there. */
  lemma {:induction false} UnitsSplitAtNewline(a: Text, rest: Text)
    ensures Utf16Units(a + [NEWLINE] + rest) == Utf16Units(a) + Utf16Units([NEWLINE] + rest)
    decreases |a|
  {
    if a == [] {
      assert a + [NEWLINE] + rest == [NEWLINE] + rest;
    } else {
      SequenceBeforeNewline(a, rest);
      var w := if Sequence(a) == 0 then 1 else Sequence(a);
      assert (a + [NEWLINE] + rest)[w..] == a[w..] + [NEWLINE] + rest;
      UnitsSplitAtNewline(a[w..], rest);
    }
  }

  lemma NewlineIsOneUnit(rest: Text)
    ensures Utf16Units([NEWLINE] + rest) == 1 + Utf16Units(rest)
  {
    assert Sequence([NEWLINE] + rest) == 1;
    assert ([NEWLINE] + rest)[1..] == rest;
  }

  function Ascii(s: string): (t: Text)
    ensures |t| == |s|
  {
    seq(|s|, i requires 0 <= i < |s| => if s[i] as int < 128 then s[i] as nat else 63)
  }

  // ---------- strings.Join(texts, "\n\n") ----------

  const SEPARATOR: Text := [NEWLINE, NEWLINE]

  function Join(texts: seq<Text>): Text {
    if texts == [] then []
    else if |texts| == 1 then texts[0]
    else texts[0] + SEPARATOR + Join(texts[1..])
  }

  datatype Unit = InBytes | InUtf16

  /** framedMessageUnits */
  function Units(s: Text, unit: Unit): nat {
    if unit == InUtf16 then Utf16Units(s) else |s|
  }

  /** The units of the parts, plus two for every separator. */
  function PartUnits(texts: seq<Text>, unit: Unit): nat {
    if texts == [] then 0
    else if |texts| == 1 then Units(texts[0], unit)
    else PartUnits(texts[..|texts| - 1], unit) + 2 + Units(texts[|texts| - 1], unit)
  }

  lemma UnitsOfPair(a: Text, b: Text, unit: Unit)
    ensures Units(a + SEPARATOR + b, unit) == Units(a, unit) + 2 + Units(b, unit)
  {
    assert a + SEPARATOR + b == a + [NEWLINE] + ([NEWLINE] + b);
    UnitsSplitAtNewline(a, [NEWLINE] + b);
    NewlineIsOneUnit([NEWLINE] + b);
    NewlineIsOneUnit(b);
  }

  lemma {:induction false} JoinSnoc(texts: seq<Text>, last: Text)
    requires texts != []
    ensures Join(texts + [last]) == Join(texts) + SEPARATOR + last
    decreases |texts|
  {
    if |texts| == 1 {
      assert (texts + [last])[1..] == [last];
    } else {
      assert (texts + [last])[1..] == texts[1..] + [last];
      JoinSnoc(texts[1..], last);
      assert texts[0] + SEPARATOR + (Join(texts[1..]) + SEPARATOR + last) == texts[0] + SEPARATOR + Join(texts[1..]) + SEPARATOR + last;
    }
  }

  /** Counting the parts counts the joined text exactly, in either unit and for any bytes. */
  lemma {:induction false} JoinUnits(texts: seq<Text>, unit: Unit)
    ensures Units(Join(texts), unit) == PartUnits(texts, unit)
    decreases |texts|
  {
    if |texts| > 1 {
      var front, last := texts[..|texts| - 1], texts[|texts| - 1];
      assert texts == front + [last];
      JoinSnoc(front, last);
      UnitsOfPair(Join(front), last, unit);
      JoinUnits(front, unit);
    }
  }
}
