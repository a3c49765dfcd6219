/**
  thread_continuity.go: the byte-budgeted guidance and recent turns that a Thread record carries, and
  the preamble a fresh session gets from them.
*/
module ThreadHistory {
  import opened Common
  import opened Utf8

  const BUDGET := 8 * 1024 - 256
  const GUIDANCE_BUDGET := BUDGET / 2
  const TURNS_BUDGET := BUDGET - BUDGET / 2
  const GUIDANCE_COUNT := 1000
  const TURN_COUNT := 3

  // ---------- specification ----------

  /** The first place at or after `k` where a character starts. */
  function Skip(text: Text, k: nat): (r: nat)
    requires k <= |text|
    ensures k <= r <= |text| && (r < |text| ==> RuneStart(text[r]))
    ensures forall j | k <= j < r :: !RuneStart(text[j])
    decreases |text| - k
  {
    if k < |text| && IsContinuation(text[k]) then Skip(text, k + 1) else k
  }

  /** The longest suffix within the budget that is the whole text, empty, or starts a character; see TailIsLongest. */
  function Tail(text: Text, budget: nat): (t: Text)
    ensures |t| <= |text| && |t| <= budget
  {
    if |text| <= budget then text else text[Skip(text, |text| - budget)..]
  }

  /** What is left of the budget after a tail and its separator. */
  function Left(budget: int, t: Text): int {
    if t == [] then budget else budget - |t| - 2
  }

  function Keep(rest: seq<Text>, t: Text): seq<Text> {
    if t == [] then rest else rest + [t]
  }

  /** From the n-th text backwards, every non-empty tail that the remaining budget allows. */
  function FitTo(texts: seq<Text>, n: nat, budget: int): seq<Text>
    requires n <= |texts|
  {
    if n == 0 || budget <= 0 then []
    else
      var t := Tail(texts[n - 1], budget);
      Keep(FitTo(texts, n - 1, Left(budget, t)), t)
  }

  function Fit(texts: seq<Text>, budget: int): seq<Text> {
    FitTo(texts, |texts|, budget)
  }

  lemma {:induction false} FitPrefix(a: seq<Text>, b: seq<Text>, n: nat, budget: int)
    requires n <= |a| && n <= |b| && forall k | 0 <= k < n :: a[k] == b[k]
    ensures FitTo(a, n, budget) == FitTo(b, n, budget)
  {
    if n > 0 && budget > 0 {
      FitPrefix(a, b, n - 1, Left(budget, Tail(a[n - 1], budget)));
    }
  }

  function Newest(texts: seq<Text>, count: nat): seq<Text> {
    if |texts| > count then texts[|texts| - count..] else texts
  }

  function Bounded(texts: seq<Text>, budget: int, count: nat): seq<Text> {
    Fit(Newest(texts, count), budget)
  }

  // ---------- the source's loops ----------

  /** Oldest first again. */
  function Reversed(newest: seq<Text>): seq<Text> {
    if newest == [] then [] else [newest[|newest| - 1]] + Reversed(newest[..|newest| - 1])
  }

  lemma {:induction false} MirrorIsReversed(newest: seq<Text>, out: seq<Text>)
    requires |out| == |newest| && forall k | 0 <= k < |out| :: out[k] == newest[|newest| - 1 - k]
    ensures out == Reversed(newest)
    decreases |newest|
  {
    if newest != [] {
      MirrorIsReversed(newest[..|newest| - 1], out[1..]);
      assert out == [out[0]] + out[1..];
    }
  }

  method ReverseInPlace(newest: seq<Text>) returns (out: seq<Text>)
    ensures out == Reversed(newest)
  {
    out := newest;
    var left, right := 0, |out| - 1;
    while left < right
      invariant 0 <= left && right == |newest| - 1 - left && |out| == |newest| && left <= right + 1
      invariant forall k | 0 <= k < left :: out[k] == newest[|newest| - 1 - k] && out[|newest| - 1 - k] == newest[k]
      invariant forall k | left <= k <= right :: out[k] == newest[k]
    {
      out := out[left := out[right]][right := out[left]];
      left, right := left + 1, right - 1;
    }
    MirrorIsReversed(newest, out);
  }

  method CutToBudget(text: Text, budget: nat) returns (cut: Text)
    ensures cut == Tail(text, budget)
  {
    if |text| <= budget {
      return text;
    }
    var k := |text| - budget;
    while k < |text| && !RuneStart(text[k])
      invariant k <= |text| && Skip(text, k) == Skip(text, |text| - budget)
    {
      k := k + 1;
    }
    return text[k..];
  }

  /** What the loop will return from its state: the texts still to visit, then those already cut. */
  ghost function Outlook(kept: seq<Text>, index: nat, left: int, newest: seq<Text>): seq<Text>
    requires index <= |kept|
  {
    FitTo(kept, index, left) + Reversed(newest)
  }

  lemma ReversedSnoc(s: seq<Text>, t: Text)
    ensures Reversed(s + [t]) == [t] + Reversed(s)
  {
    assert (s + [t])[..|s|] == s;
  }

  lemma Regroup(a: seq<Text>, t: Text, b: seq<Text>)
    ensures a + [t] + b == a + ([t] + b)
  {
  }

  lemma OutlookStep(kept: seq<Text>, index: nat, left: int, newest: seq<Text>, t: Text)
    requires index < |kept| && left > 0 && t == Tail(kept[index], left)
    ensures Outlook(kept, index + 1, left, newest) ==
            Outlook(kept, index, Left(left, t), if t == [] then newest else newest + [t])
  {
    ReversedSnoc(newest, t);
    Regroup(FitTo(kept, index, Left(left, t)), t, Reversed(newest));
  }

  method CutBackwards(kept: seq<Text>, budget: int) returns (newest: seq<Text>)
    ensures Reversed(newest) == Fit(kept, budget)
  {
    newest := [];
    var left := budget;
    var index := |kept|;
    ghost var whole := Fit(kept, budget);
    assert whole == whole + [];
    while index > 0 && left > 0
      invariant 0 <= index <= |kept|
      invariant whole == Outlook(kept, index, left, newest)
    {
      index := index - 1;
      var text := CutToBudget(kept[index], left);
      OutlookStep(kept, index, left, newest, text);
      if text != [] {
        newest := newest + [text];
        left := left - (|text| + 2);
      }
    }
    assert FitTo(kept, index, left) == [];
    assert whole == [] + Reversed(newest) == Reversed(newest);
  }

  method BoundedThreadTexts(texts: seq<Text>, budget: int, count: nat) returns (out: seq<Text>)
    ensures out == Bounded(texts, budget, count)
  {
    var kept := if |texts| > count then texts[|texts| - count..] else texts;
    var newest := CutBackwards(kept, budget);
    out := ReverseInPlace(newest);
  }

  // ---------- what the bounded history is ----------

  predicate IsSuffix(t: Text, text: Text) {
    |t| <= |text| && t == text[|text| - |t|..]
  }

  /** Each of `out` is a suffix of the text at its index, and the indices increase. */
  ghost predicate Selects(out: seq<Text>, texts: seq<Text>, at: seq<nat>) {
    && |at| == |out|
    && (forall k | 0 <= k < |at| :: at[k] < |texts| && IsSuffix(out[k], texts[at[k]]))
    && (forall j, k | 0 <= j < k < |at| :: at[j] < at[k])
  }

  ghost predicate SuffixesInOrder(out: seq<Text>, texts: seq<Text>) {
    exists at :: Selects(out, texts, at)
  }

  lemma TailIsSuffix(text: Text, budget: nat)
    ensures IsSuffix(Tail(text, budget), text)
  {
  }

  /** Where a text may be cut: before a character, or not at all, or to nothing. */
  predicate IsCut(text: Text, k: nat) {
    k == 0 || k == |text| || (k < |text| && RuneStart(text[k]))
  }

  /** The tail starts at the first place that the budget allows and where the text may be cut. */
  lemma TailIsLongest(text: Text, budget: nat)
    ensures var k := |text| - |Tail(text, budget)|;
            IsCut(text, k) && forall j | 0 <= j < k && IsCut(text, j) :: |text| - j > budget
  {
    if |text| > budget {
      var k := Skip(text, |text| - budget);
      assert |text| - |Tail(text, budget)| == k;
    }
  }

  predicate Below(at: seq<nat>, n: nat) {
    forall k | 0 <= k < |at| :: at[k] < n
  }

  lemma SelectsSnoc(out: seq<Text>, texts: seq<Text>, at: seq<nat>, t: Text, n: nat)
    requires Selects(out, texts, at) && Below(at, n) && n < |texts| && IsSuffix(t, texts[n])
    ensures Selects(out + [t], texts, at + [n]) && Below(at + [n], n + 1)
  {
  }

  lemma {:induction false} FitSelects(texts: seq<Text>, n: nat, budget: int) returns (at: seq<nat>)
    requires n <= |texts|
    ensures Selects(FitTo(texts, n, budget), texts, at) && Below(at, n) && |at| <= n
  {
    at := [];
    if n > 0 && budget > 0 {
      var t := Tail(texts[n - 1], budget);
      TailIsSuffix(texts[n - 1], budget);
      at := FitSelects(texts, n - 1, Left(budget, t));
      if t != [] {
        SelectsSnoc(FitTo(texts, n - 1, Left(budget, t)), texts, at, t, n - 1);
        at := at + [n - 1];
      }
    }
  }

  lemma {:induction false} FitIsNonEmpty(texts: seq<Text>, n: nat, budget: int)
    requires n <= |texts|
    ensures forall k | 0 <= k < |FitTo(texts, n, budget)| :: FitTo(texts, n, budget)[k] != []
  {
    if n > 0 && budget > 0 {
      FitIsNonEmpty(texts, n - 1, Left(budget, Tail(texts[n - 1], budget)));
    }
  }

  lemma JoinLength(texts: seq<Text>, last: Text)
    ensures |Join(texts + [last])| == |last| + (if texts == [] then 0 else |Join(texts)| + 2)
  {
    if texts == [] {
      assert texts + [last] == [last];
    } else {
      JoinSnoc(texts, last);
    }
  }

  predicate JoinFits(out: seq<Text>, budget: int) {
    out == [] || |Join(out)| <= budget
  }

  lemma JoinFitsSnoc(rest: seq<Text>, t: Text, budget: int)
    requires |t| <= budget && JoinFits(rest, budget - |t| - 2)
    ensures JoinFits(rest + [t], budget)
  {
    JoinLength(rest, t);
  }

  lemma {:induction false} FitWithinBudget(texts: seq<Text>, n: nat, budget: int)
    requires n <= |texts|
    ensures JoinFits(FitTo(texts, n, budget), budget)
  {
    if n > 0 && budget > 0 {
      var t := Tail(texts[n - 1], budget);
      var rest := FitTo(texts, n - 1, Left(budget, t));
      FitWithinBudget(texts, n - 1, Left(budget, t));
      if t != [] {
        JoinFitsSnoc(rest, t, budget);
      }
    }
  }

  lemma TailKeepsValid(text: Text, budget: nat)
    requires Valid(text)
    ensures Valid(Tail(text, budget))
  {
    if |text| > budget {
      ValidSuffix(text, Skip(text, |text| - budget));
    }
  }

  predicate AllValid(texts: seq<Text>) {
    forall k | 0 <= k < |texts| :: Valid(texts[k])
  }

  lemma {:induction false} FitKeepsValid(texts: seq<Text>, n: nat, budget: int)
    requires n <= |texts| && AllValid(texts)
    ensures AllValid(FitTo(texts, n, budget))
  {
    if n > 0 && budget > 0 {
      TailKeepsValid(texts[n - 1], budget);
      FitKeepsValid(texts, n - 1, Left(budget, Tail(texts[n - 1], budget)));
    }
  }

  lemma KeptAgain(rest: seq<Text>, t: Text, budget: int)
    requires t != [] && |t| <= budget && FitTo(rest + [t], |rest|, Left(budget, t)) == rest
    ensures FitTo(rest + [t], |rest| + 1, budget) == rest + [t]
  {
    assert Tail(t, budget) == t;
  }

  /** Fitting what was fitted gives it back. */
  lemma {:induction false} FitAgain(texts: seq<Text>, n: nat, budget: int)
    requires n <= |texts|
    ensures var out := FitTo(texts, n, budget); FitTo(out, |out|, budget) == out
  {
    if n > 0 && budget > 0 {
      var t := Tail(texts[n - 1], budget);
      var rest := FitTo(texts, n - 1, Left(budget, t));
      FitAgain(texts, n - 1, Left(budget, t));
      if t != [] {
        FitPrefix(rest + [t], rest, |rest|, Left(budget, t));
        KeptAgain(rest, t, budget);
      }
    }
  }

  predicate NoneEmpty(texts: seq<Text>) {
    forall k | 0 <= k < |texts| :: texts[k] != []
  }

  lemma KeepsBoth(rest: seq<Text>, t: Text, front: seq<Text>, last: Text)
    requires |rest| <= |front|
    ensures Keep(rest, t) == front + [last] <==> rest == front && t == last && t != []
  {
    if t != [] && rest + [t] == front + [last] {
      assert |rest| == |front|;
      assert rest == (rest + [t])[..|rest|] == front;
      assert t == (rest + [t])[|rest|] == last;
    }
  }

  /** Appending a text to a history that fits: both need room, and a separator between them. */
  lemma WholeSnoc(front: seq<Text>, last: Text, budget: int)
    ensures NoneEmpty(front + [last]) && JoinFits(front + [last], budget) <==>
            last != [] && |last| <= budget && NoneEmpty(front) && JoinFits(front, budget - |last| - 2)
  {
    JoinLength(front, last);
    assert (front + [last])[..|front|] == front && (front + [last])[|front|] == last;
    if NoneEmpty(front + [last]) {
      assert forall k | 0 <= k < |front| :: front[k] == (front + [last])[k];
    }
  }

  /** Nothing is cut or left out exactly if there is room for everything and nothing is empty. */
  lemma {:induction false} FitIsLossless(texts: seq<Text>, n: nat, budget: int)
    requires n <= |texts|
    ensures FitTo(texts, n, budget) == texts[..n] <==> NoneEmpty(texts[..n]) && JoinFits(texts[..n], budget)
  {
    if n > 0 {
      var front, last := texts[..n - 1], texts[n - 1];
      assert texts[..n] == front + [last];
      WholeSnoc(front, last, budget);
      if budget > 0 {
        var t := Tail(last, budget);
        var at := FitSelects(texts, n - 1, Left(budget, t));
        KeepsBoth(FitTo(texts, n - 1, Left(budget, t)), t, front, last);
        FitIsLossless(texts, n - 1, Left(budget, t));
      }
    }
  }

  lemma BoundedIsLossless(texts: seq<Text>, budget: int, count: nat)
    ensures Bounded(texts, budget, count) == texts <==> |texts| <= count && NoneEmpty(texts) && JoinFits(texts, budget)
  {
    if |texts| <= count {
      FitIsLossless(texts, |texts|, budget);
      assert texts[..|texts|] == texts;
    } else {
      var kept := Newest(texts, count);
      var at := FitSelects(kept, |kept|, budget);
    }
  }

  /**
    For every input: an order-preserving selection of non-empty suffixes, at most `count` of them, whose
    join fits the budget; valid texts stay valid; bounding again changes nothing; and nothing is lost
    exactly if nothing had to be.
  */
  lemma BoundedHistory(texts: seq<Text>, budget: int, count: nat)
    ensures var out := Bounded(texts, budget, count);
            && SuffixesInOrder(out, Newest(texts, count)) && NoneEmpty(out) && |out| <= count
            && JoinFits(out, budget)
            && (AllValid(texts) ==> AllValid(out))
            && Bounded(out, budget, count) == out
            && (out == texts <==> |texts| <= count && NoneEmpty(texts) && JoinFits(texts, budget))
  {
    BoundedIsLossless(texts, budget, count);
    var kept := Newest(texts, count);
    var at := FitSelects(kept, |kept|, budget);
    FitIsNonEmpty(kept, |kept|, budget);
    FitWithinBudget(kept, |kept|, budget);
    FitAgain(kept, |kept|, budget);
    if AllValid(texts) {
      FitKeepsValid(kept, |kept|, budget);
    }
  }

  // ---------- what a cut leaves ----------

  /** In a valid text the next character is at most three bytes away. */
  lemma {:induction false} SkipsAtMostThree(text: Text, k: nat)
    requires Valid(text) && k <= |text|
    ensures Skip(text, k) - k <= 3
    decreases |text|
  {
    if k > 0 {
      var w := Sequence(text);
      if k <= w {
        SkipsWithin(text, k, w);
      } else {
        SkipsAtMostThree(text[w..], k - w);
        SkipShift(text, w, k);
      }
    }
  }

  lemma {:induction false} SkipShift(text: Text, w: nat, k: nat)
    requires w <= k <= |text|
    ensures Skip(text, k) == w + Skip(text[w..], k - w)
    decreases |text| - k
  {
    if k < |text| && IsContinuation(text[k]) {
      SkipShift(text, w, k + 1);
    }
  }

  lemma {:induction false} SkipsWithin(text: Text, k: nat, w: nat)
    requires Valid(text) && text != [] && w == Sequence(text) && 0 < k <= w
    ensures Skip(text, k) <= w
    decreases w - k
  {
    if k < w {
      SkipsWithin(text, k + 1, w);
    } else {
      var rest := text[w..];
      assert rest == [] || Sequence(rest) > 0;
    }
  }

  /** A cut of a valid text leaves at most one byte of budget for anything older. */
  lemma CutLeavesOneByte(text: Text, budget: nat)
    requires Valid(text) && |text| > budget
    ensures budget - |Tail(text, budget)| - 2 <= 1
  {
    SkipsAtMostThree(text, |text| - budget);
  }

  predicate NoTails(texts: seq<Text>, n: nat, budget: nat)
    requires n <= |texts|
  {
    forall k | 0 <= k < n :: Tail(texts[k], budget) == []
  }

  /** Nothing fits exactly if there is no budget or every text's own tail is empty. */
  lemma {:induction false} NothingFits(texts: seq<Text>, n: nat, budget: int)
    requires n <= |texts|
    ensures FitTo(texts, n, budget) == [] <==> budget <= 0 || NoTails(texts, n, budget)
  {
    if n > 0 && budget > 0 && Tail(texts[n - 1], budget) == [] {
      NothingFits(texts, n - 1, budget);
    }
  }

  /**
    When the newest text is the only one returned, for any bytes: if it uses the budget up, or none of
    the older texts has a tail for what is left.
  */
  lemma NewestIsOldest(older: seq<Text>, newest: Text, budget: nat, t: Text)
    requires budget > 0 && t == Tail(newest, budget) && t != []
    ensures Fit(older + [newest], budget) == [t] <==> Left(budget, t) <= 0 || NoTails(older, |older|, Left(budget, t))
  {
    var rest := FitTo(older, |older|, Left(budget, t));
    FitPrefix(older + [newest], older, |older|, Left(budget, t));
    NothingFits(older, |older|, Left(budget, t));
    assert |rest + [t]| == |rest| + 1;
  }

  /**
    A cut text is the oldest one returned exactly if the cut skipped fewer than three bytes, that is, did
    not fall one byte into a four-byte character, or no older text has a tail of one byte.
  */
  lemma CutTextIsOldest(older: seq<Text>, newest: Text, budget: nat)
    requires Valid(newest) && |newest| > budget > 0 && Tail(newest, budget) != []
    ensures var t := Tail(newest, budget);
            Fit(older + [newest], budget) == [t] <==> budget - |t| < 3 || NoTails(older, |older|, 1)
  {
    var t := Tail(newest, budget);
    CutLeavesOneByte(newest, budget);
    NewestIsOldest(older, newest, budget, t);
    assert Left(budget, t) <= 0 || Left(budget, t) == 1;
  }

  lemma TwoTexts(older: Text, newer: Text, end: Text, last: Text)
    requires Tail(newer, 4) == last && |last| == 1 && Tail(older, 1) == end && |end| == 1
    ensures Fit([older, newer], 4) == [end, last]
  {
    var both := [older, newer];
    assert FitTo(both, 0, Left(1, end)) == [];
    assert FitTo(both, 1, 1) == [] + [end] == [end];
    assert FitTo(both, 2, 4) == [end] + [last];
  }

  /** The other case happens: a cut one byte into a four-byte character, with an older text that ends in ASCII. */
  lemma OlderFragmentSurvivesCut()
    ensures var older: Text := [0x79, 0x7A]; var newer: Text := [0xF0, 0x9F, 0x98, 0x80, 0x61];
            Valid(older) && Valid(newer) && Fit([older, newer], 4) == [[0x7A], [0x61]]
  {
    var older: Text := [0x79, 0x7A];
    var newer: Text := [0xF0, 0x9F, 0x98, 0x80, 0x61];
    var last: Text := [0x61];
    var end: Text := [0x7A];
    assert Sequence(newer) == 4 && newer[4..] == last && Sequence(last) == 1 && last[1..] == [] && Valid(last);
    assert Sequence(older) == 1 && older[1..] == end && Sequence(end) == 1 && end[1..] == [] && Valid(end);
    assert Skip(newer, 4) == 4;
    assert Skip(newer, 3) == 4;
    assert Skip(newer, 2) == 4;
    assert Skip(newer, 1) == 4;
    assert Tail(newer, 4) == last && Tail(older, 1) == end;
    TwoTexts(older, newer, end, last);
  }

  // ---------- the preamble ----------

  const GUIDANCE_HEADER := "Earlier guidance (retain its author and authority; do not acknowledge separately):\n"
  const TURNS_HEADER := "Recent assistant turns before this fresh session:\n"

  datatype Record = Record(guidance: seq<Text>, turns: seq<Text>)

  function Preamble(record: Option<Record>, isFresh: bool): Text {
    if record.None? then []
    else
      var r := record.value;
      var guidance :=
        if r.guidance == [] then [] else [Ascii(GUIDANCE_HEADER) + Join(Bounded(r.guidance, GUIDANCE_BUDGET, GUIDANCE_COUNT))];
      var turns :=
        if !isFresh || r.turns == [] then [] else [Ascii(TURNS_HEADER) + Join(Bounded(r.turns, TURNS_BUDGET, TURN_COUNT))];
      if guidance + turns == [] then [] else Join(guidance + turns) + SEPARATOR
  }

  lemma SectionLength(header: string, texts: seq<Text>, budget: nat, count: nat)
    ensures |Ascii(header) + Join(Bounded(texts, budget, count))| <= |header| + budget
  {
    BoundedHistory(texts, budget, count);
  }

  lemma HeaderLengths()
    ensures |GUIDANCE_HEADER| == 83 && |TURNS_HEADER| == 50
  {
  }

  /** The documented eight kibibytes hold for any record whatsoever, bounded before or not. */
  lemma PreambleWithin8K(record: Option<Record>, isFresh: bool)
    ensures |Preamble(record, isFresh)| <= 8192
  {
    if record.Some? {
      var r := record.value;
      HeaderLengths();
      SectionLength(GUIDANCE_HEADER, r.guidance, GUIDANCE_BUDGET, GUIDANCE_COUNT);
      SectionLength(TURNS_HEADER, r.turns, TURNS_BUDGET, TURN_COUNT);
      var g := Ascii(GUIDANCE_HEADER) + Join(Bounded(r.guidance, GUIDANCE_BUDGET, GUIDANCE_COUNT));
      var t := Ascii(TURNS_HEADER) + Join(Bounded(r.turns, TURNS_BUDGET, TURN_COUNT));
      JoinLength([g], t);
      assert [g] + [t] == [g, t];
      assert Join([g]) == g && Join([t]) == t;
    }
  }

  // ---------- updateHistory ----------

  /** What updateHistory persists from the previous record, the newly delivered guidance and the new turns. */
  function UpdateHistory(previous: Record, delivered: seq<Text>, turns: seq<Text>): Record {
    Record(Bounded(previous.guidance + delivered, GUIDANCE_BUDGET, GUIDANCE_COUNT),
           Bounded(previous.turns + turns, TURNS_BUDGET, TURN_COUNT))
  }

  lemma BoundedIsStable(texts: seq<Text>, budget: int, count: nat)
    ensures Bounded(Bounded(texts, budget, count), budget, count) == Bounded(texts, budget, count)
    ensures Bounded(Bounded(texts, budget, count) + [], budget, count) == Bounded(texts, budget, count)
  {
    BoundedHistory(texts, budget, count);
    var out := Bounded(texts, budget, count);
    assert out + [] == out;
  }

  /** Re-bounding in the preamble changes nothing that a persisted record holds. */
  lemma PersistedHistoryIsStable(previous: Record, delivered: seq<Text>, turns: seq<Text>)
    ensures var r := UpdateHistory(previous, delivered, turns);
            && Bounded(r.guidance, GUIDANCE_BUDGET, GUIDANCE_COUNT) == r.guidance
            && Bounded(r.turns, TURNS_BUDGET, TURN_COUNT) == r.turns
            && UpdateHistory(r, [], []) == r
  {
    BoundedIsStable(previous.guidance + delivered, GUIDANCE_BUDGET, GUIDANCE_COUNT);
    BoundedIsStable(previous.turns + turns, TURNS_BUDGET, TURN_COUNT);
  }
}
