/** The batch that a claim hands out, against a description that does not scan. */
module HubBatches {
  import opened Common
  import opened Utf8
  import opened HubModel
  import opened HubInvariants
  import opened HubSteps
  import opened HubClaims

  /** Messages among the first `n` that may be offered at this boundary, by admission order. */
  predicate Candidate(h: Hub, b: Boundary, i: Item) {
    i.Pending() && !Gone(h, i) && Eligible(i, b) && !Oversize(h, i.framed)
  }

  function Candidates(h: Hub, b: Boundary, n: nat): (ks: seq<nat>)
    requires n <= |h.items|
    ensures Within(ks, n)
  {
    if n == 0 then []
    else Candidates(h, b, n - 1) + if Candidate(h, b, h.items[n - 1]) then [n - 1] else []
  }

  function Texts(items: seq<Item>, ks: seq<nat>): (ts: seq<Text>)
    requires Within(ks, |items|)
    ensures |ts| == |ks|
  {
    seq(|ks|, j requires 0 <= j < |ks| => items[ks[j]].framed)
  }

  /** Within the capability's limit, if it has one. */
  predicate FitsLimit(cap: Capability, ts: seq<Text>) {
    cap.maxUnits > 0 && ts != [] ==> Units(Join(ts), cap.unit) <= cap.maxUnits
  }

  ghost predicate LongestPrefix(h: Hub, ks: seq<nat>, all: seq<nat>)
    requires Within(ks, |h.items|) && Within(all, |h.items|)
  {
    && ks <= all && FitsLimit(h.cap, Texts(h.items, ks))
    && (|ks| < |all| ==> !FitsLimit(h.cap, Texts(h.items, all[..|ks| + 1])))
  }

  // ---------- the scan finds it ----------

  lemma PartUnitsSnoc(ts: seq<Text>, t: Text, unit: Unit)
    ensures PartUnits(ts + [t], unit) == PartUnits(ts, unit) + (if ts == [] then 0 else 2) + Units(t, unit)
  {
    assert (ts + [t])[..|ts|] == ts;
  }

  lemma TextsSnoc(items: seq<Item>, ks: seq<nat>, k: nat)
    requires Within(ks, |items|) && k < |items|
    ensures Within(ks + [k], |items|) && Texts(items, ks + [k]) == Texts(items, ks) + [items[k].framed]
  {
  }

  /** Visited items were judged by what they were when the claim began. */
  ghost predicate Untouched(h: Hub, p: Batch, n: nat) {
    |p.lines.items| == |h.items| && (forall k | n <= k < |h.items| :: p.lines.items[k] == h.items[k])
  }

  ghost predicate Collected(h: Hub, p: Batch, b: Boundary, n: nat) {
    && n <= |h.items| && Untouched(h, p, n) && Within(p.picked, |h.items|)
    && p.picked <= Candidates(h, b, n)
    && p.units == PartUnits(Texts(h.items, p.picked), h.cap.unit)
    && (h.cap.maxUnits > 0 ==> p.units <= h.cap.maxUnits)
    && (forall j | 0 <= j < |p.picked| :: p.lines.items[p.picked[j]] == h.items[p.picked[j]])
    && if p.full then Stopped(h, p, Candidates(h, b, n)) else p.picked == Candidates(h, b, n)
  }

  /** The next candidate would have overfilled the batch. */
  ghost predicate Stopped(h: Hub, p: Batch, all: seq<nat>) {
    && |p.picked| < |all| && all[|p.picked|] < |h.items|
    && h.cap.maxUnits > 0 && |p.picked| > 0 && p.units + 2 + Units(h.items[all[|p.picked|]].framed, h.cap.unit) > h.cap.maxUnits
  }

  lemma PickCollects(h: Hub, p: Batch, b: Boundary, k: nat)
    requires k < |h.items| && Collected(h, p, b, k) && !p.full && Candidate(h, b, h.items[k])
    ensures Collected(h, Pick(h, p, k), b, k + 1)
  {
    var t := h.items[k].framed;
    TextsSnoc(h.items, p.picked, k);
    PartUnitsSnoc(Texts(h.items, p.picked), t, h.cap.unit);
    assert Candidates(h, b, k + 1) == p.picked + [k];
    assert Candidates(h, b, k + 1)[|p.picked|] == k;
  }

  lemma SkipCollects(h: Hub, p: Batch, q: Batch, b: Boundary, k: nat)
    requires k < |h.items| && Collected(h, p, b, k) && !p.full && !Candidate(h, b, h.items[k])
    requires q.picked == p.picked && q.units == p.units && !q.full
    requires |q.lines.items| == |h.items| && forall j | 0 <= j < |h.items| && j != k :: q.lines.items[j] == p.lines.items[j]
    ensures Collected(h, q, b, k + 1)
  {
    assert Candidates(h, b, k + 1) == Candidates(h, b, k);
  }

  lemma AdvanceCollects(h: Hub, p: Batch, b: Boundary, k: nat)
    requires k < |h.items| && Collected(h, p, b, k)
    ensures Collected(h, Advance(h, p, b, k), b, k + 1)
  {
    assert p.lines.items[k] == h.items[k];
    if !p.full {
      if Candidate(h, b, h.items[k]) {
        PickCollects(h, p, b, k);
      } else {
        SkipCollects(h, p, Advance(h, p, b, k), b, k);
      }
    }
  }

  lemma ScanCollects(h: Hub, b: Boundary, n: nat)
    requires n <= |h.items|
    ensures Collected(h, Scan(h, b, n), b, n)
  {
    forall p: Batch, k: nat | k < |p.lines.items| && k < |h.items| && Collected(h, p, b, k) ensures Collected(h, Advance(h, p, b, k), b, k + 1) {
      AdvanceCollects(h, p, b, k);
    }
    assert Candidates(h, b, 0) == [] && Texts(h.items, []) == [];
    ScanInduction(h, b, n, (p: Batch, k: nat) => |p.lines.items| == |h.items| && k <= |h.items| && Collected(h, p, b, k));
  }

  lemma FitsByParts(cap: Capability, ts: seq<Text>)
    ensures FitsLimit(cap, ts) <==> (cap.maxUnits > 0 && ts != [] ==> PartUnits(ts, cap.unit) <= cap.maxUnits)
  {
    JoinUnits(ts, cap.unit);
  }

  lemma CollectedIsLongest(h: Hub, p: Batch, b: Boundary)
    requires Collected(h, p, b, |h.items|)
    ensures LongestPrefix(h, p.picked, Candidates(h, b, |h.items|))
  {
    var all := Candidates(h, b, |h.items|);
    FitsByParts(h.cap, Texts(h.items, p.picked));
    if p.full {
      var next := all[|p.picked|];
      assert all[..|p.picked| + 1] == p.picked + [next];
      TextsSnoc(h.items, p.picked, next);
      PartUnitsSnoc(Texts(h.items, p.picked), h.items[next].framed, h.cap.unit);
      FitsByParts(h.cap, Texts(h.items, all[..|p.picked| + 1]));
    }
  }

  // ---------- the instruction ahead of the batch ----------

  lemma {:induction false} PartUnitsGrow(ts: seq<Text>, more: seq<Text>, unit: Unit)
    ensures PartUnits(ts, unit) <= PartUnits(ts + more, unit)
    decreases |more|
  {
    if more == [] {
      assert ts + more == ts;
    } else {
      var n := |more| - 1;
      PartUnitsGrow(ts, more[..n], unit);
      assert ts + more == (ts + more[..n]) + [more[n]];
      PartUnitsSnoc(ts + more[..n], more[n], unit);
    }
  }

  /** The running sum that stops early decides the same as the whole sum. */
  lemma {:induction false} FitsAheadExactly(h: Hub, ahead: seq<Text>, offers: seq<Offer>)
    requires ahead != [] && PartUnits(ahead, h.cap.unit) <= h.cap.maxUnits
    ensures FitsAhead(h, PartUnits(ahead, h.cap.unit), offers) <==> PartUnits(ahead + OfferTexts(offers), h.cap.unit) <= h.cap.maxUnits
    decreases |offers|
  {
    if offers == [] {
      assert ahead + OfferTexts(offers) == ahead;
    } else {
      var t := offers[0].text;
      assert OfferTexts(offers) == [t] + OfferTexts(offers[1..]);
      assert ahead + OfferTexts(offers) == (ahead + [t]) + OfferTexts(offers[1..]);
      PartUnitsSnoc(ahead, t, h.cap.unit);
      if Units(t, h.cap.unit) + 2 <= h.cap.maxUnits - PartUnits(ahead, h.cap.unit) {
        FitsAheadExactly(h, ahead + [t], offers[1..]);
      } else {
        PartUnitsGrow(ahead + [t], OfferTexts(offers[1..]), h.cap.unit);
      }
    }
  }

  /** The instruction joins exactly if it may be offered here and the whole batch with it fits. */
  lemma NoticeJoinsExactly(h: Hub, b: Boundary, i: Item, offers: seq<Offer>)
    ensures NoticeJoins(h, b, i, offers) <==>
            i.Pending() && (i.turnEndOnly ==> AtEnd(b)) && FitsLimit(h.cap, [i.framed] + OfferTexts(offers))
  {
    var ahead := [i.framed];
    assert PartUnits(ahead, h.cap.unit) == Units(i.framed, h.cap.unit);
    FitsByParts(h.cap, ahead + OfferTexts(offers));
    if h.cap.maxUnits > 0 {
      if PartUnits(ahead, h.cap.unit) <= h.cap.maxUnits {
        FitsAheadExactly(h, ahead, offers);
      } else {
        PartUnitsGrow(ahead, OfferTexts(offers), h.cap.unit);
      }
    }
  }

  function Wrapped(id: Id, n: nat): Id
    decreases n
  {
    if n == 0 then id else Wrapped(id + "-wrap", n - 1)
  }

  /** A new instruction takes the first id of its sequence that is neither known nor has a receipt. */
  lemma NoticeTakesFirstFreeId(h: Hub, timing: Timing, notice: NoticeText) returns (n: nat)
    requires h.wrapUp.None?
    ensures var id := NoticeItem(h, timing, notice).out.id;
            id == Wrapped(h.limitId, n) && id !in h.byId && id !in h.delivered
    ensures forall m | 0 <= m < n :: Wrapped(h.limitId, m) in h.byId || Wrapped(h.limitId, m) in h.delivered
  {
    n := FirstFreeId(h.limitId, h.byId.Keys + h.delivered);
  }

  lemma {:induction false} FirstFreeId(id: Id, taken: set<Id>) returns (n: nat)
    ensures FreshId(id, taken) == Wrapped(id, n) && Wrapped(id, n) !in taken
    ensures forall m | 0 <= m < n :: Wrapped(id, m) in taken
    decreases |AtLeast(taken, |id|)|
  {
    if id !in taken {
      n := 0;
    } else {
      StrictSubset(AtLeast(taken, |id + "-wrap"|), AtLeast(taken, |id|), id);
      var later := FirstFreeId(id + "-wrap", taken);
      n := later + 1;
      forall m | 0 <= m < n ensures Wrapped(id, m) in taken {
        if m > 0 {
          assert Wrapped(id, m) == Wrapped(id + "-wrap", m - 1);
        }
      }
    }
  }

  /** The policy promises the notice after min(ceil(0.8 * MaxTurns), MaxTurns - 1) turns. */
  lemma ThresholdIsDocumented(maxTurns: nat, fourFifths: int)
    requires 5 * (fourFifths - 1) < 4 * maxTurns <= 5 * fourFifths
    ensures Threshold(maxTurns) == if fourFifths < maxTurns - 1 then fourFifths else maxTurns - 1
  {
    assert maxTurns == 5 * (maxTurns / 5) + maxTurns % 5;
  }

  // ---------- the claim ----------

  lemma SameOffers(h: Hub, p: Batch, b: Boundary)
    requires Collected(h, p, b, |h.items|)
    ensures Offers(p.lines.items, p.picked) == Offers(h.items, p.picked)
    ensures OfferTexts(Offers(h.items, p.picked)) == Texts(h.items, p.picked)
    ensures NeedsSuccessor(p.lines.items, p.picked, b) == NeedsSuccessor(h.items, p.picked, b)
  {
  }

  /** `host` alone, or the instruction ahead of it; nothing at all unless `host` has something. */
  predicate HostWithNotice(offers: seq<Offer>, host: seq<Offer>) {
    offers == host || (host != [] && |offers| == |host| + 1 && offers[1..] == host)
  }

  lemma HandOutOffers(h: Hub, picked: seq<nat>, b: Boundary, turn: nat, notice: NoticeText)
    requires Within(picked, |h.items|) && FitsLimit(h.cap, OfferTexts(Offers(h.items, picked)))
    ensures var offers := HandOut(h, picked, b, turn, notice).offers;
            HostWithNotice(offers, Offers(h.items, picked)) && FitsLimit(h.cap, OfferTexts(offers))
  {
    var host := Offers(h.items, picked);
    var taken := With(h, TakeAll(LinesOf(h), picked, b, turn));
    if host != [] && WrapUpDue(h, turn) {
      var i := NoticeItem(taken, host[0].timing, notice);
      NoticeJoinsExactly(taken, b, i, host);
      assert OfferTexts([OfferOf(i)] + host) == [i.framed] + OfferTexts(host);
    }
  }

  lemma OffersWith(h: Hub, picked: seq<nat>, b: Boundary, successor: bool, notice: NoticeText)
    requires Within(picked, |h.items|) && FitsLimit(h.cap, OfferTexts(Offers(h.items, picked)))
    ensures var offers := ClaimWith(h, picked, b, successor, notice).offers;
            && (offers == [] <==> picked == [] || (successor && h.turn >= h.policy.maxTurns))
            && (offers != [] ==> HostWithNotice(offers, Offers(h.items, picked)))
            && FitsLimit(h.cap, OfferTexts(offers))
  {
    HandOutOffers(h, picked, b, h.turn + (if successor then 1 else 0), notice);
  }

  lemma BatchOffers(h: Hub, picked: seq<nat>, b: Boundary, notice: NoticeText)
    requires Within(picked, |h.items|) && FitsLimit(h.cap, OfferTexts(Offers(h.items, picked)))
    ensures var offers := ClaimBatch(h, picked, b, notice).offers;
            && (offers == [] <==> picked == [] || (NeedsSuccessor(h.items, picked, b) && h.turn >= h.policy.maxTurns))
            && (offers != [] ==> HostWithNotice(offers, Offers(h.items, picked)))
            && FitsLimit(h.cap, OfferTexts(offers))
  {
    OffersWith(h, picked, b, NeedsSuccessor(h.items, picked, b), notice);
  }

  predicate Withheld(h: Hub, b: Boundary, ks: seq<nat>)
    requires Within(ks, |h.items|)
  {
    !ClaimOpen(h, b) || ks == [] || (NeedsSuccessor(h.items, ks, b) && h.turn >= h.policy.maxTurns)
  }

  /**
    The host part of a claim is the longest prefix of the candidates whose join fits the limit, or
    nothing when it needs a successor turn and none remains; the instruction comes only ahead of at
    least one host message, and the join of the whole batch fits.
  */
  lemma ClaimHandsOutLongestPrefix(h: Hub, b: Boundary, notice: NoticeText) returns (ks: seq<nat>)
    ensures Within(ks, |h.items|) && LongestPrefix(h, ks, Candidates(h, b, |h.items|))
    ensures Claim(h, b, notice).offers == [] <==> Withheld(h, b, ks)
    ensures Claim(h, b, notice).offers != [] ==> HostWithNotice(Claim(h, b, notice).offers, Offers(h.items, ks))
    ensures FitsLimit(h.cap, OfferTexts(Claim(h, b, notice).offers))
  {
    var p := Scan(h, b, |h.items|);
    ks := p.picked;
    ScanCollects(h, b, |h.items|);
    CollectedIsLongest(h, p, b);
    SameOffers(h, p, b);
    BatchOffers(With(h, p.lines), ks, b, notice);
  }

  /** No host message that a claim offers has a receipt. */
  lemma ReceiptNeverClaimed(h: Hub, b: Boundary, notice: NoticeText, ks: seq<nat>)
    requires ReceiptsOut(h) && Within(ks, |h.items|) && LongestPrefix(h, ks, Candidates(h, b, |h.items|))
    ensures forall j | 0 <= j < |ks| :: Offers(h.items, ks)[j].id !in h.delivered
  {
    forall j | 0 <= j < |ks| ensures Offers(h.items, ks)[j].id !in h.delivered {
      CandidatesArePending(h, b, |h.items|, j);
    }
  }

  lemma {:induction false} CandidatesArePending(h: Hub, b: Boundary, n: nat, j: nat)
    requires n <= |h.items| && j < |Candidates(h, b, n)|
    ensures Candidate(h, b, h.items[Candidates(h, b, n)[j]])
  {
    if n > 0 && j < |Candidates(h, b, n - 1)| {
      CandidatesArePending(h, b, n - 1, j);
    }
  }
}
