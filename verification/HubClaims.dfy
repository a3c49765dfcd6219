/** What settles stays settled, what has a receipt is not offered again, and what a claim hands out. */
module HubClaims {
  import opened Common
  import opened Utf8
  import opened HubModel
  import opened HubInvariants
  import opened HubSteps

  // ---------- how one item may change ----------

  /** The message itself never changes, and once it is settled nothing about it does. */
  predicate Evolves(i: Item, j: Item) {
    SameMessage(i, j) && (i.out.state != Accepted ==> j == i)
  }

  predicate EvolvesAt(h: Hub, items: seq<Item>, k: nat) {
    k < |h.items| ==> k < |items| && Evolves(h.items[k], items[k])
  }

  lemma SweepEvolves(h: Hub, sweep: Sweep, k: nat)
    ensures EvolvesAt(h, SweepAll(h, sweep).items, k)
  {
    forall l: Lines, n: nat | n < |l.items| && EvolvesAt(h, l.items, k) ensures EvolvesAt(h, SweepOne(l, h, sweep, n).items, k) {
      SweptSettles(h, sweep, l.items[n]);
    }
    SweepInduction(h, sweep, |h.items|, (l: Lines) => EvolvesAt(h, l.items, k));
  }

  lemma AdvanceEvolves(h: Hub, p: Batch, b: Boundary, n: nat, k: nat)
    requires n < |p.lines.items| && EvolvesAt(h, p.lines.items, k)
    ensures EvolvesAt(h, Advance(h, p, b, n).lines.items, k)
  {
    var r := VisitEdits(h, p, b, n);
  }

  lemma ScanEvolves(h: Hub, b: Boundary, k: nat)
    ensures EvolvesAt(h, Scan(h, b, |h.items|).lines.items, k)
  {
    forall p: Batch, n: nat | n < |p.lines.items| && EvolvesAt(h, p.lines.items, k)
      ensures EvolvesAt(h, Advance(h, p, b, n).lines.items, k)
    {
      AdvanceEvolves(h, p, b, n, k);
    }
    ScanInduction(h, b, |h.items|, (p: Batch, n: nat) => EvolvesAt(h, p.lines.items, k));
  }

  lemma PickedAreIncreasing(items: seq<Item>, picked: seq<nat>, full: bool, b: Boundary)
    requires PickedInOrder(items, picked, full, b, |items|)
    ensures Increasing(picked, |items|)
    ensures forall k | k in picked :: k < |items| && items[k].Pending()
  {
    forall k | k in picked ensures k < |items| && items[k].Pending() {
      var j :| 0 <= j < |picked| && picked[j] == k;
      assert Offerable(items[picked[j]], b);
    }
  }

  lemma HandOutEvolves(h: Hub, picked: seq<nat>, full: bool, b: Boundary, turn: nat, notice: NoticeText, k: nat)
    requires PickedInOrder(h.items, picked, full, b, |h.items|)
    ensures EvolvesAt(h, HandOut(h, picked, b, turn, notice).hub.items, k)
  {
    PickedAreIncreasing(h.items, picked, full, b);
    if k < |h.items| {
      TakeAllAt(LinesOf(h), picked, b, turn, k);
    }
  }

  lemma ClaimBatchEvolves(h: Hub, picked: seq<nat>, full: bool, b: Boundary, notice: NoticeText, k: nat)
    requires PickedInOrder(h.items, picked, full, b, |h.items|)
    ensures var g := ClaimBatch(h, picked, b, notice).hub;
            EvolvesAt(h, g.items, k) && g.delivered == h.delivered && |g.items| == |h.items|
  {
    var successor := NeedsSuccessor(h.items, picked, b);
    HandOutEvolves(h, picked, full, b, h.turn + (if successor then 1 else 0), notice, k);
  }

  lemma ClaimEvolves(h: Hub, b: Boundary, notice: NoticeText, k: nat)
    ensures var g := Claim(h, b, notice).hub;
            EvolvesAt(h, g.items, k) && g.delivered == h.delivered && |g.items| == |h.items|
  {
    if ClaimOpen(h, b) {
      var p := Scan(h, b, |h.items|);
      ScanEvolves(h, b, k);
      ScanPicks(h, b, |h.items|);
      ClaimBatchEvolves(With(h, p.lines), p.picked, p.full, b, notice, k);
    }
  }

  lemma EditEvolves(h: Hub, n: nat, i: Item, k: nat)
    requires n < |h.items| && h.items[n].out.state == Accepted && SameMessage(h.items[n], i)
    ensures EvolvesAt(h, h.items[n := i], k)
  {
  }

  lemma AckEvolves(h: Hub, id: Id, ack: Acknowledgement, now: int, k: nat)
    ensures EvolvesAt(h, Ack(h, id, ack, now).items, k)
  {
    if id in h.byId && h.byId[id].Listed? {
      var n := h.byId[id].k;
      if n < |h.items| && h.items[n].out.state == Accepted && h.items[n].claimed {
        EditEvolves(h, n, AckedItem(h, h.items[n], ack), k);
      }
    }
  }

  lemma AckStartEvolves(h: Hub, success: bool, now: int, k: nat)
    ensures EvolvesAt(h, AckStart(h, success, now).items, k)
  {
  }

  lemma FailPromptEvolves(h: Hub, id: Id, k: nat)
    ensures EvolvesAt(h, FailPrompt(h, id).items, k)
  {
    if id in h.byId && h.byId[id].Listed? {
      var n := h.byId[id].k;
      if n < |h.items| && h.items[n].out.state == Accepted {
        EditEvolves(h, n, PromptFailure(h, h.items[n]), k);
      }
    }
  }

  lemma SendEvolves(h: Hub, s: Step, k: nat)
    requires (s.DoSend? || s.DoStart? || s.DoCarry?) && Enabled(h, s)
    ensures EvolvesAt(h, Do(h, s).items, k)
  {
  }

  lemma SweepsEvolve(h: Hub, s: Step, k: nat)
    requires s.DoLoad? || s.DoSetCapability? || s.DoCancelPending? || s.DoFinish?
    ensures EvolvesAt(h, Do(h, s).items, k)
  {
    match s
    case DoLoad(rs, cutoff) => SweepEvolves(Remember(h, rs, cutoff), Deduplicating, k);
    case DoSetCapability(cap) => SweepEvolves(h.(cap := cap), Reconciling, k);
    case DoCancelPending => SweepEvolves(h.(cancelled := true), Cancelling, k);
    case DoFinish(reason) => SweepEvolves(h.(finished := true), Finishing(reason), k);
  }

  lemma LifetimesEvolve(h: Hub, s: Step, k: nat)
    requires (s.LifetimeEnds? || s.Withdraw?) && Enabled(h, s)
    ensures EvolvesAt(h, Do(h, s).items, k)
  {
    match s
    case LifetimeEnds(n) => EditEvolves(h, n, h.items[n].(gone := true), k);
    case Withdraw(n) => if h.items[n].Pending() { EditEvolves(h, n, FailedItem(h.items[n], Cancelled), k); }
  }

  /** Terminal states are absorbing. */
  lemma StepEvolves(h: Hub, s: Step, k: nat)
    requires Enabled(h, s)
    ensures EvolvesAt(h, Do(h, s).items, k)
  {
    if s.DoSend? || s.DoStart? || s.DoCarry? {
      SendEvolves(h, s, k);
    } else if s.DoLoad? || s.DoSetCapability? || s.DoCancelPending? || s.DoFinish? {
      SweepsEvolve(h, s, k);
    } else if s.LifetimeEnds? || s.Withdraw? {
      LifetimesEvolve(h, s, k);
    } else {
      match s
      case DoClaim(b, notice) => ClaimEvolves(h, b, notice, k);
      case DoAck(id, ack, now) => AckEvolves(h, id, ack, now, k);
      case DoAckStart(success, now) => AckStartEvolves(h, success, now, k);
      case DoFailPrompt(id) => FailPromptEvolves(h, id, k);
      case _ =>
    }
  }

  lemma SettledIsFinal(h: Hub, steps: seq<Step>, k: nat)
    requires k < |h.items|
    ensures EvolvesAt(h, Run(h, steps).items, k)
  {
    forall g: Hub, s: Step | EvolvesAt(h, g.items, k) && Enabled(g, s) ensures EvolvesAt(h, Do(g, s).items, k) {
      StepEvolves(g, s, k);
    }
    RunInduction(h, steps, (g: Hub) => EvolvesAt(h, g.items, k));
  }

  // ---------- receipts ----------

  /** No message that is still to be delivered has a receipt already. */
  ghost predicate ReceiptsOut(h: Hub) {
    forall k | 0 <= k < |h.items| && h.items[k].out.state == Accepted :: h.items[k].out.id !in h.delivered
  }

  /** A claimed message other than the starting prompt that loading these receipts leaves alone. */
  ghost predicate Overlooks(h: Hub, rs: seq<Receipt>, cutoff: int) {
    exists k, n | 0 <= k < |h.items| && 0 <= n < |rs| :: OverlooksAt(h, rs, cutoff, k, n)
  }

  lemma {:induction false} Remembered(h: Hub, rs: seq<Receipt>, cutoff: int, id: Id)
    ensures id in Remember(h, rs, cutoff).delivered <==> id in h.delivered || exists n | 0 <= n < |rs| :: rs[n].id == id && rs[n].at > cutoff
    decreases |rs|
  {
    if rs != [] {
      var front, last := rs[..|rs| - 1], |rs| - 1;
      Remembered(h, front, cutoff, id);
      if exists n | 0 <= n < |front| :: front[n].id == id && front[n].at > cutoff {
        var n :| 0 <= n < |front| && front[n].id == id && front[n].at > cutoff;
        assert rs[n] == front[n];
      }
      if exists n | 0 <= n < |rs| :: rs[n].id == id && rs[n].at > cutoff {
        var n :| 0 <= n < |rs| && rs[n].id == id && rs[n].at > cutoff;
        assert n == last || front[n] == rs[n];
      }
    }
  }

  lemma {:induction false} SweptAt(h: Hub, sweep: Sweep, n: nat, k: nat)
    requires n <= |h.items| && k < |h.items|
    ensures SweepTo(h, sweep, n).items[k] == if k < n then Swept(h, sweep, h.items[k]) else h.items[k]
  {
    if n > 0 {
      SweptAt(h, sweep, n - 1, k);
    }
  }

  predicate OverlooksAt(h: Hub, rs: seq<Receipt>, cutoff: int, k: nat, n: nat)
    requires k < |h.items| && n < |rs|
  {
    && h.items[k].out.state == Accepted && h.items[k].claimed && h.items[k].out.id != h.start
    && h.items[k].out.id == rs[n].id && rs[n].at > cutoff
  }

  lemma LoadedAt(h: Hub, rs: seq<Receipt>, cutoff: int, k: nat)
    requires k < |h.items|
    ensures var r := Remember(h, rs, cutoff); var g := Load(h, rs, cutoff);
            |g.items| == |h.items| && g.delivered == r.delivered && g.items[k] == Swept(r, Deduplicating, h.items[k])
  {
    var r := Remember(h, rs, cutoff);
    SweptAt(r, Deduplicating, |r.items|, k);
  }

  lemma LoadOverlooks(h: Hub, rs: seq<Receipt>, cutoff: int, k: nat, n: nat)
    requires k < |h.items| && n < |rs| && OverlooksAt(h, rs, cutoff, k, n)
    ensures !ReceiptsOut(Load(h, rs, cutoff))
  {
    var g := Load(h, rs, cutoff);
    LoadedAt(h, rs, cutoff, k);
    Remembered(h, rs, cutoff, h.items[k].out.id);
    assert g.items[k].out.state == Accepted && g.items[k].out.id in g.delivered;
  }

  lemma LoadCatches(h: Hub, rs: seq<Receipt>, cutoff: int, k: nat)
    requires ReceiptsOut(h) && !Overlooks(h, rs, cutoff) && k < |h.items|
    ensures var g := Load(h, rs, cutoff); |g.items| == |h.items| && (g.items[k].out.state == Accepted ==> g.items[k].out.id !in g.delivered)
  {
    var g, id := Load(h, rs, cutoff), h.items[k].out.id;
    LoadedAt(h, rs, cutoff, k);
    Remembered(h, rs, cutoff, id);
    if g.items[k].out.state == Accepted && id !in h.delivered {
      forall n | 0 <= n < |rs| ensures !(rs[n].id == id && rs[n].at > cutoff) || !h.items[k].claimed || id == h.start {
        assert !OverlooksAt(h, rs, cutoff, k, n);
      }
    }
  }

  /** Loading keeps receipts out exactly if it overlooks nothing. */
  lemma LoadReceipts(h: Hub, rs: seq<Receipt>, cutoff: int)
    requires ReceiptsOut(h)
    ensures ReceiptsOut(Load(h, rs, cutoff)) <==> !Overlooks(h, rs, cutoff)
  {
    if Overlooks(h, rs, cutoff) {
      var k, n :| 0 <= k < |h.items| && 0 <= n < |rs| && OverlooksAt(h, rs, cutoff, k, n);
      LoadOverlooks(h, rs, cutoff, k, n);
    } else {
      var g := Load(h, rs, cutoff);
      assert |g.items| == |h.items|;
      forall k | 0 <= k < |g.items| && g.items[k].out.state == Accepted ensures g.items[k].out.id !in g.delivered {
        LoadCatches(h, rs, cutoff, k);
      }
    }
  }

  // Every other step keeps receipts out unconditionally.

  lemma AckReceipts(h: Hub, id: Id, ack: Acknowledgement, now: int)
    requires Indexed(h) && ReceiptsOut(h)
    ensures ReceiptsOut(Ack(h, id, ack, now))
  {
    if id in h.byId {
      assert Resolves(h, id);
      match h.byId[id]
      case Listed(n) =>
        if h.items[n].out.state == Accepted && h.items[n].claimed {
          AckListedReceipts(h, n, ack, now);
        }
      case WrapUp =>
        if h.wrapUp.value.out.state == Accepted && h.wrapUp.value.claimed {
          AckNoticeReceipts(h, id, h.wrapUp.value, ack, now);
        }
    }
  }

  lemma Distinct(h: Hub, n: nat, k: nat)
    requires Indexed(h) && n < |h.items| && k < |h.items| && h.items[n].out.id == h.items[k].out.id
    ensures n == k
  {
    assert h.byId[h.items[n].out.id] == Listed(n);
    assert h.byId[h.items[k].out.id] == Listed(k);
  }

  lemma SettledReceipts(h: Hub, g: Hub, n: nat, i: Item)
    requires Indexed(h) && ReceiptsOut(h) && n < |h.items| && SameMessage(h.items[n], i)
    requires g.items == h.items[n := i] && (g.delivered == h.delivered || (g.delivered == h.delivered + {i.out.id} && i.out.state != Accepted))
    requires i.out.state == Accepted ==> h.items[n].out.state == Accepted
    ensures ReceiptsOut(g)
  {
    forall k | 0 <= k < |g.items| && g.items[k].out.state == Accepted ensures g.items[k].out.id !in g.delivered {
      if k != n && g.items[k].out.id == i.out.id {
        Distinct(h, n, k);
      }
    }
  }

  lemma AckListedReceipts(h: Hub, n: nat, ack: Acknowledgement, now: int)
    requires Indexed(h) && ReceiptsOut(h) && n < |h.items| && h.items[n].out.state == Accepted
    ensures ReceiptsOut(AckListed(h, n, ack, now))
  {
    SettledReceipts(h, AckListed(h, n, ack, now), n, AckedItem(h, h.items[n], ack));
  }

  lemma AckNoticeReceipts(h: Hub, id: Id, w: Item, ack: Acknowledgement, now: int)
    requires Indexed(h) && ReceiptsOut(h) && id in h.byId && h.byId[id] == WrapUp && h.wrapUp == Some(w) && w.out.id == id
    ensures ReceiptsOut(AckNotice(h, w, ack, now))
  {
    var g := AckNotice(h, w, ack, now);
    var i := AckedItem(h, w, ack);
    NoticeReceipts(h, g, id, i);
  }

  lemma NoticeReceipts(h: Hub, g: Hub, id: Id, i: Item)
    requires Indexed(h) && ReceiptsOut(h) && id in h.byId && h.byId[id] == WrapUp
    requires (g.items == h.items && g.delivered == h.delivered) || (g.items == h.items + [i] && i.out.state == Delivered && g.delivered == h.delivered + {id})
    ensures ReceiptsOut(g)
  {
    forall k | 0 <= k < |g.items| && g.items[k].out.state == Accepted ensures g.items[k].out.id !in g.delivered {
      if k < |h.items| {
        assert h.byId[h.items[k].out.id] == Listed(k);
      }
    }
  }

  lemma AdmissionReceipts(h: Hub, s: Step)
    requires (s.DoSend? || s.DoStart? || s.DoCarry?) && Enabled(h, s) && ReceiptsOut(h)
    ensures ReceiptsOut(Do(h, s))
  {
    match s
    case DoSend(m, valid, callerGone) => AppendReceipts(h, SendPass(h, m, valid, callerGone));
    case DoStart(id, text) => AppendReceipts(h, StartMessage(h, id, text));
    case DoCarry(prior, framed) => AppendReceipts(h, CarryPrompt(h, prior, framed));
  }

  lemma AppendReceipts(h: Hub, g: Hub)
    requires ReceiptsOut(h) && h.items <= g.items && AtMostOneMore(h, g) && g.delivered == h.delivered
    ensures ReceiptsOut(g)
  {
    forall k | 0 <= k < |g.items| && g.items[k].out.state == Accepted ensures g.items[k].out.id !in g.delivered {
      assert k < |h.items| ==> g.items[k] == h.items[k];
    }
  }

  lemma QuietReceipts(h: Hub, g: Hub)
    requires ReceiptsOut(h) && g.delivered == h.delivered && |g.items| == |h.items|
    requires forall k: nat :: EvolvesAt(h, g.items, k)
    ensures ReceiptsOut(g)
  {
    forall k | 0 <= k < |g.items| && g.items[k].out.state == Accepted ensures g.items[k].out.id !in g.delivered {
      assert EvolvesAt(h, g.items, k);
    }
  }

  lemma AckStartReceipts(h: Hub, success: bool, now: int)
    requires Indexed(h) && ReceiptsOut(h)
    ensures ReceiptsOut(AckStart(h, success, now))
  {
    if h.start in h.byId && h.byId[h.start].Listed? && h.byId[h.start].k < |h.items| && h.items[h.byId[h.start].k].out.state == Accepted {
      var k, g := h.byId[h.start].k, AckStart(h, success, now);
      SettledReceipts(h, g, k, g.items[k]);
    }
  }

  /** Everything that adds no item and no receipt. */
  predicate Quiet(s: Step) {
    !(s.DoSend? || s.DoStart? || s.DoCarry? || s.DoLoad? || s.DoAck? || s.DoAckStart?)
  }

  lemma QuietFrame(h: Hub, s: Step)
    requires Quiet(s) && Enabled(h, s)
    ensures Do(h, s).delivered == h.delivered && |Do(h, s).items| == |h.items|
  {
    if s.DoClaim? {
      ClaimEvolves(h, s.b, s.notice, 0);
    }
  }

  lemma QuietStep(h: Hub, s: Step)
    requires ReceiptsOut(h) && Quiet(s) && Enabled(h, s)
    ensures ReceiptsOut(Do(h, s))
  {
    QuietFrame(h, s);
    var g := Do(h, s);
    forall k: nat ensures EvolvesAt(h, g.items, k) {
      StepEvolves(h, s, k);
    }
    QuietReceipts(h, g);
  }

  /**
    Receipts stay out through every step, except exactly a load that overlooks a claimed message. As the
    Driver claims nothing before the load, that is a carried prompt: `carryPrompt` marks it claimed at
    once, and `load` passes over claimed messages other than the starting prompt.
  */
  lemma StepReceipts(h: Hub, s: Step)
    requires Indexed(h) && ReceiptsOut(h) && Enabled(h, s)
    ensures ReceiptsOut(Do(h, s)) <==> !(s.DoLoad? && Overlooks(h, s.rs, s.cutoff))
  {
    if s.DoLoad? {
      LoadReceipts(h, s.rs, s.cutoff);
    } else if s.DoAck? {
      AckReceipts(h, s.id, s.ack, s.now);
    } else if s.DoAckStart? {
      AckStartReceipts(h, s.success, s.now);
    } else if s.DoSend? || s.DoStart? || s.DoCarry? {
      AdmissionReceipts(h, s);
    } else {
      QuietStep(h, s);
    }
  }

  lemma OneReceipt(h: Hub, r: Receipt)
    requires h.delivered == {} && h.receipts == []
    ensures var g := Remember(h, [r], r.at - 1); g.delivered == {r.id} && g.receipts == [r]
  {
    assert [r][..0] == [];
    assert Remember(h, [], r.at - 1) == h;
  }

  lemma CarriedIsOverlooked(h: Hub, r: Receipt)
    requires h.delivered == {} && h.receipts == [] && h.start == "" && r.id != ""
    requires |h.items| == 1 && h.items[0].out.id == r.id && h.items[0].out.state == Accepted && h.items[0].claimed
    ensures Overlooks(h, [r], r.at - 1)
    ensures var g := Load(h, [r], r.at - 1);
            g.items == h.items && g.byId == h.byId && g.delivered == {r.id} && g.receipts == [r]
  {
    assert OverlooksAt(h, [r], r.at - 1, 0, 0);
    OneReceipt(h, r);
    LoadedAt(h, [r], r.at - 1, 0);
  }

  lemma AckFirst(h: Hub, id: Id, ack: Acknowledgement, now: int)
    requires id in h.byId && h.byId[id] == Listed(0) && |h.items| == 1 && h.items[0].out.id == id
    requires h.items[0].out.state == Accepted && h.items[0].claimed && ack.delivered
    ensures Ack(h, id, ack, now).receipts == h.receipts + [Receipt(id, now)]
  {
    assert Ack(h, id, ack, now) == AckListed(h, 0, ack, now);
  }

  /** A carried prompt whose receipt is loaded afterwards is delivered, and receipted, a second time. */
  lemma CarriedPromptDeliveredTwice(empty: Hub, prior: Outcome, framed: Text, at: int, now: int, ack: Acknowledgement)
    requires empty == NewHub(empty.policy, empty.cap, empty.resume, empty.limitId) && prior.id != "" && ack.delivered
    ensures var h := CarryPrompt(empty, prior, framed);
            var loaded := Load(h, [Receipt(prior.id, at)], at - 1);
            && Overlooks(h, [Receipt(prior.id, at)], at - 1)
            && prior.id in loaded.delivered && loaded.items == h.items && loaded.items[0].out.state == Accepted
            && Ack(loaded, prior.id, ack, now).receipts == [Receipt(prior.id, at), Receipt(prior.id, now)]
  {
    var h := CarryPrompt(empty, prior, framed);
    CarriedIsOverlooked(h, Receipt(prior.id, at));
    AckFirst(Load(h, [Receipt(prior.id, at)], at - 1), prior.id, ack, now);
  }

  /** No load along the run overlooks a message. */
  ghost predicate LoadsSafely(h: Hub, steps: seq<Step>)
    decreases |steps|
  {
    steps == [] ||
    (var front, s := steps[..|steps| - 1], steps[|steps| - 1];
     LoadsSafely(h, front) && (s.DoLoad? ==> !Overlooks(Run(h, front), s.rs, s.cutoff)))
  }

  lemma {:induction false} RunReceipts(h: Hub, steps: seq<Step>)
    requires Inv(h) && ReceiptsOut(h) && LoadsSafely(h, steps)
    ensures ReceiptsOut(Run(h, steps))
    decreases |steps|
  {
    if steps != [] {
      var front, s := steps[..|steps| - 1], steps[|steps| - 1];
      RunReceipts(h, front);
      RunKeepsInv(h, front);
      if Enabled(Run(h, front), s) {
        StepReceipts(Run(h, front), s);
      }
    }
  }
}
