/** Every step of the message hub keeps the invariant. */
module HubSteps {
  import opened Common
  import opened Utf8
  import opened HubModel
  import opened HubInvariants

  lemma OneEntry(p: Phase, e: Entry, id: Id, maxTurns: nat)
    requires About(e, id) && (e.Handed? ==> 1 <= e.turn <= maxTurns)
    ensures Concerns([e], id, maxTurns) && Fold(p, [e], id) == Next(p, e)
  {
    FoldOne(p, e, id);
  }

  lemma TwoEntries(p: Phase, e: Entry, f: Entry, id: Id, maxTurns: nat)
    requires About(e, id) && About(f, id) && (e.Handed? ==> 1 <= e.turn <= maxTurns) && (f.Handed? ==> 1 <= f.turn <= maxTurns)
    ensures Concerns([e, f], id, maxTurns) && Fold(p, [e, f], id) == Next(Next(p, e), f)
  {
    FoldTwo(p, e, f, id);
  }

  // ---------- settling a listed item ----------

  /** `j` settles `i` and leaves the message and its turn as they were; a deduplicated one has no turn. */
  predicate Settles(i: Item, j: Item) {
    && i.out.state == Accepted && j.out.state != Accepted
    && SameMessage(i, j) && (j.out.turn == 0 || j.out.turn == i.out.turn)
  }

  lemma SettleKeepsInv(h: Hub, l: Lines, k: nat, i: Item)
    requires Inv(With(h, l)) && k < |l.items| && Settles(l.items[k], i)
    ensures Inv(With(h, Edit(l, k, i, [UpdateOf(i)])))
  {
    var g := With(h, l);
    assert HostOrDelivered(g.items[k]) && TurnLawful(g.items[k], h.policy.maxTurns);
    OneEntry(PhaseOf(l.items[k]), UpdateOf(i), i.out.id, h.policy.maxTurns);
    EditKeepsInv(h, l, k, i, [UpdateOf(i)]);
  }

  lemma SettleNow(h: Hub, k: nat, i: Item)
    requires Inv(h) && k < |h.items| && Settles(h.items[k], i)
    ensures Inv(Put(h, k, i, [UpdateOf(i)]))
  {
    assert With(h, LinesOf(h)) == h;
    SettleKeepsInv(h, LinesOf(h), k, i);
  }

  lemma FailKeepsInv(h: Hub, l: Lines, k: nat, r: Reason)
    requires Inv(With(h, l)) && k < |l.items| && l.items[k].out.state == Accepted
    ensures Inv(With(h, Fail(l, k, r)))
  {
    SettleKeepsInv(h, l, k, FailedItem(l.items[k], r));
  }

  lemma SweptSettles(h: Hub, sweep: Sweep, i: Item)
    ensures var j := Swept(h, sweep, i); j == i || Settles(i, j)
  {
  }

  lemma SweepOneKeepsInv(h: Hub, l: Lines, sweep: Sweep, k: nat)
    requires Inv(With(h, l)) && k < |l.items|
    ensures Inv(With(h, SweepOne(l, h, sweep, k)))
  {
    var i := Swept(h, sweep, l.items[k]);
    SweptSettles(h, sweep, l.items[k]);
    if i != l.items[k] {
      SettleKeepsInv(h, l, k, i);
    }
  }

  /** A loop over the items keeps what each of its passes keeps. */
  lemma {:induction false} SweepInduction(h: Hub, sweep: Sweep, n: nat, keep: Lines -> bool)
    requires n <= |h.items| && keep(LinesOf(h))
    requires forall l: Lines, k: nat | k < |l.items| && keep(l) :: keep(SweepOne(l, h, sweep, k))
    ensures keep(SweepTo(h, sweep, n))
  {
    if n > 0 {
      SweepInduction(h, sweep, n - 1, keep);
    }
  }

  lemma SweepKeepsInv(h: Hub, sweep: Sweep)
    requires Inv(h)
    ensures Inv(SweepAll(h, sweep))
  {
    assert With(h, LinesOf(h)) == h;
    forall l: Lines, k: nat | k < |l.items| && Inv(With(h, l)) ensures Inv(With(h, SweepOne(l, h, sweep, k))) {
      SweepOneKeepsInv(h, l, sweep, k);
    }
    SweepInduction(h, sweep, |h.items|, l => Inv(With(h, l)));
  }

  lemma SweepAllKeepsInv(h: Hub, g: Hub, sweep: Sweep)
    requires Inv(h) && SameCore(h, g)
    ensures Inv(SweepAll(g, sweep))
  {
    SameCoreKeepsInv(h, g);
    SweepKeepsInv(g, sweep);
  }

  // ---------- admission ----------

  lemma {:induction false} NeverHandedIsPending(h: Hub, items: seq<Item>)
    requires forall k | 0 <= k < |items| :: TurnLawful(items[k], h.policy.maxTurns)
    ensures NeverHandedCount(items) <= PendingCount(items)
    decreases |items|
  {
    if items != [] {
      NeverHandedIsPending(h, items[..|items| - 1]);
    }
  }

  lemma SendNewKeepsInv(h: Hub, m: Message)
    requires Inv(h) && m.id !in h.byId && PendingCount(h.items) < h.policy.maxPending
    ensures Inv(Append(h, NewItem(m, Sent), [UpdateOf(NewItem(m, Sent))]))
  {
    var i := NewItem(m, Sent);
    NeverHandedIsPending(h, h.items);
    OneEntry(Unknown, UpdateOf(i), m.id, h.policy.maxTurns);
    AppendKeepsInv(h, i, [UpdateOf(i)]);
  }

  lemma SendKeepsInv(h: Hub, m: Message, valid: bool, callerGone: bool)
    requires Inv(h)
    ensures Inv(SendPass(h, m, valid, callerGone))
  {
    if SendVerdict(h, m, valid, callerGone).Admitted? && m.id !in h.byId {
      if m.id in h.delivered {
        var i := NewItem(m, Sent).(framed := []);
        var taken := i.(out := i.out.(mechanism := CoreDedupe));
        var done := taken.(out := taken.out.(state := Delivered));
        TwoEntries(Unknown, UpdateOf(taken), UpdateOf(done), m.id, h.policy.maxTurns);
        AppendKeepsInv(h, done, [UpdateOf(taken), UpdateOf(done)]);
      } else {
        SendNewKeepsInv(h, m);
      }
    }
  }

  lemma HeldKeepsInv(h: Hub, i: Item, at: Option<Boundary>)
    requires Inv(h) && i.out.id !in h.byId
    requires i.out.state == Accepted && i.claimed && i.out.turn == 1 && !i.turnEndOnly && !i.duplicate
    requires i.origin == Starting || i.origin == Carried
    ensures Inv(Append(h, i, [UpdateOf(i), Handed(i.out.id, at, 1, false)]))
  {
    TwoEntries(Unknown, UpdateOf(i), Handed(i.out.id, at, 1, false), i.out.id, h.policy.maxTurns);
    AppendKeepsInv(h, i, [UpdateOf(i), Handed(i.out.id, at, 1, false)]);
  }

  lemma NewStartKeepsInv(h: Hub, id: Id)
    requires Inv(h) && id in h.byId && h.byId[id].Listed?
    ensures Inv(h.(start := id))
  {
    var g := h.(start := id);
    forall x | x in g.byId ensures Resolves(g, x) {
      assert Resolves(h, x);
    }
    forall x: Id ensures PhaseIn(g.log, x) == Expected(g, x) {
      assert PhaseIn(h.log, x) == Expected(h, x);
    }
    assert h.log + [] == g.log;
    EntriesKept(h, g, []);
  }

  lemma DedupedStartKeepsInv(h: Hub, done: Item)
    requires Inv(h) && done.out.id !in h.byId && done.out.state == Delivered && done.out.turn == 0 && done.origin == Starting
    ensures Inv(Append(h, done, [UpdateOf(done)]))
  {
    OneEntry(Unknown, UpdateOf(done), done.out.id, h.policy.maxTurns);
    AppendKeepsInv(h, done, [UpdateOf(done)]);
  }

  lemma HeldStartKeepsInv(h: Hub, held: Item)
    requires Inv(h) && held.out.id !in h.byId && held.out.state == Accepted && held.claimed && held.out.turn == 1
    requires !held.turnEndOnly && !held.duplicate && held.origin == Starting
    ensures Inv(Append(h, held, [UpdateOf(held), Handed(held.out.id, None, 1, false)]).(start := held.out.id))
  {
    var g := Append(h, held, [UpdateOf(held), Handed(held.out.id, None, 1, false)]);
    HeldKeepsInv(h, held, None);
    assert g.byId[held.out.id] == Listed(|h.items|);
    NewStartKeepsInv(g, held.out.id);
  }

  lemma StartKeepsInv(h: Hub, id: Id, text: Text)
    requires Inv(h) && id !in h.byId
    ensures Inv(StartMessage(h, id, text))
  {
    var i := NewItem(Message(id, text, Soon, []), Starting);
    if id in h.delivered {
      DedupedStartKeepsInv(h, i.(out := i.out.(state := Delivered, mechanism := CoreDedupe)));
    } else {
      HeldStartKeepsInv(h, i.(out := i.out.(turn := 1), claimed := true));
    }
  }

  lemma CarryKeepsInv(h: Hub, prior: Outcome, framed: Text)
    requires Inv(h)
    ensures Inv(CarryPrompt(h, prior, framed))
  {
    if prior.id !in h.delivered && prior.id !in h.byId {
      var out := prior.(state := Accepted, reason := NoReason, turn := 1);
      HeldKeepsInv(h, Item(out, framed, Carried, false, true, Some(TurnEnd), false, false), Some(TurnEnd));
    }
  }

  // ---------- acknowledgements ----------

  lemma ReceiveKeepsInv(h: Hub, id: Id, now: int)
    requires Inv(h)
    ensures Inv(Receive(h, id, now))
  {
    SameCoreKeepsInv(h, Receive(h, id, now));
  }

  lemma RequeueKeepsInv(h: Hub, k: nat, ack: Acknowledgement)
    requires Inv(h) && k < |h.items| && h.items[k].out.state == Accepted && h.items[k].claimed
    requires AckedItem(h, h.items[k], ack).out.state == Accepted
    ensures var i := AckedItem(h, h.items[k], ack);
            Inv(Put(h, k, i, [Returned(i.out.id, ack.maybe), UpdateOf(i)]))
  {
    var i := AckedItem(h, h.items[k], ack);
    assert HostOrDelivered(h.items[k]) && TurnLawful(h.items[k], h.policy.maxTurns);
    TwoEntries(PhaseOf(h.items[k]), Returned(i.out.id, ack.maybe), UpdateOf(i), i.out.id, h.policy.maxTurns);
    PutKeepsInv(h, k, i, [Returned(i.out.id, ack.maybe), UpdateOf(i)]);
  }

  lemma DeliveredAckKeepsInv(h: Hub, k: nat, i: Item, now: int)
    requires Inv(h) && k < |h.items| && Settles(h.items[k], i)
    ensures Inv(Put(h, k, i, [UpdateOf(i)])) && Inv(Receive(Put(h, k, i, [UpdateOf(i)]), i.out.id, now))
  {
    SettleNow(h, k, i);
    ReceiveKeepsInv(Put(h, k, i, [UpdateOf(i)]), i.out.id, now);
  }

  lemma AckedSettles(h: Hub, i: Item, ack: Acknowledgement)
    requires i.out.state == Accepted && AckedItem(h, i, ack).out.state != Accepted
    ensures Settles(i, AckedItem(h, i, ack))
  {
  }

  lemma AckListedKeepsInv(h: Hub, k: nat, ack: Acknowledgement, now: int)
    requires Inv(h) && k < |h.items| && h.items[k].out.state == Accepted && h.items[k].claimed
    ensures Inv(AckListed(h, k, ack, now))
  {
    var i := AckedItem(h, h.items[k], ack);
    if i.out.state == Accepted {
      RequeueKeepsInv(h, k, ack);
    } else {
      AckedSettles(h, h.items[k], ack);
      DeliveredAckKeepsInv(h, k, i, now);
    }
  }

  lemma NoticeDeliveredKeepsInv(h: Hub, w: Item, i: Item)
    requires Inv(h) && h.wrapUp == Some(w) && w.out.state == Accepted
    requires SameMessage(w, i) && i.out.state == Delivered && i.out.turn == w.out.turn
    ensures Inv(ListNotice(h, i, [UpdateOf(i)]))
  {
    assert NoticeIndexed(h, w) && TurnLawful(w, h.policy.maxTurns);
    OneEntry(PhaseOf(w), UpdateOf(i), i.out.id, h.policy.maxTurns);
    ListNoticeKeepsInv(h, i, [UpdateOf(i)]);
  }

  lemma NoticeKeptOutKeepsInv(h: Hub, w: Item, i: Item, e: Entry)
    requires Inv(h) && h.wrapUp == Some(w) && w.out.state == Accepted
    requires SameMessage(w, i) && i.out.state != Delivered && i.out.turn == w.out.turn
    requires About(e, i.out.id) && !e.Handed? && Next(PhaseOf(w), e) == PhaseOf(i) && (i.out.state == Accepted ==> w.claimed)
    ensures Inv(PutNotice(h, i, [e]))
  {
    assert NoticeIndexed(h, w) && TurnLawful(w, h.policy.maxTurns);
    OneEntry(PhaseOf(w), e, i.out.id, h.policy.maxTurns);
    PutNoticeKeepsInv(h, i, [e]);
  }

  lemma NoticeIsPolicy(h: Hub, w: Item)
    requires Inv(h) && h.wrapUp == Some(w)
    ensures w.origin == Policy
  {
    assert NoticeIndexed(h, w);
  }

  lemma NoticeUndeliveredKeepsInv(h: Hub, w: Item, ack: Acknowledgement)
    requires Inv(h) && h.wrapUp == Some(w) && w.out.state == Accepted && w.claimed && AckedItem(h, w, ack).out.state != Delivered
    ensures var i := AckedItem(h, w, ack);
            Inv(PutNotice(h, i, [if i.out.state == Failed then Discarded(i.out.id) else Returned(i.out.id, ack.maybe)]))
  {
    var i := AckedItem(h, w, ack);
    NoticeIsPolicy(h, w);
    NoticeKeptOutKeepsInv(h, w, i, if i.out.state == Failed then Discarded(i.out.id) else Returned(i.out.id, ack.maybe));
  }

  lemma AckNoticeKeepsInv(h: Hub, w: Item, ack: Acknowledgement, now: int)
    requires Inv(h) && h.wrapUp == Some(w) && w.out.state == Accepted && w.claimed
    ensures Inv(AckNotice(h, w, ack, now))
  {
    var i := AckedItem(h, w, ack);
    if i.out.state == Delivered {
      NoticeDeliveredKeepsInv(h, w, i);
      ReceiveKeepsInv(ListNotice(h, i, [UpdateOf(i)]), i.out.id, now);
    } else {
      NoticeUndeliveredKeepsInv(h, w, ack);
    }
  }

  lemma AckKeepsInv(h: Hub, id: Id, ack: Acknowledgement, now: int)
    requires Inv(h)
    ensures Inv(Ack(h, id, ack, now))
  {
    if id in h.byId {
      match h.byId[id]
      case Listed(k) =>
        if k < |h.items| && h.items[k].out.state == Accepted && h.items[k].claimed {
          AckListedKeepsInv(h, k, ack, now);
        }
      case WrapUp =>
        if h.wrapUp.Some? && h.wrapUp.value.out.state == Accepted && h.wrapUp.value.claimed {
          AckNoticeKeepsInv(h, h.wrapUp.value, ack, now);
        }
    }
  }

  lemma AckStartAtKeepsInv(h: Hub, k: nat, success: bool, now: int)
    requires Inv(h) && k < |h.items| && h.items[k].out.state == Accepted
    ensures Inv(AckStartAt(h, k, success, now))
  {
    var i := h.items[k].(claimed := false);
    if success {
      var done := i.(out := i.out.(state := Delivered, mechanism := CorePrompt));
      SettleNow(h, k, done);
      ReceiveKeepsInv(Put(h, k, done, [UpdateOf(done)]), done.out.id, now);
    } else {
      SettleNow(h, k, FailedItem(i, if h.gone then Cancelled else RunFailed));
    }
  }

  lemma AckStartKeepsInv(h: Hub, success: bool, now: int)
    requires Inv(h)
    ensures Inv(AckStart(h, success, now))
  {
    if h.start in h.byId && h.byId[h.start].Listed? && h.byId[h.start].k < |h.items| && h.items[h.byId[h.start].k].out.state == Accepted {
      AckStartAtKeepsInv(h, h.byId[h.start].k, success, now);
    }
  }

  lemma FailPromptKeepsInv(h: Hub, id: Id)
    requires Inv(h)
    ensures Inv(FailPrompt(h, id))
  {
    if id in h.byId {
      assert Resolves(h, id);
      match h.byId[id]
      case Listed(k) =>
        if h.items[k].out.state == Accepted {
          SettleNow(h, k, PromptFailure(h, h.items[k]));
        }
      case WrapUp =>
        var w := h.wrapUp.value;
        NoticeIsPolicy(h, w);
        if w.out.state == Accepted {
          NoticeKeptOutKeepsInv(h, w, PromptFailure(h, w), Discarded(id));
        }
    }
  }

  // ---------- claims ----------

  /** A visit edits nothing but the item it fails. */
  lemma VisitEdits(h: Hub, p: Batch, b: Boundary, k: nat) returns (r: Reason)
    requires k < |p.lines.items|
    ensures var l := Advance(h, p, b, k).lines;
            l == p.lines || (p.lines.items[k].Pending() && !p.full && l == Fail(p.lines, k, r))
  {
    r := if Gone(h, p.lines.items[k]) then Cancelled else LimitExceeded;
  }

  lemma AdvanceKeepsInv(h: Hub, p: Batch, b: Boundary, k: nat)
    requires Inv(With(h, p.lines)) && k < |p.lines.items|
    ensures Inv(With(h, Advance(h, p, b, k).lines))
  {
    var r := VisitEdits(h, p, b, k);
    if p.lines.items[k].Pending() {
      FailKeepsInv(h, p.lines, k, r);
    }
  }

  lemma {:induction false} ScanInduction(h: Hub, b: Boundary, n: nat, keep: (Batch, nat) -> bool)
    requires n <= |h.items| && keep(Batch(LinesOf(h), [], 0, false), 0)
    requires forall p: Batch, k: nat | k < |p.lines.items| && keep(p, k) :: keep(Advance(h, p, b, k), k + 1)
    ensures keep(Scan(h, b, n), n)
  {
    if n > 0 {
      ScanInduction(h, b, n - 1, keep);
    }
  }

  lemma ScanKeepsInv(h: Hub, b: Boundary)
    requires Inv(h)
    ensures Inv(With(h, Scan(h, b, |h.items|).lines))
  {
    assert With(h, LinesOf(h)) == h;
    forall p: Batch, k: nat | k < |p.lines.items| && Inv(With(h, p.lines)) ensures Inv(With(h, Advance(h, p, b, k).lines)) {
      AdvanceKeepsInv(h, p, b, k);
    }
    ScanInduction(h, b, |h.items|, (p: Batch, n: nat) => Inv(With(h, p.lines)));
  }

  predicate Offerable(i: Item, b: Boundary) {
    i.Pending() && Eligible(i, b)
  }

  /** Which items were picked: eligible pending ones, in order, none of them passed over. */
  ghost predicate PickedInOrder(items: seq<Item>, picked: seq<nat>, full: bool, b: Boundary, n: nat) {
    && n <= |items| && Within(picked, n)
    && (forall j | 0 <= j < |picked| :: Offerable(items[picked[j]], b))
    && (forall i, j | 0 <= i < j < |picked| :: picked[i] < picked[j])
    && (!full ==> forall i | 0 <= i < n && Offerable(items[i], b) :: i in picked)
    && (forall i, j | 0 <= j < |picked| && 0 <= i < picked[j] && Offerable(items[i], b) :: i in picked)
  }

  lemma PickPicks(items: seq<Item>, picked: seq<nat>, b: Boundary, k: nat)
    requires PickedInOrder(items, picked, false, b, k) && k < |items| && Offerable(items[k], b)
    ensures PickedInOrder(items, picked + [k], false, b, k + 1)
    ensures PickedInOrder(items, picked, true, b, k + 1)
  {
    var q := picked + [k];
    assert q[|picked|] == k;
    forall i | i in picked ensures i in q {
    }
  }

  lemma FailPicks(items: seq<Item>, picked: seq<nat>, b: Boundary, k: nat, i: Item)
    requires PickedInOrder(items, picked, false, b, k) && k < |items| && !Offerable(i, b)
    ensures PickedInOrder(items[k := i], picked, false, b, k + 1)
  {
  }

  lemma VisitPicks(h: Hub, p: Batch, b: Boundary, k: nat)
    requires PickedInOrder(p.lines.items, p.picked, false, b, k) && k < |p.lines.items| && !p.full
    ensures var q := Visit(h, p, b, k); PickedInOrder(q.lines.items, q.picked, q.full, b, k + 1)
  {
    var i := p.lines.items[k];
    if !Offerable(i, b) {
      assert p.lines.items[k := i] == p.lines.items;
      FailPicks(p.lines.items, p.picked, b, k, i);
    } else {
      PickPicks(p.lines.items, p.picked, b, k);
    }
    FailPicks(p.lines.items, p.picked, b, k, FailedItem(i, Cancelled));
    FailPicks(p.lines.items, p.picked, b, k, FailedItem(i, LimitExceeded));
  }

  lemma FullStays(items: seq<Item>, picked: seq<nat>, b: Boundary, n: nat)
    requires PickedInOrder(items, picked, true, b, n) && n < |items|
    ensures PickedInOrder(items, picked, true, b, n + 1)
  {
  }

  ghost predicate BatchInOrder(p: Batch, b: Boundary, n: nat) {
    PickedInOrder(p.lines.items, p.picked, p.full, b, n)
  }

  lemma AdvancePicks(h: Hub, p: Batch, b: Boundary, k: nat)
    requires k < |p.lines.items| && BatchInOrder(p, b, k)
    ensures BatchInOrder(Advance(h, p, b, k), b, k + 1)
  {
    if p.full {
      FullStays(p.lines.items, p.picked, b, k);
    } else {
      VisitPicks(h, p, b, k);
    }
  }

  lemma ScanPicks(h: Hub, b: Boundary, n: nat)
    requires n <= |h.items|
    ensures BatchInOrder(Scan(h, b, n), b, n)
  {
    forall p: Batch, k: nat | k < |p.lines.items| && BatchInOrder(p, b, k) ensures BatchInOrder(Advance(h, p, b, k), b, k + 1) {
      AdvancePicks(h, p, b, k);
    }
    ScanInduction(h, b, n, (p: Batch, k: nat) => BatchInOrder(p, b, k));
  }

  lemma TakeKeepsInv(h: Hub, l: Lines, k: nat, b: Boundary, turn: nat)
    requires Inv(With(h, l)) && k < |l.items| && Offerable(l.items[k], b) && 1 <= turn <= h.policy.maxTurns
    requires l.items[k].out.turn == 0 ==> FirstOfTiming(With(h, l), k)
    ensures Inv(With(h, Take(l, k, b, turn)))
  {
    var i, j := l.items[k], TakenItem(l.items[k], b, turn);
    var g := With(h, l);
    assert HostOrDelivered(g.items[k]) && TurnLawful(g.items[k], h.policy.maxTurns);
    OneEntry(PhaseOf(i), Handed(i.out.id, Some(b), turn, i.duplicate), i.out.id, h.policy.maxTurns);
    EditKeepsInv(h, l, k, j, [Handed(i.out.id, Some(b), turn, i.duplicate)]);
  }

  predicate Increasing(picked: seq<nat>, n: nat) {
    Within(picked, n) && (forall i, j | 0 <= i < j < |picked| :: picked[i] < picked[j])
  }

  lemma {:induction false} TakeAllAt(l: Lines, picked: seq<nat>, b: Boundary, turn: nat, k: nat)
    requires Increasing(picked, |l.items|) && k < |l.items|
    ensures TakeAll(l, picked, b, turn).items[k] == if k in picked then TakenItem(l.items[k], b, turn) else l.items[k]
    decreases |picked|
  {
    if picked != [] {
      var front, last := picked[..|picked| - 1], picked[|picked| - 1];
      assert picked == front + [last];
      TakeAllAt(l, front, b, turn, k);
      if k == last {
        forall j | 0 <= j < |front| ensures front[j] != k {
          assert picked[j] < picked[|picked| - 1];
        }
      }
    }
  }

  predicate AllTurnsLawful(items: seq<Item>, maxTurns: nat) {
    forall k | 0 <= k < |items| :: TurnLawful(items[k], maxTurns)
  }

  lemma NotPassedOver(items: seq<Item>, picked: seq<nat>, full: bool, b: Boundary, m: nat, i: nat, maxTurns: nat)
    requires PickedInOrder(items, picked, full, b, |items|) && AllTurnsLawful(items, maxTurns)
    requires m < |picked| && i < picked[m] && i !in picked[..m] && NeverHanded(items[i]) && items[picked[m]].out.turn == 0
    ensures items[i].out.timing != items[picked[m]].out.timing
  {
    assert TurnLawful(items[i], maxTurns) && TurnLawful(items[picked[m]], maxTurns);
    assert i !in picked by {
      forall j | 0 <= j < |picked| ensures picked[j] != i {
        if j < m {
          assert picked[..m][j] == picked[j];
        }
      }
    }
  }

  /** Nothing never handed out before `k` shares its timing, once the picks before `k` are taken. */
  lemma TakenInOrder(h: Hub, picked: seq<nat>, full: bool, b: Boundary, m: nat, turn: nat)
    requires PickedInOrder(h.items, picked, full, b, |h.items|) && AllTurnsLawful(h.items, h.policy.maxTurns) && turn >= 1
    requires m < |picked|
    ensures var l := TakeAll(LinesOf(h), picked[..m], b, turn); var k := picked[m];
            l.items[k] == h.items[k] && (l.items[k].out.turn == 0 ==> FirstOfTiming(With(h, l), k))
  {
    var front, k := picked[..m], picked[m];
    var l := TakeAll(LinesOf(h), front, b, turn);
    assert k !in front;
    TakeAllAt(LinesOf(h), front, b, turn, k);
    if l.items[k].out.turn == 0 {
      forall i | 0 <= i < k && NeverHanded(l.items[i]) ensures l.items[i].out.timing != l.items[k].out.timing {
        TakeAllAt(LinesOf(h), front, b, turn, i);
        NotPassedOver(h.items, picked, full, b, m, i, h.policy.maxTurns);
      }
    }
  }

  /** One more of the picks. */
  lemma TakeNextKeepsInv(h: Hub, picked: seq<nat>, full: bool, b: Boundary, m: nat, turn: nat)
    requires PickedInOrder(h.items, picked, full, b, |h.items|) && AllTurnsLawful(h.items, h.policy.maxTurns)
    requires 1 <= turn <= h.policy.maxTurns && m < |picked|
    requires Inv(With(h, TakeAll(LinesOf(h), picked[..m], b, turn)))
    ensures Inv(With(h, Take(TakeAll(LinesOf(h), picked[..m], b, turn), picked[m], b, turn)))
  {
    TakenInOrder(h, picked, full, b, m, turn);
    TakeKeepsInv(h, TakeAll(LinesOf(h), picked[..m], b, turn), picked[m], b, turn);
  }

  ghost predicate LawfulAfter(h: Hub, picked: seq<nat>, b: Boundary, turn: nat, m: nat)
    requires Within(picked, |h.items|) && m <= |picked|
  {
    Inv(With(h, TakeAll(LinesOf(h), picked[..m], b, turn)))
  }

  lemma NextIsLawful(h: Hub, picked: seq<nat>, full: bool, b: Boundary, m: nat, turn: nat)
    requires PickedInOrder(h.items, picked, full, b, |h.items|) && AllTurnsLawful(h.items, h.policy.maxTurns)
    requires 1 <= turn <= h.policy.maxTurns && m < |picked| && LawfulAfter(h, picked, b, turn, m)
    ensures LawfulAfter(h, picked, b, turn, m + 1)
  {
    TakeNextKeepsInv(h, picked, full, b, m, turn);
    assert picked[..m + 1][..m] == picked[..m];
    assert TakeAll(LinesOf(h), picked[..m + 1], b, turn) == Take(TakeAll(LinesOf(h), picked[..m], b, turn), picked[m], b, turn);
  }

  lemma {:induction false} AllLawful(h: Hub, picked: seq<nat>, full: bool, b: Boundary, turn: nat, m: nat)
    requires PickedInOrder(h.items, picked, full, b, |h.items|) && AllTurnsLawful(h.items, h.policy.maxTurns)
    requires 1 <= turn <= h.policy.maxTurns && LawfulAfter(h, picked, b, turn, 0) && m <= |picked|
    ensures LawfulAfter(h, picked, b, turn, m)
  {
    if m > 0 {
      AllLawful(h, picked, full, b, turn, m - 1);
      NextIsLawful(h, picked, full, b, m - 1, turn);
    }
  }

  lemma TakeAllKeepsInv(h: Hub, picked: seq<nat>, full: bool, b: Boundary, turn: nat)
    requires Inv(h) && PickedInOrder(h.items, picked, full, b, |h.items|) && 1 <= turn <= h.policy.maxTurns
    ensures Inv(With(h, TakeAll(LinesOf(h), picked, b, turn)))
  {
    assert With(h, LinesOf(h)) == h;
    AllLawful(h, picked, full, b, turn, |picked|);
    assert picked[..|picked|] == picked;
  }

  lemma FreshNotice(h: Hub, i: Item, b: Boundary, turn: nat)
    requires Inv(h) && h.wrapUp.None? && 1 <= turn <= h.policy.maxTurns
    requires i.out.id !in h.byId && i.out.id != "" && i.out.id != h.start
    requires i.Pending() && i.origin == Policy && !i.turnEndOnly && !i.duplicate
    ensures Inv(JoinNotice(h, b, turn, i))
  {
    var w := TakenItem(i, b, turn);
    var e, f := Joined(i.out.id), Handed(i.out.id, Some(b), turn, false);
    TwoEntries(Unknown, e, f, i.out.id, h.policy.maxTurns);
    RegisterKeepsInv(h, w, [e, f]);
    assert h.log + [e] + [f] == h.log + [e, f];
  }

  lemma KnownNotice(h: Hub, i: Item, b: Boundary, turn: nat)
    requires Inv(h) && h.wrapUp == Some(i) && 1 <= turn <= h.policy.maxTurns
    requires i.Pending() && (i.turnEndOnly ==> AtEnd(b))
    ensures Inv(JoinNotice(h, b, turn, i))
  {
    var w := TakenItem(i, b, turn);
    var f := Handed(i.out.id, Some(b), turn, i.duplicate);
    assert NoticeIndexed(h, i);
    OneEntry(PhaseOf(i), f, i.out.id, h.policy.maxTurns);
    PutNoticeKeepsInv(h, w, [f]);
    assert h.log + [] + [f] == h.log + [f];
  }

  lemma PrependKeepsInv(h: Hub, b: Boundary, turn: nat, offers: seq<Offer>, notice: NoticeText)
    requires Inv(h) && offers != [] && 1 <= turn <= h.policy.maxTurns
    ensures Inv(Prepend(h, b, turn, offers, notice).hub)
  {
    var i := NoticeItem(h, offers[0].timing, notice);
    if NoticeJoins(h, b, i, offers) {
      if h.wrapUp.None? {
        FreshNotice(h, i, b, turn);
      } else {
        KnownNotice(h, i, b, turn);
      }
    }
  }

  lemma HandOutKeepsInv(h: Hub, picked: seq<nat>, full: bool, b: Boundary, turn: nat, notice: NoticeText)
    requires Inv(h) && PickedInOrder(h.items, picked, full, b, |h.items|) && 1 <= turn <= h.policy.maxTurns
    ensures Inv(HandOut(h, picked, b, turn, notice).hub)
  {
    TakeAllKeepsInv(h, picked, full, b, turn);
    var taken := With(h, TakeAll(LinesOf(h), picked, b, turn));
    var offers := Offers(h.items, picked);
    if offers != [] {
      PrependKeepsInv(taken, b, turn, offers, notice);
    }
  }

  lemma ClaimBatchKeepsInv(h: Hub, picked: seq<nat>, full: bool, b: Boundary, notice: NoticeText)
    requires Inv(h) && PickedInOrder(h.items, picked, full, b, |h.items|) && h.turns < h.policy.maxTurns
    ensures Inv(ClaimBatch(h, picked, b, notice).hub)
  {
    var successor := NeedsSuccessor(h.items, picked, b);
    if TurnRemains(h, successor) {
      HandOutKeepsInv(h, picked, full, b, h.turn + (if successor then 1 else 0), notice);
    }
  }

  lemma ClaimKeepsInv(h: Hub, b: Boundary, notice: NoticeText)
    requires Inv(h)
    ensures Inv(Claim(h, b, notice).hub)
  {
    if ClaimOpen(h, b) {
      var p := Scan(h, b, |h.items|);
      ScanKeepsInv(h, b);
      ScanPicks(h, b, |h.items|);
      ClaimBatchKeepsInv(With(h, p.lines), p.picked, p.full, b, notice);
    }
  }

  // ---------- turns ----------

  lemma {:induction false} DeliveredInListed(h: Hub, n: nat, turn: nat)
    requires Indexed(h) && n <= |h.items|
    ensures forall id | id in DeliveredIn(h.items[..n], turn) :: DeliveredThen(h, id, turn)
  {
    if n > 0 {
      assert h.items[..n][..n - 1] == h.items[..n - 1];
      DeliveredInListed(h, n - 1, turn);
      var i := h.items[n - 1];
      assert h.byId[i.out.id] == Listed(n - 1);
    }
  }

  lemma TurnEntriesLawful(h: Hub, g: Hub, ok: bool)
    requires Indexed(h) && g.items == h.items && g.byId == h.byId && g.turns == h.turns + 1
    ensures forall e | e in TurnEntries(h, ok) :: EntryLawful(g, e)
    ensures TurnNumbers(TurnEntries(h, ok)) == [h.turns + 1]
  {
    var turn := h.turns + 1;
    var ids := DeliveredIn(h.items, turn);
    assert h.items[..|h.items|] == h.items;
    DeliveredInListed(h, |h.items|, turn);
    forall j | 0 <= j < |ids| ensures DeliveredThen(g, ids[j], turn) {
      assert ids[j] in ids;
      assert DeliveredThen(h, ids[j], turn);
    }
    var e := [TurnEnded(turn, ids)];
    var notice := if WarnsNow(h, turn, ok) then [LimitNotice] else [];
    assert e[..0] == [] && TurnNumbers([]) == [];
    NumbersAppend(e, notice);
    NoNumbers(notice);
  }

  lemma CompleteTurnKeepsLog(h: Hub, ok: bool)
    requires Indexed(h) && TurnsLogged(h) && !h.finished && h.turns < h.policy.maxTurns
    ensures TurnsLogged(CompleteTurn(h, ok))
  {
    var g := CompleteTurn(h, ok);
    var es := TurnEntries(h, ok);
    TurnEntriesLawful(h, g, ok);
    NumbersAppend(h.log, es);
    forall e | e in g.log ensures EntryLawful(g, e) {
      if e in h.log {
        assert EntryLawful(h, e);
      } else {
        assert e in es;
      }
    }
  }

  lemma TurnEntriesIgnored(h: Hub, ok: bool, id: Id)
    ensures PhaseIn(h.log + TurnEntries(h, ok), id) == PhaseIn(h.log, id)
  {
    FoldAppend(Unknown, h.log, TurnEntries(h, ok), id);
    FoldIgnores(PhaseIn(h.log, id), TurnEntries(h, ok), id);
  }

  lemma CompleteTurnKeepsIndexed(h: Hub, ok: bool)
    requires Indexed(h) && !h.finished && h.turns < h.policy.maxTurns
    ensures Indexed(CompleteTurn(h, ok))
  {
    var g := CompleteTurn(h, ok);
    forall id | id in g.byId ensures Resolves(g, id) {
      assert Resolves(h, id);
    }
    assert h.wrapUp.Some? ==> NoticeIndexed(h, h.wrapUp.value);
  }

  lemma CompleteTurnKeepsTraced(h: Hub, ok: bool)
    requires Traced(h) && !h.finished && h.turns < h.policy.maxTurns
    ensures Traced(CompleteTurn(h, ok))
  {
    var g := CompleteTurn(h, ok);
    forall id: Id ensures PhaseIn(g.log, id) == Expected(g, id) {
      assert PhaseIn(h.log, id) == Expected(h, id);
      TurnEntriesIgnored(h, ok, id);
    }
  }

  lemma CompleteTurnKeepsOrder(h: Hub, ok: bool)
    requires InOrder(h) && !h.finished && h.turns < h.policy.maxTurns
    ensures InOrder(CompleteTurn(h, ok))
  {
    ElsewhereKeepsInOrder(h, CompleteTurn(h, ok), TurnEntries(h, ok));
  }

  lemma CompleteTurnKeepsInv(h: Hub, ok: bool)
    requires Inv(h)
    ensures Inv(CompleteTurn(h, ok))
  {
    if !h.finished && h.turns < h.policy.maxTurns {
      CompleteTurnKeepsIndexed(h, ok);
      CompleteTurnKeepsTraced(h, ok);
      CompleteTurnKeepsOrder(h, ok);
      CompleteTurnKeepsLog(h, ok);
    }
  }

  // ---------- every step ----------

  lemma LifetimeKeepsInv(h: Hub, k: nat)
    requires Inv(h) && k < |h.items| && h.items[k].out.state == Accepted
    ensures Inv(Put(h, k, h.items[k].(gone := true), []))
  {
    assert TurnLawful(h.items[k], h.policy.maxTurns);
    PutKeepsInv(h, k, h.items[k].(gone := true), []);
  }

  lemma WithdrawKeepsInv(h: Hub, k: nat)
    requires Inv(h) && k < |h.items| && h.items[k].Pending()
    ensures Inv(With(h, Fail(LinesOf(h), k, Cancelled)))
  {
    assert With(h, LinesOf(h)) == h;
    FailKeepsInv(h, LinesOf(h), k, Cancelled);
  }

  lemma {:induction false} RememberFrame(h: Hub, rs: seq<Receipt>, cutoff: int)
    ensures SameCore(h, Remember(h, rs, cutoff))
    decreases |rs|
  {
    if rs != [] {
      RememberFrame(h, rs[..|rs| - 1], cutoff);
    }
  }

  lemma LoadKeepsInv(h: Hub, rs: seq<Receipt>, cutoff: int)
    requires Inv(h)
    ensures Inv(Load(h, rs, cutoff))
  {
    RememberFrame(h, rs, cutoff);
    SweepAllKeepsInv(h, Remember(h, rs, cutoff), Deduplicating);
  }

  lemma InputKeepsInv(h: Hub, s: Step)
    requires Inv(h) && Enabled(h, s)
    requires s.DoSend? || s.DoStart? || s.DoCarry? || s.DoLoad? || s.DoSetCapability?
    ensures Inv(Do(h, s))
  {
    match s
    case DoSend(m, valid, callerGone) => SendKeepsInv(h, m, valid, callerGone);
    case DoStart(id, text) => StartKeepsInv(h, id, text);
    case DoCarry(prior, framed) => CarryKeepsInv(h, prior, framed);
    case DoLoad(rs, cutoff) => LoadKeepsInv(h, rs, cutoff);
    case DoSetCapability(cap) => SweepAllKeepsInv(h, h.(cap := cap), Reconciling);
  }

  lemma DeliveryKeepsInv(h: Hub, s: Step)
    requires Inv(h)
    requires s.DoClaim? || s.DoAck? || s.DoAckStart? || s.DoFailPrompt? || s.DoCompleteTurn?
    ensures Inv(Do(h, s))
  {
    match s
    case DoClaim(b, notice) => ClaimKeepsInv(h, b, notice);
    case DoAck(id, ack, now) => AckKeepsInv(h, id, ack, now);
    case DoAckStart(success, now) => AckStartKeepsInv(h, success, now);
    case DoFailPrompt(id) => FailPromptKeepsInv(h, id);
    case DoCompleteTurn(ok) => CompleteTurnKeepsInv(h, ok);
  }

  lemma EndingKeepsInv(h: Hub, s: Step)
    requires Inv(h)
    requires s.DoCancelPending? || s.DoFinish?
    ensures Inv(Do(h, s))
  {
    match s
    case DoCancelPending => SweepAllKeepsInv(h, h.(cancelled := true), Cancelling);
    case DoFinish(reason) => SweepAllKeepsInv(h, h.(finished := true), Finishing(reason));
  }

  lemma FlagsKeepInv(h: Hub, ids: seq<Id>)
    requires Inv(h)
    ensures Inv(h.(promptIds := ids)) && Inv(h.(gone := true)) && Inv(h.(finished := true))
  {
    SameCoreKeepsInv(h, h.(promptIds := ids));
    SameCoreKeepsInv(h, h.(gone := true));
    SameCoreKeepsInv(h, h.(finished := true));
  }

  lemma StepKeepsInv(h: Hub, s: Step)
    requires Inv(h) && Enabled(h, s)
    ensures Inv(Do(h, s))
  {
    match s
    case LifetimeEnds(k) => LifetimeKeepsInv(h, k);
    case Withdraw(k) => if h.items[k].Pending() { WithdrawKeepsInv(h, k); }
    case DoSetPrompt(ids) => FlagsKeepInv(h, ids);
    case DoCancelPending => EndingKeepsInv(h, s);
    case DoFinish(_) => EndingKeepsInv(h, s);
    case DoCloseIfIdle => FlagsKeepInv(h, []);
    case ExecutionCancelled => FlagsKeepInv(h, []);
    case DoClaim(_, _) => DeliveryKeepsInv(h, s);
    case DoAck(_, _, _) => DeliveryKeepsInv(h, s);
    case DoAckStart(_, _) => DeliveryKeepsInv(h, s);
    case DoFailPrompt(_) => DeliveryKeepsInv(h, s);
    case DoCompleteTurn(_) => DeliveryKeepsInv(h, s);
    case DoSend(_, _, _) => InputKeepsInv(h, s);
    case DoStart(_, _) => InputKeepsInv(h, s);
    case DoCarry(_, _) => InputKeepsInv(h, s);
    case DoLoad(_, _) => InputKeepsInv(h, s);
    case DoSetCapability(_) => InputKeepsInv(h, s);
  }

  lemma NewHubInv(policy: Limits, cap: Capability, resume: bool, limitId: Id)
    requires policy.maxTurns >= 1 && limitId != ""
    ensures Inv(NewHub(policy, cap, resume, limitId))
  {
  }

  lemma {:induction false} RunInduction(h: Hub, steps: seq<Step>, keep: Hub -> bool)
    requires keep(h)
    requires forall g: Hub, s: Step | keep(g) && Enabled(g, s) :: keep(Do(g, s))
    ensures keep(Run(h, steps))
    decreases |steps|
  {
    if steps != [] {
      RunInduction(h, steps[..|steps| - 1], keep);
    }
  }

  lemma RunKeepsInv(h: Hub, steps: seq<Step>)
    requires Inv(h)
    ensures Inv(Run(h, steps))
  {
    forall g: Hub, s: Step | Inv(g) && Enabled(g, s) ensures Inv(Do(g, s)) {
      StepKeepsInv(g, s);
    }
    RunInduction(h, steps, g => Inv(g));
  }
}
