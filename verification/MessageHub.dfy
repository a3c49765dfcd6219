/** The message hub as the object that messages.go updates in place. Each method is one locked section. */
module Messages {
  import opened Common
  import opened Utf8
  import opened HubModel

  lemma SweepNext(h: Hub, sweep: Sweep, k: nat)
    requires k < |h.items|
    ensures SweepTo(h, sweep, k + 1) == SweepOne(SweepTo(h, sweep, k), h, sweep, k)
  {
  }

  lemma SweptElsewhere(h: Hub, g: Hub, sweep: Sweep, i: Item)
    requires g == With(h, LinesOf(g))
    ensures Swept(g, sweep, i) == Swept(h, sweep, i)
  {
  }

  lemma ScanNext(h: Hub, b: Boundary, k: nat)
    requires k < |h.items|
    ensures Scan(h, b, k + 1) == Advance(h, Scan(h, b, k), b, k)
  {
  }

  lemma {:induction false} FullScan(h: Hub, b: Boundary, k: nat, n: nat)
    requires k <= n <= |h.items| && Scan(h, b, k).full
    ensures Scan(h, b, n) == Scan(h, b, k)
  {
    if k < n {
      FullScan(h, b, k, n - 1);
    }
  }

  lemma WholeScan(h: Hub, b: Boundary, k: nat)
    requires k <= |h.items| && (Scan(h, b, k).full || k == |h.items|)
    ensures Scan(h, b, |h.items|) == Scan(h, b, k)
  {
    if Scan(h, b, k).full {
      FullScan(h, b, k, |h.items|);
    }
  }

  method CountPending(items: seq<Item>) returns (pending: nat)
    ensures pending == PendingCount(items)
  {
    pending := 0;
    for k := 0 to |items|
      invariant pending == PendingCount(items[..k])
    {
      assert items[..k + 1][..k] == items[..k];
      if items[k].out.state == Accepted && !items[k].claimed {
        pending := pending + 1;
      }
    }
    assert items[..|items|] == items;
  }

  /** claimLocked sets this flag while it selects. */
  method Succeeds(items: seq<Item>, picked: seq<nat>, b: Boundary) returns (successor: bool)
    requires Within(picked, |items|)
    ensures successor == NeedsSuccessor(items, picked, b)
  {
    successor := b == Stop;
    for j := 0 to |picked|
      invariant successor <==> b == Stop || (b == Immediate && exists n | 0 <= n < j :: items[picked[n]].out.timing == Interrupt)
    {
      if b == Immediate && items[picked[j]].out.timing == Interrupt {
        successor := true;
      }
    }
  }

  method SearchFreeId(base: Id, taken: set<Id>) returns (id: Id)
    ensures id == FreshId(base, taken)
  {
    id := base;
    while id in taken
      invariant FreshId(id, taken) == FreshId(base, taken)
      decreases |AtLeast(taken, |id|)|
    {
      assert AtLeast(taken, |id + "-wrap"|) <= AtLeast(taken, |id|) - {id};
      StrictSubset(AtLeast(taken, |id + "-wrap"|), AtLeast(taken, |id|), id);
      id := id + "-wrap";
    }
  }

  method RoomAhead(h: Hub, first: nat, offers: seq<Offer>) returns (fits: bool)
    ensures fits == FitsAhead(h, first, offers)
  {
    var units: nat := first;
    for j := 0 to |offers|
      invariant FitsAhead(h, first, offers) == FitsAhead(h, units, offers[j..])
    {
      var next := Units(offers[j].text, h.cap.unit);
      assert offers[j..][0] == offers[j] && offers[j..][1..] == offers[j + 1..];
      if next + 2 > h.cap.maxUnits - units {
        return false;
      }
      units := units + next + 2;
    }
    return true;
  }

  method DeliveredInTurn(items: seq<Item>, turn: nat) returns (ids: seq<Id>)
    ensures ids == DeliveredIn(items, turn)
  {
    ids := [];
    for k := 0 to |items|
      invariant ids == DeliveredIn(items[..k], turn)
    {
      assert items[..k + 1][..k] == items[..k];
      if items[k].out.turn == turn && items[k].out.state == Delivered {
        ids := ids + [items[k].out.id];
      }
    }
    assert items[..|items|] == items;
  }

  class MessageHub {
    const policy: Limits
    const resume: bool
    const limitId: Id
    var cap: Capability
    var gone: bool
    var items: seq<Item>
    var byId: map<Id, Slot>
    var receipts: seq<Receipt>
    var delivered: set<Id>
    var finished: bool
    var cancelled: bool
    var turn: nat
    var turns: nat
    var warned: bool
    var wrapUp: Option<Item>
    var promptIds: seq<Id>
    var start: Id
    var log: seq<Entry>

    function View(): Hub
      reads this
    {
      Hub(policy, cap, resume, gone, items, byId, receipts, delivered, finished, cancelled, turn, turns, warned,
          wrapUp, limitId, promptIds, start, log)
    }

    constructor (policy: Limits, cap: Capability, resume: bool, limitId: Id)
      ensures View() == NewHub(policy, cap, resume, limitId)
    {
      this.policy, this.resume, this.limitId, this.cap := policy, resume, limitId, cap;
      gone, items, byId, receipts, delivered := false, [], map[], [], {};
      finished, cancelled, turn, turns, warned := false, false, 1, 0, false;
      wrapUp, promptIds, start, log := None, [], "", [];
    }

    // ---------- sweeps ----------

    method FailLocked(k: nat, r: Reason)
      requires k < |items|
      modifies this`items, this`log
      ensures Lines(items, log) == Fail(old(Lines(items, log)), k, r)
    {
      items := items[k := FailedItem(items[k], r)];
      log := log + [UpdateOf(items[k])];
    }

    method FinishItems(reason: Reason)
      modifies this`items, this`log
      ensures Lines(items, log) == SweepTo(old(View()), Finishing(reason), |old(items)|)
    {
      ghost var h := View();
      var k := 0;
      while k < |items|
        modifies this`items, this`log
        invariant 0 <= k <= |items| == |h.items| && Lines(items, log) == SweepTo(h, Finishing(reason), k)
      {
        SweepNext(h, Finishing(reason), k);
        if items[k].out.state == Accepted {
          FailLocked(k, reason);
        }
        k := k + 1;
      }
    }

    method Finish(reason: Reason)
      modifies this`finished, this`items, this`log
      ensures View() == HubModel.Finish(old(View()), reason)
    {
      finished := true;
      FinishItems(reason);
    }

    method CancelItems()
      modifies this`items, this`log
      ensures Lines(items, log) == SweepTo(old(View()), Cancelling, |old(items)|)
    {
      ghost var h := View();
      var k := 0;
      while k < |items|
        modifies this`items, this`log
        invariant 0 <= k <= |items| == |h.items| && Lines(items, log) == SweepTo(h, Cancelling, k)
      {
        SweepNext(h, Cancelling, k);
        if items[k].out.state == Accepted && !items[k].claimed {
          FailLocked(k, Cancelled);
        }
        k := k + 1;
      }
    }

    method CancelPending()
      modifies this`cancelled, this`items, this`log
      ensures View() == HubModel.CancelPending(old(View()))
    {
      cancelled := true;
      CancelItems();
    }

    method ReconcileLocked(k: nat, ghost h: Hub)
      requires k < |items| && View() == With(h, Lines(items, log))
      modifies this`items, this`log
      ensures Lines(items, log) == SweepOne(old(Lines(items, log)), h, Reconciling, k)
    {
      SweptElsewhere(h, View(), Reconciling, items[k]);
      var i := items[k];
      if i.out.state == Accepted && !i.claimed && i.out.id != start {
        var reason := Objection(View(), i.out.timing, i.framed);
        if Gone(View(), i) {
          FailLocked(k, Cancelled);
        } else if reason != NoReason {
          FailLocked(k, reason);
        }
      }
    }

    method ReconcileItems()
      modifies this`items, this`log
      ensures Lines(items, log) == SweepTo(old(View()), Reconciling, |old(items)|)
    {
      ghost var h := View();
      var k := 0;
      while k < |items|
        modifies this`items, this`log
        invariant 0 <= k <= |items| == |h.items| && Lines(items, log) == SweepTo(h, Reconciling, k)
      {
        SweepNext(h, Reconciling, k);
        ReconcileLocked(k, h);
        k := k + 1;
      }
    }

    method SetCapability(cap: Capability)
      modifies this`cap, this`items, this`log
      ensures View() == HubModel.SetCapability(old(View()), cap)
    {
      this.cap := cap;
      ReconcileItems();
    }

    method CloseIfIdle() returns (closed: bool)
      modifies this`finished
      ensures View() == HubModel.CloseIfIdle(old(View())) && closed == Idle(old(View()))
    {
      var k := 0;
      while k < |items|
        invariant 0 <= k <= |items| && forall j | 0 <= j < k :: items[j].out.state != Accepted
      {
        if items[k].out.state == Accepted {
          assert !Idle(View());
          return false;
        }
        k := k + 1;
      }
      finished := true;
      return true;
    }

    method RememberLocked(rs: seq<Receipt>, cutoff: int)
      modifies this`delivered, this`receipts
      ensures View() == Remember(old(View()), rs, cutoff)
    {
      ghost var h := View();
      var n := 0;
      while n < |rs|
        modifies this`delivered, this`receipts
        invariant 0 <= n <= |rs| && View() == Remember(h, rs[..n], cutoff)
      {
        assert rs[..n + 1][..n] == rs[..n];
        if rs[n].at > cutoff && rs[n].id !in delivered {
          delivered := delivered + {rs[n].id};
          receipts := receipts + [rs[n]];
        }
        n := n + 1;
      }
      assert rs[..n] == rs;
    }

    method DedupeLocked(k: nat, ghost h: Hub)
      requires k < |items| && View() == With(h, Lines(items, log))
      modifies this`items, this`log
      ensures Lines(items, log) == SweepOne(old(Lines(items, log)), h, Deduplicating, k)
    {
      SweptElsewhere(h, View(), Deduplicating, items[k]);
      var i := items[k];
      if i.out.state == Accepted && i.out.id in delivered && (!i.claimed || i.out.id == start) {
        items := items[k := i.(claimed := false, out := i.out.(state := Delivered, turn := 0, mechanism := CoreDedupe))];
        log := log + [UpdateOf(items[k])];
      }
    }

    method DedupeItems()
      modifies this`items, this`log
      ensures Lines(items, log) == SweepTo(old(View()), Deduplicating, |old(items)|)
    {
      ghost var h := View();
      var k := 0;
      while k < |items|
        modifies this`items, this`log
        invariant 0 <= k <= |items| == |h.items| && Lines(items, log) == SweepTo(h, Deduplicating, k)
      {
        SweepNext(h, Deduplicating, k);
        DedupeLocked(k, h);
        k := k + 1;
      }
    }

    method Load(rs: seq<Receipt>, cutoff: int)
      modifies this`delivered, this`receipts, this`items, this`log
      ensures View() == HubModel.Load(old(View()), rs, cutoff)
    {
      RememberLocked(rs, cutoff);
      DedupeItems();
    }

    // ---------- admission ----------

    method AppendLocked(i: Item, es: seq<Entry>)
      modifies this`items, this`byId, this`log
      ensures View() == Append(old(View()), i, es)
    {
      byId := byId[i.out.id := Listed(|items|)];
      items := items + [i];
      log := log + es;
    }

    method Send(m: Message, valid: bool, callerGone: bool) returns (r: SendResult)
      modifies this`items, this`byId, this`log
      ensures r == SendVerdict(old(View()), m, valid, callerGone)
      ensures View() == SendPass(old(View()), m, valid, callerGone)
    {
      if finished { return Rejected(RunFailed); }
      if cancelled || gone || callerGone { return Rejected(Cancelled); }
      if !valid { return Rejected(ProviderRejected); }
      var reason := Objection(View(), m.timing, m.framed);
      if reason != NoReason { return Rejected(reason); }
      if m.id in byId { return Admitted; }
      if m.id in delivered {
        var i := NewItem(m, Sent).(framed := []);
        var taken := i.(out := i.out.(mechanism := CoreDedupe));
        var done := taken.(out := taken.out.(state := Delivered));
        AppendLocked(done, [UpdateOf(taken), UpdateOf(done)]);
        return Admitted;
      }
      var pending := CountPending(items);
      if pending >= policy.maxPending { return Blocked; }
      var i := NewItem(m, Sent);
      AppendLocked(i, [UpdateOf(i)]);
      return Admitted;
    }

    method StartMessage(id: Id, text: Text) returns (isNew: bool)
      modifies this`items, this`byId, this`log, this`start
      ensures View() == HubModel.StartMessage(old(View()), id, text)
      ensures isNew <==> id !in old(delivered)
    {
      var i := NewItem(Message(id, text, Soon, []), Starting);
      if id in delivered {
        i := i.(out := i.out.(state := Delivered, mechanism := CoreDedupe));
        AppendLocked(i, [UpdateOf(i)]);
        return false;
      }
      i := i.(out := i.out.(turn := 1), claimed := true);
      AppendLocked(i, [UpdateOf(i), Handed(id, None, 1, false)]);
      start := id;
      return true;
    }

    method CarryPrompt(prior: Outcome, framed: Text) returns (admitted: bool)
      modifies this`items, this`byId, this`log
      ensures View() == HubModel.CarryPrompt(old(View()), prior, framed)
      ensures admitted <==> prior.id !in old(delivered) && prior.id !in old(byId)
    {
      if prior.id in delivered || prior.id in byId { return false; }
      var out := prior.(state := Accepted, reason := NoReason, turn := 1);
      var i := Item(out, framed, Carried, false, true, Some(TurnEnd), false, false);
      AppendLocked(i, [UpdateOf(i), Handed(prior.id, Some(TurnEnd), 1, false)]);
      return true;
    }

    // ---------- claims ----------

    method VisitLocked(ghost h: Hub, b: Boundary, k: nat, picked: seq<nat>, units: nat) returns (p: seq<nat>, u: nat, full: bool)
      requires k < |items| && View() == With(h, Lines(items, log))
      modifies this`items, this`log
      ensures Batch(Lines(items, log), p, u, full) == Advance(h, Batch(old(Lines(items, log)), picked, units, false), b, k)
    {
      p, u, full := picked, units, false;
      var i := items[k];
      if i.out.state != Accepted || i.claimed { return; }
      if Gone(View(), i) {
        FailLocked(k, Cancelled);
        return;
      }
      if !Eligible(i, b) { return; }
      var size := Units(i.framed, cap.unit);
      if cap.maxUnits > 0 {
        if size > cap.maxUnits {
          FailLocked(k, LimitExceeded);
          return;
        }
        if |picked| > 0 && size + 2 > cap.maxUnits - units {
          full := true;
          return;
        }
      }
      u := units + (if |picked| > 0 then 2 else 0) + size;
      p := picked + [k];
    }

    /** The selection loop; it stops early at the first message that would overfill the batch. */
    method SelectLocked(b: Boundary, ghost h: Hub) returns (picked: seq<nat>, full: bool, ghost k: nat)
      requires h == View()
      modifies this`items, this`log
      ensures k <= |h.items| && (full || k == |h.items|)
      ensures Scan(h, b, k).lines == Lines(items, log) && Scan(h, b, k).picked == picked && Scan(h, b, k).full == full
    {
      var units: nat := 0;
      picked, full, k := [], false, 0;
      var at: nat := 0;
      while at < |items| && !full
        modifies this`items, this`log
        invariant at == k <= |items| == |h.items|
        invariant Scan(h, b, k) == Batch(Lines(items, log), picked, units, full)
        decreases |h.items| - k
      {
        ScanNext(h, b, k);
        picked, units, full := VisitLocked(h, b, at, picked, units);
        at := at + 1;
        k := at;
      }
    }

    method TakeLocked(picked: seq<nat>, b: Boundary, turn: nat)
      requires Within(picked, |items|)
      modifies this`items, this`log
      ensures Lines(items, log) == TakeAll(old(Lines(items, log)), picked, b, turn)
    {
      ghost var l := Lines(items, log);
      var j := 0;
      while j < |picked|
        modifies this`items, this`log
        invariant 0 <= j <= |picked| && |items| == |l.items| && Lines(items, log) == TakeAll(l, picked[..j], b, turn)
      {
        assert picked[..j + 1][..j] == picked[..j];
        var i := items[picked[j]];
        items := items[picked[j] := TakenItem(i, b, turn)];
        log := log + [Handed(i.out.id, Some(b), turn, i.duplicate)];
        j := j + 1;
      }
      assert picked[..j] == picked;
    }

    method NoticeLocked(timing: Timing, notice: NoticeText) returns (i: Item)
      ensures i == NoticeItem(View(), timing, notice)
    {
      if wrapUp.Some? { return wrapUp.value; }
      var id := SearchFreeId(limitId, byId.Keys + delivered);
      return NewItem(Message(id, notice.text, timing, notice.framed), Policy);
    }

    method JoinsLocked(b: Boundary, i: Item, offers: seq<Offer>) returns (joins: bool)
      ensures joins == NoticeJoins(View(), b, i, offers)
    {
      if i.out.state != Accepted || i.claimed || (i.turnEndOnly && b != TurnEnd && b != Stop) { return false; }
      if cap.maxUnits > 0 {
        var units := Units(i.framed, cap.unit);
        if units > cap.maxUnits { return false; }
        joins := RoomAhead(View(), units, offers);
        return;
      }
      return true;
    }

    method JoinLocked(b: Boundary, turn: nat, i: Item)
      modifies this`wrapUp, this`byId, this`log
      ensures View() == JoinNotice(old(View()), b, turn, i)
    {
      var joined: seq<Entry> := [];
      if wrapUp.None? {
        byId := byId[i.out.id := WrapUp];
        joined := [Joined(i.out.id)];
      }
      wrapUp := Some(TakenItem(i, b, turn));
      log := log + joined + [Handed(i.out.id, Some(b), turn, i.duplicate)];
    }

    method PrependWrapUpLocked(b: Boundary, turn: nat, offers: seq<Offer>, notice: NoticeText) returns (out: seq<Offer>)
      requires offers != []
      modifies this`wrapUp, this`byId, this`log
      ensures Claimed(View(), out) == Prepend(old(View()), b, turn, offers, notice)
    {
      var i := NoticeLocked(offers[0].timing, notice);
      var joins := JoinsLocked(b, i, offers);
      if !joins { return offers; }
      JoinLocked(b, turn, i);
      return [OfferOf(i)] + offers;
    }

    method HandOutLocked(picked: seq<nat>, b: Boundary, turn: nat, notice: NoticeText) returns (out: seq<Offer>)
      requires Within(picked, |items|)
      modifies this`items, this`wrapUp, this`byId, this`log
      ensures Claimed(View(), out) == HandOut(old(View()), picked, b, turn, notice)
    {
      out := Offers(items, picked);
      var due := WrapUpDue(View(), turn);
      TakeLocked(picked, b, turn);
      if |out| > 0 && due {
        out := PrependWrapUpLocked(b, turn, out, notice);
      }
    }

    method ClaimSelected(picked: seq<nat>, b: Boundary, successor: bool, notice: NoticeText) returns (out: seq<Offer>)
      requires Within(picked, |items|)
      modifies this`items, this`wrapUp, this`byId, this`log
      ensures Claimed(View(), out) == ClaimWith(old(View()), picked, b, successor, notice)
    {
      if successor && turn >= policy.maxTurns { return []; }
      out := HandOutLocked(picked, b, turn + (if successor then 1 else 0), notice);
    }

    method Claim(b: Boundary, notice: NoticeText) returns (out: seq<Offer>)
      modifies this`items, this`wrapUp, this`byId, this`log
      ensures Claimed(View(), out) == HubModel.Claim(old(View()), b, notice)
    {
      if finished || cancelled || gone || turns >= policy.maxTurns || !Allowed(View(), b) { return []; }
      ghost var h := View();
      var picked, full, k := SelectLocked(b, h);
      WholeScan(h, b, k);
      assert View() == With(h, Scan(h, b, |h.items|).lines);
      var successor := Succeeds(items, picked, b);
      out := ClaimSelected(picked, b, successor, notice);
    }

    // ---------- acknowledgements ----------

    method ReceiveLocked(id: Id, now: int)
      modifies this`delivered, this`receipts
      ensures View() == Receive(old(View()), id, now)
    {
      delivered := delivered + {id};
      receipts := receipts + [Receipt(id, now)];
    }

    method AckListedLocked(k: nat, ack: Acknowledgement, now: int)
      requires k < |items|
      modifies this`items, this`log, this`delivered, this`receipts
      ensures View() == AckListed(old(View()), k, ack, now)
    {
      var i := AckedItem(View(), items[k], ack);
      items := items[k := i];
      if i.out.state == Accepted {
        log := log + [Returned(i.out.id, ack.maybe), UpdateOf(i)];
      } else {
        log := log + [UpdateOf(i)];
        if i.out.state == Delivered {
          ReceiveLocked(i.out.id, now);
        }
      }
    }

    method AckNoticeLocked(ack: Acknowledgement, now: int)
      requires wrapUp.Some?
      modifies this`items, this`byId, this`log, this`wrapUp, this`delivered, this`receipts
      ensures View() == AckNotice(old(View()), old(wrapUp.value), ack, now)
    {
      var i := AckedItem(View(), wrapUp.value, ack);
      wrapUp := Some(i);
      if i.out.state == Delivered {
        AppendLocked(i, [UpdateOf(i)]);
        ReceiveLocked(i.out.id, now);
      } else if i.out.state == Failed {
        log := log + [Discarded(i.out.id)];
      } else {
        log := log + [Returned(i.out.id, ack.maybe)];
      }
    }

    method Ack(id: Id, ack: Acknowledgement, now: int)
      modifies this`items, this`byId, this`log, this`wrapUp, this`delivered, this`receipts
      ensures View() == HubModel.Ack(old(View()), id, ack, now)
    {
      if id !in byId { return; }
      match byId[id]
      case Listed(k) =>
        if k < |items| && items[k].out.state == Accepted && items[k].claimed {
          AckListedLocked(k, ack, now);
        }
      case WrapUp =>
        if wrapUp.Some? && wrapUp.value.out.state == Accepted && wrapUp.value.claimed {
          AckNoticeLocked(ack, now);
        }
    }

    method AckStart(success: bool, now: int)
      modifies this`items, this`log, this`delivered, this`receipts
      ensures View() == HubModel.AckStart(old(View()), success, now)
    {
      if start !in byId || !byId[start].Listed? || byId[start].k >= |items| { return; }
      var k := byId[start].k;
      if items[k].out.state != Accepted { return; }
      var i := items[k].(claimed := false);
      if success {
        i := i.(out := i.out.(state := Delivered, mechanism := CorePrompt));
        items, log := items[k := i], log + [UpdateOf(i)];
        ReceiveLocked(i.out.id, now);
      } else {
        i := FailedItem(i, if gone then Cancelled else RunFailed);
        items, log := items[k := i], log + [UpdateOf(i)];
      }
    }

    method FailPrompt(id: Id)
      modifies this`items, this`log, this`wrapUp
      ensures View() == HubModel.FailPrompt(old(View()), id)
    {
      if id !in byId { return; }
      match byId[id]
      case Listed(k) =>
        if k < |items| && items[k].out.state == Accepted {
          var i := PromptFailure(View(), items[k]);
          items, log := items[k := i], log + [UpdateOf(i)];
        }
      case WrapUp =>
        if wrapUp.Some? && wrapUp.value.out.state == Accepted {
          wrapUp, log := Some(PromptFailure(View(), wrapUp.value)), log + [Discarded(id)];
        }
    }

    /** Without interference between its locked sections. */
    method AckPrompt(success: bool, now: int)
      modifies this`items, this`byId, this`log, this`wrapUp, this`delivered, this`receipts
      ensures View() == HubModel.AckPrompt(old(View()), success, now)
    {
      AckStart(success, now);
      ghost var h := View();
      var n := 0;
      while n < |promptIds|
        modifies this`items, this`byId, this`log, this`wrapUp, this`delivered, this`receipts
        invariant 0 <= n <= |promptIds| && View() == AckPrompts(h, promptIds[..n], success, now)
      {
        assert promptIds[..n + 1][..n] == promptIds[..n];
        if success {
          Ack(promptIds[n], PROMPT_DELIVERED, now);
        } else {
          FailPrompt(promptIds[n]);
        }
        n := n + 1;
      }
      assert promptIds[..n] == promptIds;
    }

    // ---------- turns ----------

    method EndTurnLocked(ok: bool) returns (entries: seq<Entry>, warns: bool)
      ensures entries == TurnEntries(View(), ok) && warns == WarnsNow(View(), turns + 1, ok)
    {
      warns := WarnsNow(View(), turns + 1, ok);
      var ids := DeliveredInTurn(items, turns + 1);
      entries := [TurnEnded(turns + 1, ids)] + if warns then [LimitNotice] else [];
    }

    method CompleteTurn(ok: bool)
      modifies this`turn, this`turns, this`warned, this`log
      ensures View() == HubModel.CompleteTurn(old(View()), ok)
    {
      var n := turns + 1;
      if finished || n > policy.maxTurns { return; }
      var entries, warns := EndTurnLocked(ok);
      turns, turn, warned, log := n, n + 1, warned || warns, log + entries;
    }
  }
}
