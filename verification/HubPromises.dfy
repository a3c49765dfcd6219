/**
  What a Send that returns nil promises. The hub answers nil for any id it knows, and the policy's
  instruction has an id too, so the promise is not quite what the journal's admissions are.
*/
module HubPromises {
  import opened Common
  import opened Utf8
  import opened HubModel
  import opened HubInvariants
  import opened HubSteps
  import opened HubTheorems
  import opened HubClaims

  /** The id is that of an instruction that has not been delivered. */
  predicate IsUndelivered(h: Hub, id: Id) {
    id in h.byId && h.byId[id] == WrapUp
  }

  /** Once the hub has finished, every id it knows has one terminal update, but an undelivered instruction's has none. */
  lemma KnownIsSettled(h: Hub, id: Id)
    requires Inv(h) && Idle(h) && id in h.byId
    ensures Terminals(h.log, id) == if IsUndelivered(h, id) then 0 else 1
  {
    JournalTells(h.log, id);
    assert PhaseIn(h.log, id) == Expected(h, id) && Resolves(h, id);
    match h.byId[id]
    case Listed(k) => assert HostOrDelivered(h.items[k]);
    case WrapUp => assert NoticeIndexed(h, h.wrapUp.value);
  }

  // ---------- a known id stays known ----------

  predicate SlotKept(h: Hub, g: Hub, id: Id) {
    id in h.byId ==> id in g.byId && (h.byId[id].Listed? ==> g.byId[id] == h.byId[id])
  }

  lemma ClaimKeepsSlot(h: Hub, b: Boundary, notice: NoticeText, id: Id)
    ensures SlotKept(h, Claim(h, b, notice).hub, id)
  {
    if ClaimOpen(h, b) {
      var p := Scan(h, b, |h.items|);
      var g := With(h, p.lines);
      var successor := NeedsSuccessor(g.items, p.picked, b);
      HandOutKeepsSlot(g, p.picked, b, g.turn + (if successor then 1 else 0), notice, id);
    }
  }

  lemma HandOutKeepsSlot(h: Hub, picked: seq<nat>, b: Boundary, turn: nat, notice: NoticeText, id: Id)
    requires Within(picked, |h.items|)
    ensures SlotKept(h, HandOut(h, picked, b, turn, notice).hub, id)
  {
    var taken := With(h, TakeAll(LinesOf(h), picked, b, turn));
    var offers := Offers(h.items, picked);
    if offers != [] {
      PrependKeepsSlot(taken, b, turn, offers, notice, id);
    }
  }

  lemma PrependKeepsSlot(h: Hub, b: Boundary, turn: nat, offers: seq<Offer>, notice: NoticeText, id: Id)
    requires offers != []
    ensures SlotKept(h, Prepend(h, b, turn, offers, notice).hub, id)
  {
  }

  lemma AckKeepsSlot(h: Hub, other: Id, ack: Acknowledgement, now: int, id: Id)
    requires Indexed(h)
    ensures SlotKept(h, Ack(h, other, ack, now), id)
  {
    if other in h.byId {
      assert Resolves(h, other);
      if h.byId[other] == WrapUp {
        AckNoticeKeepsSlot(h, h.wrapUp.value, ack, now, id);
      }
    }
  }

  lemma AckNoticeKeepsSlot(h: Hub, w: Item, ack: Acknowledgement, now: int, id: Id)
    requires w.out.id in h.byId ==> h.byId[w.out.id] == WrapUp
    ensures SlotKept(h, AckNotice(h, w, ack, now), id)
  {
    var i := AckedItem(h, w, ack);
    if i.out.state == Delivered {
      assert AckNotice(h, w, ack, now).byId == h.byId[i.out.id := Listed(|h.items|)];
    }
  }

  lemma AdmissionKeepsSlot(h: Hub, s: Step, id: Id)
    requires (s.DoSend? || s.DoStart? || s.DoCarry?) && Enabled(h, s)
    ensures SlotKept(h, Do(h, s), id)
  {
    match s
    case DoSend(m, valid, callerGone) =>
    case DoStart(_, _) =>
    case DoCarry(_, _) =>
  }

  lemma PromptKeepsSlots(h: Hub, s: Step)
    requires s.DoAckStart? || s.DoFailPrompt?
    ensures Do(h, s).byId == h.byId
  {
    match s
    case DoAckStart(_, _) =>
    case DoFailPrompt(_) =>
  }

  lemma SweepKeepsSlots(h: Hub, s: Step)
    requires s.DoLoad? || s.DoSetCapability? || s.DoCancelPending? || s.DoFinish?
    ensures Do(h, s).byId == h.byId
  {
    match s
    case DoLoad(rs, cutoff) =>
    case _ =>
  }

  lemma StepKeepsSlot(h: Hub, s: Step, id: Id)
    requires Indexed(h) && Enabled(h, s)
    ensures SlotKept(h, Do(h, s), id)
  {
    if s.DoClaim? {
      ClaimKeepsSlot(h, s.b, s.notice, id);
    } else if s.DoAck? {
      AckKeepsSlot(h, s.id, s.ack, s.now, id);
    } else if s.DoSend? || s.DoStart? || s.DoCarry? {
      AdmissionKeepsSlot(h, s, id);
    } else if s.DoAckStart? || s.DoFailPrompt? {
      PromptKeepsSlots(h, s);
    } else if s.DoLoad? || s.DoSetCapability? || s.DoCancelPending? || s.DoFinish? {
      SweepKeepsSlots(h, s);
    } else {
      assert Do(h, s).byId == h.byId;
    }
  }

  /** A message of a caller, not the policy's instruction. */
  predicate HostListed(h: Hub, id: Id) {
    id in h.byId && h.byId[id].Listed? && h.byId[id].k < |h.items| && h.items[h.byId[id].k].origin != Policy
  }

  lemma StepKeepsHost(h: Hub, s: Step, id: Id)
    requires Indexed(h) && Enabled(h, s) && HostListed(h, id)
    ensures HostListed(Do(h, s), id)
  {
    StepKeepsSlot(h, s, id);
    StepEvolves(h, s, h.byId[id].k);
  }

  lemma {:induction false} RunKeepsSlot(h: Hub, steps: seq<Step>, id: Id)
    requires Inv(h)
    ensures SlotKept(h, Run(h, steps), id)
    decreases |steps|
  {
    if steps != [] {
      var front, s := steps[..|steps| - 1], steps[|steps| - 1];
      RunKeepsSlot(h, front, id);
      RunKeepsInv(h, front);
      if Enabled(Run(h, front), s) {
        StepKeepsSlot(Run(h, front), s, id);
      }
    }
  }

  lemma AdmittedIsKnown(h: Hub, m: Message, valid: bool, callerGone: bool)
    requires SendVerdict(h, m, valid, callerGone) == Admitted
    ensures m.id in SendPass(h, m, valid, callerGone).byId
    ensures m.id !in h.byId ==> HostListed(SendPass(h, m, valid, callerGone), m.id)
  {
  }

  /**
    In every run: a message whose Send returned nil is, once the hub has finished, settled by exactly one
    terminal update if and only if its id is not that of an instruction that was never delivered; in that
    case it has none. An id the hub did not know at the Send is always settled.
  */
  lemma SendIsSettled(policy: Limits, cap: Capability, resume: bool, limitId: Id, before: seq<Step>,
                      m: Message, valid: bool, callerGone: bool, after: seq<Step>)
    requires policy.maxTurns >= 1 && limitId != ""
    requires SendVerdict(Run(NewHub(policy, cap, resume, limitId), before), m, valid, callerGone) == Admitted
    requires Run(NewHub(policy, cap, resume, limitId), before + [DoSend(m, valid, callerGone)] + after).finished
    ensures var h := Run(NewHub(policy, cap, resume, limitId), before + [DoSend(m, valid, callerGone)] + after);
            && (Terminals(h.log, m.id) == 1 <==> !IsUndelivered(h, m.id))
            && (Terminals(h.log, m.id) == 0 <==> IsUndelivered(h, m.id))
            && (m.id !in Run(NewHub(policy, cap, resume, limitId), before).byId ==> !IsUndelivered(h, m.id))
  {
    var h0 := NewHub(policy, cap, resume, limitId);
    var h1 := Run(h0, before);
    var send := DoSend(m, valid, callerGone);
    NewHubInv(policy, cap, resume, limitId);
    RunIsSealed(h0, before + [send] + after);
    RunIsSealed(h0, before + [send]);
    assert (before + [send])[..|before|] == before;
    assert Run(h0, before + [send]) == SendPass(h1, m, valid, callerGone);
    AdmittedIsKnown(h1, m, valid, callerGone);
    RunAppend(h0, before + [send], after);
    RunKeepsSlot(Run(h0, before + [send]), after, m.id);
    KnownIsSettled(Run(h0, before + [send] + after), m.id);
  }

  // ---------- a nil reply without an outcome ----------

  const TWO_TURNS := Limits(false, 32, 2)
  const IN_RUN := Capability({}, false, true, 0, InBytes)

  lemma OneTurnDone(limitId: Id)
    ensures var h := CompleteTurn(NewHub(TWO_TURNS, IN_RUN, true, limitId), true);
            && h.turns == 1 && h.turn == 2 && h.warned && h.items == [] && h.byId == map[] && h.delivered == {} && h.wrapUp == None
            && h.policy == TWO_TURNS && h.cap == IN_RUN && h.resume && !h.finished && !h.cancelled && !h.gone && h.limitId == limitId
  {
    assert Threshold(2) == 1;
  }

  /** A claim at turn end of the one waiting message brings the instruction along. */
  lemma InstructionJoins(h: Hub, notice: NoticeText)
    requires ClaimOpen(h, TurnEnd) && |h.items| == 1 && h.items[0].Pending() && !Gone(h, h.items[0]) && Eligible(h.items[0], TurnEnd)
    requires h.cap.maxUnits == 0 && WrapUpDue(h, h.turn) && h.wrapUp.None? && h.limitId !in h.byId && h.limitId !in h.delivered
    ensures var g := Claim(h, TurnEnd, notice).hub; IsUndelivered(g, h.limitId) && SameRun(h, g)
  {
    var p := Scan(h, TurnEnd, 1);
    assert Scan(h, TurnEnd, 0) == Batch(LinesOf(h), [], 0, false);
    assert p.lines == LinesOf(h) && p.picked == [0];
    assert With(h, p.lines) == h;
    NoticeFollows(h, [0], notice);
  }

  lemma NoticeFollows(h: Hub, picked: seq<nat>, notice: NoticeText)
    requires picked == [0] && |h.items| == 1 && h.cap.maxUnits == 0 && WrapUpDue(h, h.turn)
    requires h.wrapUp.None? && h.limitId !in h.byId && h.limitId !in h.delivered
    ensures IsUndelivered(ClaimBatch(h, picked, TurnEnd, notice).hub, h.limitId)
  {
    var taken := With(h, TakeAll(LinesOf(h), picked, TurnEnd, h.turn));
    var offers := Offers(h.items, picked);
    var i := NoticeItem(taken, offers[0].timing, notice);
    assert i.out.id == h.limitId;
    assert NoticeJoins(taken, TurnEnd, i, offers);
    assert JoinNotice(taken, TurnEnd, h.turn, i).byId[h.limitId] == WrapUp;
  }

  lemma FirstSend(h: Hub, m: Message)
    requires !h.finished && !h.cancelled && !h.gone && h.items == [] && h.byId == map[] && h.delivered == {}
    requires h.policy == TWO_TURNS && h.cap == IN_RUN && h.resume && m.timing == Soon
    ensures SendVerdict(h, m, true, false) == Admitted
    ensures var g := SendPass(h, m, true, false);
            && SameRun(h, g) && g.items == [NewItem(m, Sent)] && g.byId == map[m.id := Listed(0)] && g.delivered == {}
            && g.wrapUp == h.wrapUp && g.limitId == h.limitId && g.warned == h.warned
  {
  }

  /** The hub after a turn, a Send and a claim at turn end, with a limit of two turns. */
  function Near(limitId: Id, m: Message, notice: NoticeText): Hub {
    Claim(SendPass(CompleteTurn(NewHub(TWO_TURNS, IN_RUN, true, limitId), true), m, true, false), TurnEnd, notice).hub
  }

  lemma NearHasInstruction(limitId: Id, m: Message, notice: NoticeText)
    requires m.timing == Soon && m.id != limitId
    ensures var h := Near(limitId, m, notice);
            && IsUndelivered(h, limitId) && !h.finished && !h.cancelled && !h.gone
            && h.policy == TWO_TURNS && h.cap == IN_RUN && h.resume
  {
    var h1 := CompleteTurn(NewHub(TWO_TURNS, IN_RUN, true, limitId), true);
    OneTurnDone(limitId);
    FirstSend(h1, m);
    InstructionJoins(SendPass(h1, m, true, false), notice);
  }

  lemma RunOne(h: Hub, steps: seq<Step>, s: Step)
    requires Enabled(Run(h, steps), s)
    ensures Run(h, steps + [s]) == Do(Run(h, steps), s)
  {
    assert (steps + [s])[..|steps|] == steps;
  }

  lemma NearIsRun(limitId: Id, m: Message, notice: NoticeText)
    ensures Run(NewHub(TWO_TURNS, IN_RUN, true, limitId), [DoCompleteTurn(true), DoSend(m, true, false), DoClaim(TurnEnd, notice)])
            == Near(limitId, m, notice)
  {
    var h0 := NewHub(TWO_TURNS, IN_RUN, true, limitId);
    var a, b, c := DoCompleteTurn(true), DoSend(m, true, false), DoClaim(TurnEnd, notice);
    RunOne(h0, [], a);
    RunOne(h0, [a], b);
    RunOne(h0, [a, b], c);
    assert [] + [a] == [a] && [a] + [b] == [a, b] && [a, b] + [c] == [a, b, c];
  }

  /**
    With a limit of two turns: after a turn, a Send and a claim, a Send under the instruction's id returns
    nil, and when the hub finishes that id has no terminal update.
  */
  lemma NilWithoutOutcome(limitId: Id, m: Message, own: Message, notice: NoticeText) returns (before: seq<Step>)
    requires limitId != "" && m.timing == Soon && own.timing == Soon && own.id == limitId && m.id != limitId
    ensures SendVerdict(Run(NewHub(TWO_TURNS, IN_RUN, true, limitId), before), own, true, false) == Admitted
    ensures var h := Run(NewHub(TWO_TURNS, IN_RUN, true, limitId), before + [DoSend(own, true, false)] + [DoFinish(RunFailed)]);
            h.finished && Terminals(h.log, limitId) == 0
  {
    var h0 := NewHub(TWO_TURNS, IN_RUN, true, limitId);
    before := [DoCompleteTurn(true), DoSend(m, true, false), DoClaim(TurnEnd, notice)];
    NearIsRun(limitId, m, notice);
    NearHasInstruction(limitId, m, notice);
    var near := Near(limitId, m, notice);
    RunOne(h0, before, DoSend(own, true, false));
    assert SendPass(near, own, true, false) == near;
    RunOne(h0, before + [DoSend(own, true, false)], DoFinish(RunFailed));
    SweepKeepsSlots(near, DoFinish(RunFailed));
    FinishSeals(near, RunFailed);
    SendIsSettled(TWO_TURNS, IN_RUN, true, limitId, before, own, true, false, [DoFinish(RunFailed)]);
  }
}
