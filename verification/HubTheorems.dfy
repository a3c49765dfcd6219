/** What the message hub promises over every run. */
module HubTheorems {
  import opened Common
  import opened Utf8
  import opened HubModel
  import opened HubInvariants
  import opened HubSteps

  // ---------- reading the journal ----------

  predicate IsTerminal(e: Entry, id: Id) {
    e.Update? && e.out.id == id && e.out.state != Accepted
  }

  predicate IsAdmission(e: Entry, id: Id) {
    e.Update? && e.out.id == id && e.out.state == Accepted
  }

  function Terminals(log: seq<Entry>, id: Id): nat {
    if log == [] then 0 else Terminals(log[..|log| - 1], id) + if IsTerminal(log[|log| - 1], id) then 1 else 0
  }

  ghost predicate Admits(log: seq<Entry>, id: Id) {
    exists e | e in log :: IsAdmission(e, id)
  }

  lemma {:induction false} BadIsForever(log: seq<Entry>, id: Id, n: nat)
    requires PhaseIn(log, id) != Bad && n <= |log|
    ensures PhaseIn(log[..n], id) != Bad
    decreases |log| - n
  {
    if n < |log| {
      BadIsForever(log, id, n + 1);
      assert log[..n + 1][..n] == log[..n];
    } else {
      assert log[..n] == log;
    }
  }

  lemma AdmitsSnoc(log: seq<Entry>, e: Entry, id: Id)
    ensures Admits(log + [e], id) <==> Admits(log, id) || IsAdmission(e, id)
  {
    if Admits(log, id) {
      var x :| x in log && IsAdmission(x, id);
      assert x in log + [e];
    }
    if IsAdmission(e, id) {
      assert e in log + [e];
    }
  }

  /** What a lawful phase says about terminal updates and admissions. */
  ghost predicate Told(p: Phase, terminals: nat, admitted: bool) {
    match p
    case Unknown => terminals == 0 && !admitted
    case Waiting(host, _, _) => terminals == 0 && (admitted <==> host)
    case Out(host, _, _) => terminals == 0 && (admitted <==> host)
    case Settled(reported) => terminals == (if reported then 1 else 0) && (admitted ==> reported)
    case Bad => true
  }

  lemma {:induction false} JournalTells(log: seq<Entry>, id: Id)
    ensures Told(PhaseIn(log, id), Terminals(log, id), Admits(log, id))
    decreases |log|
  {
    if log != [] {
      var front, e := log[..|log| - 1], log[|log| - 1];
      assert log == front + [e];
      JournalTells(front, id);
      AdmitsSnoc(front, e, id);
    }
  }

  ghost predicate ReturnedIn(log: seq<Entry>, id: Id, maybe: bool) {
    exists e | e in log :: e.Returned? && e.id == id && (maybe ==> e.maybe)
  }

  lemma ReturnedSnoc(log: seq<Entry>, e: Entry, id: Id, maybe: bool)
    ensures ReturnedIn(log + [e], id, maybe) <==> ReturnedIn(log, id, maybe) || (e.Returned? && e.id == id && (maybe ==> e.maybe))
  {
    if ReturnedIn(log, id, maybe) {
      var x :| x in log && x.Returned? && x.id == id && (maybe ==> x.maybe);
      assert x in log + [e];
    }
    assert e in log + [e];
  }

  /** A phase that still has somewhere to go remembers exactly which returns there were. */
  ghost predicate Remembers(p: Phase, returned: bool, maybe: bool) {
    match p
    case Unknown => !returned && !maybe
    case Waiting(_, requeued, flagged) => requeued == returned && flagged == maybe
    case Out(_, requeued, flagged) => requeued == returned && flagged == maybe
    case Settled(_) => true
    case Bad => true
  }

  lemma {:induction false} PhaseRemembers(log: seq<Entry>, id: Id)
    ensures Remembers(PhaseIn(log, id), ReturnedIn(log, id, false), ReturnedIn(log, id, true))
    decreases |log|
  {
    if log != [] {
      var front, e := log[..|log| - 1], log[|log| - 1];
      assert log == front + [e];
      PhaseRemembers(front, id);
      ReturnedSnoc(front, e, id, false);
      ReturnedSnoc(front, e, id, true);
    }
  }

  predicate IsReturn(e: Entry, id: Id) {
    e.Returned? && e.id == id
  }

  lemma {:induction false} OutUntilReturned(log: seq<Entry>, id: Id, a: nat, b: nat)
    requires a <= b <= |log| && PhaseIn(log, id) != Bad
    requires PhaseIn(log[..a], id).Out? || PhaseIn(log[..a], id).Settled?
    requires forall r | a <= r < b :: !IsReturn(log[r], id)
    ensures PhaseIn(log[..b], id).Out? || PhaseIn(log[..b], id).Settled?
    decreases b
  {
    if a < b {
      OutUntilReturned(log, id, a, b - 1);
      assert log[..b][..b - 1] == log[..b - 1];
      BadIsForever(log, id, b);
    }
  }

  lemma PhaseAtHand(log: seq<Entry>, n: nat, id: Id)
    requires PhaseIn(log, id) != Bad && HandedAt(log, n, id)
    ensures MayHand(PhaseIn(log[..n], id), log[n].at, log[n].flagged) && PhaseIn(log[..n + 1], id).Out?
  {
    assert log[..n + 1][..n] == log[..n];
    BadIsForever(log, id, n + 1);
  }

  /**
    A message handed out twice was returned in between; a returned one is offered again only at stop or
    turn end, and it is flagged exactly if some return said that it may have been delivered.
  */
  lemma HandedAgain(log: seq<Entry>, id: Id, i: nat, j: nat)
    requires PhaseIn(log, id) != Bad && HandedAt(log, i, id) && HandedAt(log, j, id) && i < j
    ensures exists r | i < r < j :: IsReturn(log[r], id)
    ensures log[j].at == Some(Stop) || log[j].at == Some(TurnEnd)
    ensures log[j].flagged <==> ReturnedIn(log[..j], id, true)
  {
    PhaseAtHand(log, i, id);
    PhaseAtHand(log, j, id);
    PhaseRemembers(log[..j], id);
    assert exists r | i < r < j :: IsReturn(log[r], id) by {
      if forall r | i + 1 <= r < j :: !IsReturn(log[r], id) {
        OutUntilReturned(log, id, i + 1, j);
      }
    }
    var r :| i < r < j && IsReturn(log[r], id);
    assert log[..j][r] == log[r];
    assert ReturnedIn(log[..j], id, false);
  }

  // ---------- turns ----------

  lemma NumberAt(log: seq<Entry>, n: nat)
    requires n < |log| && log[n].TurnEnded?
    ensures var before := |TurnNumbers(log[..n])|; before < |TurnNumbers(log)| && TurnNumbers(log)[before] == log[n].turn
  {
    assert log[..n + 1] + log[n + 1..] == log;
    NumbersAppend(log[..n + 1], log[n + 1..]);
    assert log[..n + 1][..n] == log[..n];
  }

  lemma NumbersGrow(log: seq<Entry>, i: nat, j: nat)
    requires i < j <= |log| && log[i].TurnEnded?
    ensures |TurnNumbers(log[..i])| < |TurnNumbers(log[..j])|
  {
    assert log[..j][..i] == log[..i];
    NumberAt(log[..j], i);
  }

  lemma TurnOfEntry(h: Hub, n: nat)
    requires Inv(h) && n < |h.log| && h.log[n].TurnEnded?
    ensures h.log[n].turn == |TurnNumbers(h.log[..n])| + 1
  {
    NumberAt(h.log, n);
  }

  lemma EndedIsDelivered(h: Hub, n: nat, id: Id)
    requires Inv(h) && n < |h.log| && h.log[n].TurnEnded? && id in h.log[n].ids
    ensures DeliveredThen(h, id, h.log[n].turn)
  {
    assert EntryLawful(h, h.log[n]);
    var j :| 0 <= j < |h.log[n].ids| && h.log[n].ids[j] == id;
    assert DeliveredThen(h, h.log[n].ids[j], h.log[n].turn);
  }

  /** A message belongs to at most one completed turn. */
  lemma AtMostOneTurn(h: Hub, i: nat, j: nat, id: Id)
    requires Inv(h) && i < |h.log| && j < |h.log| && h.log[i].TurnEnded? && h.log[j].TurnEnded?
    requires id in h.log[i].ids && id in h.log[j].ids
    ensures i == j
  {
    EndedIsDelivered(h, i, id);
    EndedIsDelivered(h, j, id);
    TurnOfEntry(h, i);
    TurnOfEntry(h, j);
    if i < j {
      NumbersGrow(h.log, i, j);
    } else if j < i {
      NumbersGrow(h.log, j, i);
    }
  }

  // ---------- sealing ----------

  predicate Sealed(h: Hub) {
    h.finished ==> Idle(h)
  }

  lemma IdleSweep(h: Hub, sweep: Sweep, n: nat)
    requires Idle(h) && n <= |h.items|
    ensures SweepTo(h, sweep, n) == LinesOf(h)
  {
    SweepInduction(h, sweep, n, l => l == LinesOf(h));
  }

  lemma IdleSweepAll(h: Hub, sweep: Sweep)
    requires Idle(h)
    ensures SweepAll(h, sweep) == h
  {
    IdleSweep(h, sweep, |h.items|);
    assert With(h, LinesOf(h)) == h;
  }

  /** The pass over the first items has failed each of them. */
  lemma {:induction false} FinishingSettles(h: Hub, reason: Reason, n: nat)
    requires n <= |h.items|
    ensures var l := SweepTo(h, Finishing(reason), n);
            (forall k | 0 <= k < n :: l.items[k].out.state != Accepted) && (forall k | n <= k < |h.items| :: l.items[k] == h.items[k])
  {
    if n > 0 {
      FinishingSettles(h, reason, n - 1);
    }
  }

  lemma IdleAckNotice(h: Hub, w: Item, ack: Acknowledgement, now: int)
    requires Idle(h)
    ensures Idle(AckNotice(h, w, ack, now))
  {
    var i := AckedItem(h, w, ack);
    if i.out.state == Delivered {
      assert AckNotice(h, w, ack, now).items == h.items + [i];
    }
  }

  lemma IdleAck(h: Hub, id: Id, ack: Acknowledgement, now: int)
    requires h.finished && Idle(h)
    ensures Ack(h, id, ack, now).finished && Idle(Ack(h, id, ack, now))
  {
    if h.wrapUp.Some? {
      IdleAckNotice(h, h.wrapUp.value, ack, now);
    }
  }

  lemma IdleStays(h: Hub, s: Step)
    requires Inv(h) && h.finished && Idle(h) && Enabled(h, s)
    ensures Do(h, s).finished && Idle(Do(h, s))
  {
    match s
    case DoLoad(rs, cutoff) => IdleSweepAll(Remember(h, rs, cutoff), Deduplicating);
    case DoSetCapability(cap) => IdleSweepAll(h.(cap := cap), Reconciling);
    case DoAck(id, ack, now) => IdleAck(h, id, ack, now);
    case DoFailPrompt(id) =>
      if id in h.byId {
        assert Resolves(h, id);
      }
    case DoAckStart(success, now) =>
    case DoCancelPending => IdleSweepAll(h.(cancelled := true), Cancelling);
    case DoFinish(reason) => IdleSweepAll(h.(finished := true), Finishing(reason));
    case _ =>
  }

  lemma ClaimOnlyHands(h: Hub, b: Boundary, notice: NoticeText)
    ensures Claim(h, b, notice).hub.finished == h.finished
  {
  }

  lemma OnlySealingFinishes(h: Hub, s: Step)
    requires Enabled(h, s) && !s.DoFinish? && !s.DoCloseIfIdle?
    ensures Do(h, s).finished == h.finished
  {
    match s
    case DoClaim(b, notice) => ClaimOnlyHands(h, b, notice);
    case _ =>
  }

  lemma FinishSeals(h: Hub, reason: Reason)
    ensures Finish(h, reason).finished && Idle(Finish(h, reason))
  {
    var g := h.(finished := true);
    FinishingSettles(g, reason, |g.items|);
    var l := SweepTo(g, Finishing(reason), |g.items|);
    assert Finish(h, reason).items == l.items;
    assert |l.items| == |g.items|;
    forall k | 0 <= k < |l.items| ensures l.items[k].out.state != Accepted {
      assert k < |g.items|;
      assert SweepTo(g, Finishing(reason), |g.items|).items[k].out.state != Accepted;
    }
  }

  lemma SealedKept(h: Hub, s: Step)
    requires Inv(h) && Sealed(h) && Enabled(h, s)
    ensures Sealed(Do(h, s))
  {
    if h.finished {
      IdleStays(h, s);
    } else if s.DoFinish? {
      FinishSeals(h, s.reason);
    } else if !s.DoCloseIfIdle? {
      OnlySealingFinishes(h, s);
    }
  }

  lemma RunIsSealed(h: Hub, steps: seq<Step>)
    requires Inv(h) && Sealed(h)
    ensures Inv(Run(h, steps)) && Sealed(Run(h, steps))
  {
    forall g: Hub, s: Step | Inv(g) && Sealed(g) && Enabled(g, s) ensures Inv(Do(g, s)) && Sealed(Do(g, s)) {
      StepKeepsInv(g, s);
      SealedKept(g, s);
    }
    RunInduction(h, steps, g => Inv(g) && Sealed(g));
  }

  lemma {:induction false} RunStaysFinished(h: Hub, steps: seq<Step>)
    requires Inv(h) && Sealed(h) && h.finished
    ensures Run(h, steps).finished && Idle(Run(h, steps))
    decreases |steps|
  {
    if steps != [] {
      var front, s := steps[..|steps| - 1], steps[|steps| - 1];
      RunStaysFinished(h, front);
      RunIsSealed(h, front);
      if Enabled(Run(h, front), s) {
        IdleStays(Run(h, front), s);
      }
    }
  }

  lemma {:induction false} RunAppend(h: Hub, first: seq<Step>, second: seq<Step>)
    ensures Run(h, first + second) == Run(Run(h, first), second)
    decreases |second|
  {
    if second == [] {
      assert first + second == first;
    } else {
      var n := |second| - 1;
      assert (first + second)[..|first + second| - 1] == first + second[..n];
      RunAppend(h, first, second[..n]);
    }
  }

  /** After a run in which the hub finished, whatever runs next, every Send is rejected and admits nothing. */
  lemma NoSendAfterFinish(policy: Limits, cap: Capability, resume: bool, limitId: Id, before: seq<Step>, after: seq<Step>,
                          m: Message, valid: bool, callerGone: bool)
    requires policy.maxTurns >= 1 && limitId != "" && Run(NewHub(policy, cap, resume, limitId), before).finished
    ensures var h := Run(NewHub(policy, cap, resume, limitId), before + after);
            && h.finished && Idle(h)
            && SendVerdict(h, m, valid, callerGone) == Rejected(RunFailed)
            && SendPass(h, m, valid, callerGone) == h
  {
    var h0 := NewHub(policy, cap, resume, limitId);
    NewHubInv(policy, cap, resume, limitId);
    RunIsSealed(h0, before);
    RunAppend(h0, before, after);
    RunStaysFinished(Run(h0, before), after);
  }

  // ---------- the theorem about messages ----------

  /**
    From a new hub, over any interleaving of steps: no id's journal ever leaves its lawful order, no id
    has two terminal updates, and once the hub has finished every admitted message has exactly one.
  */
  lemma ExactlyOneOutcome(policy: Limits, cap: Capability, resume: bool, limitId: Id, steps: seq<Step>, id: Id)
    requires policy.maxTurns >= 1 && limitId != ""
    ensures var h := Run(NewHub(policy, cap, resume, limitId), steps);
            && PhaseIn(h.log, id) != Bad
            && Terminals(h.log, id) <= 1
            && (h.finished && Admits(h.log, id) ==> Terminals(h.log, id) == 1)
  {
    var h0 := NewHub(policy, cap, resume, limitId);
    var h := Run(h0, steps);
    NewHubInv(policy, cap, resume, limitId);
    RunIsSealed(h0, steps);
    JournalTells(h.log, id);
    assert PhaseIn(h.log, id) == Expected(h, id);
    if id in h.byId {
      assert Resolves(h, id);
      if h.byId[id] == WrapUp {
        assert NoticeIndexed(h, h.wrapUp.value);
      }
    }
  }

  /** Over every run, no message is handed out again without a return in between; see HandedAgain. */
  lemma ClaimOwnership(policy: Limits, cap: Capability, resume: bool, limitId: Id, steps: seq<Step>, id: Id, i: nat, j: nat)
    requires policy.maxTurns >= 1 && limitId != ""
    requires var log := Run(NewHub(policy, cap, resume, limitId), steps).log; HandedAt(log, i, id) && HandedAt(log, j, id) && i < j
    ensures var log := Run(NewHub(policy, cap, resume, limitId), steps).log;
            && (exists r | i < r < j :: IsReturn(log[r], id))
            && (log[j].at == Some(Stop) || log[j].at == Some(TurnEnd))
            && (log[j].flagged <==> ReturnedIn(log[..j], id, true))
  {
    ExactlyOneOutcome(policy, cap, resume, limitId, steps, id);
    HandedAgain(Run(NewHub(policy, cap, resume, limitId), steps).log, id, i, j);
  }

  /**
    In every run, whatever has become of either: each hand-out of a sent message comes, in the journal,
    after every earlier admitted message of its timing was handed out or settled.
  */
  lemma AdmissionOrder(policy: Limits, cap: Capability, resume: bool, limitId: Id, steps: seq<Step>, i: nat, j: nat, n: nat)
    requires policy.maxTurns >= 1 && limitId != ""
    requires var h := Run(NewHub(policy, cap, resume, limitId), steps);
             && i < j < |h.items| && h.items[j].origin == Sent && h.items[i].out.timing == h.items[j].out.timing
             && HandedAt(h.log, n, h.items[j].out.id)
    ensures var h := Run(NewHub(policy, cap, resume, limitId), steps); Touched(h.log[..n], h.items[i].out.id)
  {
    var h0 := NewHub(policy, cap, resume, limitId);
    NewHubInv(policy, cap, resume, limitId);
    RunKeepsInv(h0, steps);
    var h := Run(h0, steps);
    assert Rivals(h.items[i], h.items[j]);
    assert HandedAfter(h.log, h.items[i].out.id, h.items[j].out.id);
  }

  /** Turns are numbered 1, 2, 3, ..., never above MaxTurns, and every hand-out is for a turn in that range. */
  lemma TurnBudget(policy: Limits, cap: Capability, resume: bool, limitId: Id, steps: seq<Step>)
    requires policy.maxTurns >= 1 && limitId != ""
    ensures var h := Run(NewHub(policy, cap, resume, limitId), steps);
            && h.turn == h.turns + 1 && h.turns <= h.policy.maxTurns
            && |TurnNumbers(h.log)| == h.turns && (forall n | 0 <= n < h.turns :: TurnNumbers(h.log)[n] == n + 1)
            && (forall e | e in h.log && e.Handed? :: 1 <= e.turn <= h.policy.maxTurns)
            && NeverHandedCount(h.items) <= h.policy.maxPending
  {
    var h0 := NewHub(policy, cap, resume, limitId);
    NewHubInv(policy, cap, resume, limitId);
    RunKeepsInv(h0, steps);
    var h := Run(h0, steps);
    forall e | e in h.log && e.Handed? ensures 1 <= e.turn <= h.policy.maxTurns {
      assert EntryLawful(h, e);
    }
  }
}
