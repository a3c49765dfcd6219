/**
  invocation.go: the only loop that calls Driver.Run. What the Driver and everyone else do to the hub
  during one Run, and how that Run ends, is an arbitrary script.
*/
module ExecutionLoop {
  import opened Common
  import opened HubModel
  import opened HubInvariants
  import opened HubSteps
  import opened HubTheorems

  /**
    `rejected`: the provider refused to resume and the session may start afresh. `fails`: the turn, its
    persistence or the lease ended in an error. `resumable`: the outcome can be continued by a next Run.
    `steps` happen to the hub during the Run, the other three between the loop's own calls after it.
  */
  datatype Script = Script(
    steps: seq<Step>, rejected: bool, freshFails: bool, success: bool, ok: bool, fails: bool, resumable: bool,
    afterAck: seq<Step>, beforeTurn: seq<Step>, beforeClaim: seq<Step>, notice: NoticeText, now: int)

  /** Only the loop itself seals the hub. */
  predicate Unsealing(steps: seq<Step>) {
    forall s | s in steps :: !s.DoFinish? && !s.DoCloseIfIdle?
  }

  predicate Lawful(s: Script) {
    Unsealing(s.steps) && Unsealing(s.afterAck) && Unsealing(s.beforeTurn) && Unsealing(s.beforeClaim)
  }

  predicate Onward(h: Hub, g: Hub) {
    g.policy == h.policy && g.finished == h.finished && h.turns <= g.turns
  }

  lemma ClaimGoesOn(h: Hub, b: Boundary, notice: NoticeText)
    ensures Onward(h, Claim(h, b, notice).hub) && Claim(h, b, notice).hub.turns == h.turns
  {
  }

  lemma StepGoesOn(h: Hub, s: Step)
    requires Enabled(h, s) && !s.DoFinish? && !s.DoCloseIfIdle?
    ensures Onward(h, Do(h, s))
  {
    match s
    case DoClaim(b, notice) => ClaimGoesOn(h, b, notice);
    case _ =>
  }

  lemma {:induction false} RunGoesOn(h: Hub, steps: seq<Step>)
    requires Unsealing(steps)
    ensures Onward(h, Run(h, steps))
    decreases |steps|
  {
    if steps != [] {
      var front, s := steps[..|steps| - 1], steps[|steps| - 1];
      RunGoesOn(h, front);
      if Enabled(Run(h, front), s) {
        StepGoesOn(Run(h, front), s);
      }
    }
  }

  lemma AckPromptsKeepInv(h: Hub, ids: seq<Id>, success: bool, now: int)
    requires Inv(h)
    ensures Inv(AckPrompts(h, ids, success, now))
    decreases |ids|
  {
    if ids != [] {
      var front, id := ids[..|ids| - 1], ids[|ids| - 1];
      AckPromptsKeepInv(h, front, success, now);
      var g := AckPrompts(h, front, success, now);
      AckKeepsInv(g, id, PROMPT_DELIVERED, now);
      FailPromptKeepsInv(g, id);
    }
  }

  lemma AckPromptKeepsInv(h: Hub, success: bool, now: int)
    requires Inv(h)
    ensures Inv(AckPrompt(h, success, now))
  {
    AckStartKeepsInv(h, success, now);
    var started := AckStart(h, success, now);
    AckPromptsKeepInv(started, started.promptIds, success, now);
  }

  lemma DriverRuns(h: Hub, steps: seq<Step>)
    requires Inv(h) && !h.finished && Unsealing(steps)
    ensures var g := Run(h, steps); Inv(g) && !g.finished && g.policy == h.policy && h.turns <= g.turns
  {
    RunKeepsInv(h, steps);
    RunGoesOn(h, steps);
  }

  function Acked(h: Hub, s: Script): Hub {
    Run(AckPrompt(h, s.success, s.now), s.afterAck)
  }

  lemma AckedGoesOn(h: Hub, s: Script)
    requires Inv(h) && !h.finished && Lawful(s)
    ensures var g := Acked(h, s); Inv(g) && !g.finished && g.policy == h.policy && h.turns <= g.turns
  {
    AckPromptKeepsInv(h, s.success, s.now);
    DriverRuns(AckPrompt(h, s.success, s.now), s.afterAck);
  }

  /** ackPrompt, then completeTurn if the Driver had not reported this turn itself when that was looked up. */
  function EndOfRun(h: Hub, before: nat, s: Script): Hub {
    var acked := Acked(h, s);
    var later := Run(acked, s.beforeTurn);
    if acked.turns == before then CompleteTurn(later, s.ok) else later
  }

  /** A Run that gets this far has completed at least one turn, unless the budget was already spent. */
  lemma RunCompletesTurn(h: Hub, before: nat, s: Script)
    requires Inv(h) && !h.finished && before <= h.turns && Lawful(s)
    ensures var g := EndOfRun(h, before, s);
            Inv(g) && g.policy == h.policy && !g.finished && (g.turns > before || g.turns == g.policy.maxTurns)
  {
    AckedGoesOn(h, s);
    var acked := Acked(h, s);
    DriverRuns(acked, s.beforeTurn);
    TurnIsCompleted(Run(acked, s.beforeTurn), s.ok);
  }

  lemma TurnIsCompleted(h: Hub, ok: bool)
    requires Inv(h) && !h.finished
    ensures var g := CompleteTurn(h, ok);
            Inv(g) && g.policy == h.policy && !g.finished && (g.turns > h.turns || g.turns == g.policy.maxTurns)
  {
    CompleteTurnKeepsInv(h, ok);
  }

  lemma ClaimContinues(h: Hub, notice: NoticeText)
    requires Inv(h) && !h.finished
    ensures var g := Claim(h, TurnEnd, notice).hub; Inv(g) && !g.finished && g.policy == h.policy && g.turns == h.turns
    ensures Claim(h, TurnEnd, notice).offers != [] ==> h.turns < h.policy.maxTurns
  {
    ClaimKeepsInv(h, TurnEnd, notice);
    ClaimGoesOn(h, TurnEnd, notice);
  }

  lemma SealedEnd(h: Hub, reason: Reason)
    requires Inv(h)
    ensures var g := Finish(h, reason); Inv(g) && g.finished && Idle(g) && g.policy == h.policy && g.turns == h.turns
  {
    SweepAllKeepsInv(h, h.(finished := true), Finishing(reason));
    FinishSeals(h, reason);
  }

  function Ids(offers: seq<Offer>): seq<Id> {
    seq(|offers|, j requires 0 <= j < |offers| => offers[j].id)
  }

  /**
    The budget of the loop at its head: every Run so far but a rejected first one completed a turn, and
    the budget is not spent, unless the rejected Run alone spent it.
  */
  predicate Affordable(h: Hub, runs: nat, retried: bool) {
    runs <= h.turns + (if retried then 1 else 0) && (h.turns < h.policy.maxTurns || (retried && runs == 1))
  }

  /** The loop's next iteration, or None to leave it: everything after ackPrompt and completeTurn. */
  method Continue(done: Hub, s: Script) returns (g: Hub, next: Option<seq<Id>>)
    requires Inv(done) && !done.finished && Lawful(s)
    ensures Inv(g) && g.policy == done.policy && done.turns <= g.turns
    ensures next.Some? ==> !g.finished && g.turns < g.policy.maxTurns && next.value != []
    ensures next.None? && !s.fails ==> g.finished && Idle(g)
  {
    g, next := done, None;
    if s.fails { return; }
    if done.turns >= done.policy.maxTurns {
      SealedEnd(done, LimitExceeded);
      return Finish(done, LimitExceeded), None;
    }
    DriverRuns(done, s.beforeClaim);
    var h := Run(done, s.beforeClaim);
    if Idle(h) {
      SameCoreKeepsInv(h, CloseIfIdle(h));
      return CloseIfIdle(h), None;
    }
    if !s.resumable {
      SealedEnd(h, ProviderRejected);
      return Finish(h, ProviderRejected), None;
    }
    var claim := Claim(h, TurnEnd, s.notice);
    ClaimContinues(h, s.notice);
    if claim.offers == [] {
      SealedEnd(claim.hub, ProviderRejected);
      return Finish(claim.hub, ProviderRejected), None;
    }
    return claim.hub, Some(Ids(claim.offers));
  }

  /**
    At most MaxTurns + 1 calls of Driver.Run, given that a fresh start is no longer `reused`; whatever
    way the loop is left, the deferred finish leaves every message settled.
  */
  method Execute(hub: Hub, continuation: seq<Id>, env: nat -> Script, resuming: bool, deferred: Reason) returns (out: Hub, runs: nat)
    requires Inv(hub) && !hub.finished && hub.turns == 0
    requires forall n :: Lawful(env(n))
    ensures runs <= hub.policy.maxTurns + 1
    ensures Inv(out) && out.finished && Idle(out) && out.turns <= hub.policy.maxTurns
  {
    var h, ids := hub, continuation;
    var first, reused := true, resuming;
    ghost var retried := false;
    runs := 0;
    while true
      invariant Inv(h) && !h.finished && h.policy == hub.policy && Affordable(h, runs, retried)
      invariant (first && reused) ==> !retried && runs == 0
      decreases (if first && reused then 1 else 0) + h.policy.maxTurns - h.turns, if h.turns < h.policy.maxTurns then 1 else 0
    {
      ghost var head := h;
      var s := env(runs);
      FlagsKeepInv(h, ids);
      h := h.(promptIds := ids);
      var before := h.turns;
      DriverRuns(h, s.steps);
      h := Run(h, s.steps);
      runs := runs + 1;
      if s.rejected && first && reused {
        if s.freshFails { break; }
        reused, retried := false, true;
        continue;
      }
      RunCompletesTurn(h, before, s);
      h := EndOfRun(h, before, s);
      var next;
      h, next := Continue(h, s);
      if next.None? { break; }
      ids, first := next.value, false;
    }
    SealedEnd(h, deferred);
    out := Finish(h, deferred);
  }
}
