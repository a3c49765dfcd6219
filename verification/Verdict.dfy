/**
  invocation.go and sink.go: which of several racing failures becomes the outcome of a Driver.Run. The
  sink remembers failures as they are reported; classification and finalization read that memory. The
  reference reads the history instead.
*/
module Verdict {
  import opened Common

  /** An error as the set of causes it wraps; the empty set is nil, joining is union. */
  datatype Cause = Canceled | DeadlineExceeded | ApprovalAbort | Other(text: string)
  type Error = set<Cause>

  datatype Code = Cancelled | AgentError | Reject | Timeout | Protocol(name: string)
  datatype Failure = Failure(code: Code, message: string)

  // ---------- the sink's memory ----------

  datatype Sink = Sink(failure: Option<Failure>, early: bool, provider: Option<Failure>, complete: bool, ctx: Error)

  const NEW := Sink(None, false, None, false, {})

  datatype Happening =
    | DecisionFailed(f: Failure)
    | TranscriptFailed(message: string)
    | StreamFailed(f: Failure)
    | Dispatched
    | ContextEnds(deadline: bool)

  function SetPending(s: Sink, f: Failure): Sink {
    if s.failure.Some? && s.early then s else s.(failure := Some(f), early := s.ctx == {})
  }

  function Note(s: Sink, h: Happening): Sink {
    match h
    case DecisionFailed(f) => SetPending(s, f)
    case TranscriptFailed(message) =>
      if s.provider.None? && s.ctx == {} then s.(provider := Some(Failure(AgentError, message))) else s
    case StreamFailed(f) => if !s.complete && s.ctx == {} then s.(provider := Some(f), complete := true) else s
    case Dispatched => s.(provider := None, complete := false)
    case ContextEnds(deadline) => if s.ctx == {} then s.(ctx := {if deadline then DeadlineExceeded else Canceled}) else s
  }

  function Replay(hs: seq<Happening>): Sink {
    if hs == [] then NEW else Note(Replay(hs[..|hs| - 1]), hs[|hs| - 1])
  }

  function EarlyFailure(s: Sink): Option<Failure> {
    if s.early then s.failure else None
  }

  // ---------- classification and finalization ----------

  datatype Response = Response(failure: Option<Failure>, exitCode: int, signal: string, timedOut: bool, checkpoint: bool)

  /** `early` and `provider` were read from the sink just before, `ctx` is the context's error when it gets here. */
  function Classify(early: Option<Failure>, provider: Option<Failure>, complete: bool, ctx: Error, resp: Response, err: Error): (Response, Error) {
    if early.Some? then (resp, err)
    else if provider.Some? then
      (if (complete && ctx != {}) || resp.failure.None? || resp.failure.value.code == Cancelled then resp.(failure := provider) else resp, err)
    else if ctx != {} then
      var diagnostic: Error := if resp.failure.Some? && resp.failure.value.code != Cancelled then {Other(resp.failure.value.message)} else {};
      (if resp.failure.Some? then resp.(failure := Some(Failure(Cancelled, "context"))) else resp, ctx + err + diagnostic)
    else if resp.failure.Some? || err != {} then (resp, err)
    else if resp.exitCode == 0 && resp.signal == "" && !resp.timedOut then (resp, {})
    else (resp.(failure := Some(Failure(AgentError, "process"))), {})
  }

  /** `Business` carries its partial result; `Joined` also the error a cancellation left. */
  datatype Outcome = Success | Business(f: Failure) | Joined(f: Failure, err: Error) | Aborted | Plain(err: Error)

  predicate ContextError(err: Error) {
    Canceled in err || DeadlineExceeded in err
  }

  function Finalize(pending: Option<Failure>, early: Option<Failure>, provider: Option<Failure>, resp: Response, err: Error): Outcome {
    var providerFirst := early.None? && provider.Some?;
    var failure := if pending.Some? && !providerFirst && (!ContextError(err) || early.Some?) then pending else resp.failure;
    if failure.Some? then
      (if failure.value.code == Cancelled && err != {} then Joined(failure.value, err) else Business(failure.value))
    else if err == {} then Success
    else if ContextError(err) then Plain(err)
    else if ApprovalAbort in err then Aborted
    else Plain(err)
  }

  /**
    The sink at each of the six places where it, or the context, is read between a Driver's return and the
    outcome: three for classification, three for finalization. Each read takes its own lock, so more can
    happen between any two of them.
  */
  datatype Looks<T> = Looks(decision: T, provider: T, context: T, pending: T, early: T, last: T)

  /** Classification, then the structured output's failure if nothing has failed yet, then finalization. */
  function Concluded(l: Looks<Sink>, resp: Response, err: Error, structured: Option<Failure>): Outcome {
    var (r, e) := Classify(EarlyFailure(l.decision), l.provider.provider, l.provider.complete, l.context.ctx, resp, err);
    Finalize(l.pending.failure, EarlyFailure(l.early), l.last.provider, if e == {} && r.failure.None? then r.(failure := structured) else r, e)
  }

  predicate CanPersist(s: Sink, resp: Response, err: Error) {
    s.ctx == {} && err == {} && s.failure.None? && resp.failure.None? && resp.exitCode == 0 && resp.signal == "" && !resp.timedOut && resp.checkpoint
  }

  // ---------- the history ----------

  predicate Live(hs: seq<Happening>) {
    forall k | 0 <= k < |hs| :: !hs[k].ContextEnds?
  }

  /** The first decision failure reported while the context was live. */
  function FirstLiveDecision(hs: seq<Happening>): Option<Failure> {
    if hs == [] then None
    else
      var front, h := hs[..|hs| - 1], hs[|hs| - 1];
      var before := FirstLiveDecision(front);
      if before.Some? then before else if h.DecisionFailed? && Live(front) then Some(h.f) else None
  }

  predicate AnyDecision(hs: seq<Happening>) {
    exists k | 0 <= k < |hs| :: hs[k].DecisionFailed?
  }

  lemma LiveSnoc(front: seq<Happening>, h: Happening)
    ensures Live(front + [h]) <==> Live(front) && !h.ContextEnds?
  {
    var hs := front + [h];
    assert hs[|front|] == h;
    if Live(hs) {
      forall k | 0 <= k < |front| ensures !front[k].ContextEnds? {
        assert hs[k] == front[k];
      }
    }
    if Live(front) && !h.ContextEnds? {
      forall k | 0 <= k < |hs| ensures !hs[k].ContextEnds? {
        assert k < |front| ==> hs[k] == front[k];
      }
    }
  }

  lemma NoteContext(s: Sink, h: Happening)
    ensures Note(s, h).ctx == {} <==> s.ctx == {} && !h.ContextEnds?
  {
    match h
    case ContextEnds(deadline) =>
      var cause := if deadline then DeadlineExceeded else Canceled;
      assert cause in {cause};
    case _ =>
  }

  lemma {:induction false} MemoryOfContext(hs: seq<Happening>)
    ensures Replay(hs).ctx == {} <==> Live(hs)
    decreases |hs|
  {
    if hs != [] {
      var front, h := hs[..|hs| - 1], hs[|hs| - 1];
      assert hs == front + [h];
      MemoryOfContext(front);
      LiveSnoc(front, h);
      NoteContext(Replay(front), h);
    }
  }

  /** The sink holds the first decision failure of the live run for good, and any failure at all is kept. */
  lemma {:induction false} MemoryOfDecisions(hs: seq<Happening>)
    ensures EarlyFailure(Replay(hs)) == FirstLiveDecision(hs)
    ensures Replay(hs).failure.Some? <==> AnyDecision(hs)
    ensures Replay(hs).early ==> Replay(hs).failure.Some?
    decreases |hs|
  {
    if hs != [] {
      var front, h := hs[..|hs| - 1], hs[|hs| - 1];
      MemoryOfDecisions(front);
      MemoryOfContext(front);
      assert hs == front + [h];
      assert AnyDecision(hs) <==> AnyDecision(front) || h.DecisionFailed? by {
        if AnyDecision(front) {
          var k :| 0 <= k < |front| && front[k].DecisionFailed?;
          assert hs[k].DecisionFailed?;
        }
      }
    }
  }

  predicate ProviderFails(h: Happening) {
    h.TranscriptFailed? || h.StreamFailed?
  }

  /** Some provider failure was reported since the last dispatch while the context was live. */
  predicate ProviderSeen(hs: seq<Happening>) {
    hs != [] &&
    (var front, h := hs[..|hs| - 1], hs[|hs| - 1];
     h != Dispatched && (ProviderSeen(front) || (ProviderFails(h) && Live(front))))
  }

  lemma {:induction false} MemoryOfProvider(hs: seq<Happening>)
    ensures Replay(hs).provider.Some? <==> ProviderSeen(hs)
    ensures Replay(hs).complete ==> Replay(hs).provider.Some?
    decreases |hs|
  {
    if hs != [] {
      MemoryOfProvider(hs[..|hs| - 1]);
      MemoryOfContext(hs[..|hs| - 1]);
    }
  }

  /** Reported since the last dispatch and while the context was live. */
  predicate ObservedAt(hs: seq<Happening>, k: nat) {
    k < |hs| && Live(hs[..k]) && forall j | k <= j < |hs| :: hs[j] != Dispatched
  }

  predicate StreamedAt(hs: seq<Happening>, k: nat) {
    k < |hs| && hs[k].StreamFailed? && ObservedAt(hs, k)
  }

  predicate TranscribedAt(hs: seq<Happening>, k: nat) {
    k < |hs| && hs[k].TranscriptFailed? && ObservedAt(hs, k)
  }

  lemma ObservedSnoc(hs: seq<Happening>, h: Happening, k: nat)
    requires k < |hs|
    ensures ObservedAt(hs + [h], k) <==> ObservedAt(hs, k) && h != Dispatched
  {
    assert (hs + [h])[..k] == hs[..k];
    var all := hs + [h];
    if ObservedAt(all, k) {
      assert all[|hs|] == h;
      forall j | k <= j < |hs| ensures hs[j] != Dispatched {
        assert all[j] == hs[j];
      }
    }
  }

  predicate NoneStreamed(hs: seq<Happening>, n: nat) {
    forall j: nat | j < n :: !StreamedAt(hs, j)
  }

  predicate NoneTranscribed(hs: seq<Happening>, n: nat) {
    forall j: nat | j < n :: !TranscribedAt(hs, j)
  }

  /** Where the sink's provider failure comes from: the first complete one, else the first transcript one. */
  predicate ProviderFrom(hs: seq<Happening>, s: Sink, k: nat) {
    if s.complete then StreamedAt(hs, k) && s.provider == Some(hs[k].f) && NoneStreamed(hs, k)
    else TranscribedAt(hs, k) && s.provider == Some(Failure(AgentError, hs[k].message)) && NoneTranscribed(hs, k) && NoneStreamed(hs, |hs|)
  }

  ghost predicate ProviderTraced(hs: seq<Happening>, s: Sink) {
    if s.provider.Some? then exists k: nat :: ProviderFrom(hs, s, k) else NoneStreamed(hs, |hs|) && NoneTranscribed(hs, |hs|) && !s.complete
  }

  lemma SameBefore(front: seq<Happening>, h: Happening)
    requires h != Dispatched
    ensures var hs := front + [h];
            forall j: nat | j < |front| :: (StreamedAt(hs, j) <==> StreamedAt(front, j)) && (TranscribedAt(hs, j) <==> TranscribedAt(front, j))
  {
    forall j: nat | j < |front| ensures ObservedAt(front + [h], j) <==> ObservedAt(front, j) {
      ObservedSnoc(front, h, j);
    }
  }

  lemma DispatchForgets(front: seq<Happening>)
    ensures var hs := front + [Dispatched]; NoneStreamed(hs, |hs|) && NoneTranscribed(hs, |hs|)
  {
    var hs := front + [Dispatched];
    assert hs[|front|] == Dispatched;
  }

  lemma {:induction false} ProviderIsFirst(hs: seq<Happening>)
    ensures ProviderTraced(hs, Replay(hs))
    decreases |hs|
  {
    if hs != [] {
      var front, h := hs[..|hs| - 1], hs[|hs| - 1];
      var s, n := Replay(front), |front|;
      ProviderIsFirst(front);
      assert hs == front + [h];
      if h == Dispatched {
        DispatchForgets(front);
      } else {
        SameBefore(front, h);
        MemoryOfContext(front);
        assert hs[..n] == front;
        assert ObservedAt(hs, n) <==> s.ctx == {};
        if s.provider.Some? {
          var k: nat :| ProviderFrom(front, s, k);
          if Replay(hs).complete == s.complete {
            assert ProviderFrom(hs, Replay(hs), k);
          } else {
            assert ProviderFrom(hs, Replay(hs), n);
          }
        } else if Replay(hs).provider.Some? {
          assert ProviderFrom(hs, Replay(hs), n);
        }
      }
    }
  }

  // ---------- precedence ----------

  /** The latest decision failure. */
  function LastDecision(hs: seq<Happening>): Option<Failure> {
    if hs == [] then None
    else if hs[|hs| - 1].DecisionFailed? then Some(hs[|hs| - 1].f)
    else LastDecision(hs[..|hs| - 1])
  }

  /** Without an early one, the sink holds the latest. */
  lemma {:induction false} MemoryOfLateDecisions(hs: seq<Happening>)
    ensures FirstLiveDecision(hs).None? ==> Replay(hs).failure == LastDecision(hs)
    decreases |hs|
  {
    if hs != [] {
      var front := hs[..|hs| - 1];
      MemoryOfLateDecisions(front);
      MemoryOfDecisions(front);
      MemoryOfContext(front);
    }
  }

  /** The reads come in this order, and no Run starts after the first of them. */
  predicate InOrder(all: seq<Happening>, at: Looks<nat>) {
    && at.decision <= at.provider <= at.context <= at.pending <= at.early <= at.last <= |all|
    && forall k | at.decision <= k < |all| :: all[k] != Dispatched
  }

  /** The sink as each read finds it. */
  function SeenAt(all: seq<Happening>, at: Looks<nat>): Looks<Sink>
    requires InOrder(all, at)
  {
    Looks(Replay(all[..at.decision]), Replay(all[..at.provider]), Replay(all[..at.context]),
          Replay(all[..at.pending]), Replay(all[..at.early]), Replay(all[..at.last]))
  }

  /**
    What the outcome must be, and which read decides each rank: a decision that failed while the context
    was live, by the read of the pending failure; a provider failure, by the read of the provider's;
    cancellation, by the read of the context; a decision that failed after a cancellation, by the read of
    the pending failure, if no provider failure has come by the last read; the response's own failure or
    error; process status; the structured output; success.
  */
  predicate Ranked(all: seq<Happening>, at: Looks<nat>, resp: Response, err: Error, structured: Option<Failure>, o: Outcome)
    requires InOrder(all, at)
  {
    var decisions := all[..at.pending];
    if FirstLiveDecision(decisions).Some? then Reports(o, FirstLiveDecision(decisions).value)
    else if ProviderSeen(all[..at.provider]) then o.Business? || o.Joined?
    else if !Live(all[..at.context]) then IsCancellation(o)
    else if LastDecision(decisions).Some? && !ProviderSeen(all[..at.last]) && !ContextError(err) then Reports(o, LastDecision(decisions).value)
    else if resp.failure.Some? then Reports(o, resp.failure.value)
    else if err != {} then o == if ApprovalAbort in err && !ContextError(err) then Aborted else Plain(err)
    else if resp.exitCode != 0 || resp.signal != "" || resp.timedOut then o == Business(Failure(AgentError, "process"))
    else if structured.Some? then o == Business(structured.value)
    else o == Success
  }

  /** The outcome's failure is this one. */
  predicate Reports(o: Outcome, f: Failure) {
    (o.Business? && o.f == f) || (o.Joined? && o.f == f)
  }

  predicate IsCancellation(o: Outcome) {
    (o.Plain? && ContextError(o.err)) || (o.Joined? && o.f.code == Cancelled && ContextError(o.err))
  }

  /** A sink that some history leaves. */
  predicate Coherent(s: Sink) {
    && (s.early ==> s.failure.Some?) && (s.failure.Some? && !s.early ==> s.ctx != {})
    && (s.ctx == {} || s.ctx == {Canceled} || s.ctx == {DeadlineExceeded})
  }

  /** `t` may be the sink some time after `s`, within the same Run. */
  predicate Follows(s: Sink, t: Sink) {
    && (s.early ==> t.early && t.failure == s.failure)
    && (s.provider.Some? ==> t.provider.Some?)
    && (s.ctx != {} ==> t.ctx == s.ctx && t.early == s.early && (s.provider.None? ==> t.provider.None?))
  }

  lemma NoteFollows(s: Sink, h: Happening)
    requires Coherent(s)
    ensures Coherent(Note(s, h)) && (h != Dispatched ==> Follows(s, Note(s, h)))
  {
  }

  lemma {:induction false} ReplayIsCoherent(hs: seq<Happening>)
    ensures Coherent(Replay(hs))
    decreases |hs|
  {
    if hs != [] {
      ReplayIsCoherent(hs[..|hs| - 1]);
      NoteFollows(Replay(hs[..|hs| - 1]), hs[|hs| - 1]);
    }
  }

  lemma {:induction false} ReplayFollows(all: seq<Happening>, i: nat, j: nat)
    requires i <= j <= |all| && forall k | i <= k < |all| :: all[k] != Dispatched
    ensures Follows(Replay(all[..i]), Replay(all[..j]))
    decreases j
  {
    if i < j {
      ReplayFollows(all, i, j - 1);
      assert all[..j][..j - 1] == all[..j - 1] && all[..j][j - 1] == all[j - 1];
      ReplayIsCoherent(all[..j - 1]);
      NoteFollows(Replay(all[..j - 1]), all[j - 1]);
    }
  }

  /** Six looks at the sink of one Run, one after the other. */
  predicate Successive(l: Looks<Sink>) {
    && Coherent(l.decision) && Coherent(l.provider) && Coherent(l.context) && Coherent(l.pending) && Coherent(l.early) && Coherent(l.last)
    && Follows(l.decision, l.provider) && Follows(l.provider, l.context) && Follows(l.context, l.pending)
    && Follows(l.pending, l.early) && Follows(l.early, l.last)
  }

  lemma LooksAreSuccessive(all: seq<Happening>, at: Looks<nat>)
    requires InOrder(all, at)
    ensures Successive(SeenAt(all, at))
  {
    ReplayIsCoherent(all[..at.decision]);
    ReplayIsCoherent(all[..at.provider]);
    ReplayIsCoherent(all[..at.context]);
    ReplayIsCoherent(all[..at.pending]);
    ReplayIsCoherent(all[..at.early]);
    ReplayIsCoherent(all[..at.last]);
    ReplayFollows(all, at.decision, at.provider);
    ReplayFollows(all, at.provider, at.context);
    ReplayFollows(all, at.context, at.pending);
    ReplayFollows(all, at.pending, at.early);
    ReplayFollows(all, at.early, at.last);
  }

  /** The same read off any six successive looks. */
  lemma ConcludedIsRanked(l: Looks<Sink>, resp: Response, err: Error, structured: Option<Failure>)
    requires Successive(l) && (structured.Some? ==> structured.value.code != Cancelled)
    ensures var o := Concluded(l, resp, err, structured);
            if EarlyFailure(l.pending).Some? then Reports(o, EarlyFailure(l.pending).value)
            else if l.provider.provider.Some? then o.Business? || o.Joined?
            else if l.context.ctx != {} then IsCancellation(o)
            else if l.pending.failure.Some? && l.last.provider.None? && !ContextError(err) then Reports(o, l.pending.failure.value)
            else if resp.failure.Some? then Reports(o, resp.failure.value)
            else if err != {} then o == (if ApprovalAbort in err && !ContextError(err) then Aborted else Plain(err))
            else if resp.exitCode != 0 || resp.signal != "" || resp.timedOut then o == Business(Failure(AgentError, "process"))
            else if structured.Some? then o == Business(structured.value)
            else o == Success
  {
    if l.context.ctx != {} {
      assert ContextError(l.context.ctx);
    }
  }

  /** Structured output fails with a policy error, never as a cancellation. */
  lemma OutcomeIsRanked(all: seq<Happening>, at: Looks<nat>, resp: Response, err: Error, structured: Option<Failure>)
    requires InOrder(all, at) && (structured.Some? ==> structured.value.code != Cancelled)
    ensures Ranked(all, at, resp, err, structured, Concluded(SeenAt(all, at), resp, err, structured))
  {
    LooksAreSuccessive(all, at);
    ConcludedIsRanked(SeenAt(all, at), resp, err, structured);
    MemoryOfDecisions(all[..at.pending]);
    MemoryOfLateDecisions(all[..at.pending]);
    MemoryOfProvider(all[..at.provider]);
    MemoryOfContext(all[..at.context]);
    MemoryOfProvider(all[..at.last]);
  }

  /** Which provider failure: the complete streamed one once cancelled, else the response's own if it has a sharper one. */
  lemma ProviderVerdict(all: seq<Happening>, at: Looks<nat>, resp: Response, err: Error, structured: Option<Failure>)
    requires InOrder(all, at) && FirstLiveDecision(all[..at.pending]).None? && ProviderSeen(all[..at.provider])
    ensures var seen := Replay(all[..at.provider]);
            && (exists k: nat :: ProviderFrom(all[..at.provider], seen, k))
            && seen.provider.Some?
            && Reports(Concluded(SeenAt(all, at), resp, err, structured),
                       if (seen.complete && !Live(all[..at.context])) || resp.failure.None? || resp.failure.value.code == Cancelled
                       then seen.provider.value else resp.failure.value)
  {
    LooksAreSuccessive(all, at);
    ProviderIsFirst(all[..at.provider]);
    MemoryOfDecisions(all[..at.pending]);
    MemoryOfProvider(all[..at.provider]);
    MemoryOfContext(all[..at.context]);
  }

  /** A decision that failed while the context was live wins even if it is reported only after classification. */
  lemma EarlyDecisionWins(all: seq<Happening>, at: Looks<nat>, resp: Response, err: Error, structured: Option<Failure>)
    requires InOrder(all, at) && FirstLiveDecision(all[..at.pending]).Some?
    ensures Reports(Concluded(SeenAt(all, at), resp, err, structured), FirstLiveDecision(all[..at.pending]).value)
  {
    LooksAreSuccessive(all, at);
    MemoryOfDecisions(all[..at.pending]);
  }

  lemma NothingPendingBefore(all: seq<Happening>, n: nat)
    requires n <= |all| && Replay(all).failure.None?
    ensures Replay(all[..n]).failure.None? && EarlyFailure(Replay(all[..n])).None?
  {
    MemoryOfDecisions(all);
    MemoryOfDecisions(all[..n]);
    assert !AnyDecision(all[..n]) by {
      forall k | 0 <= k < n ensures !all[..n][k].DecisionFailed? {
        assert all[k] == all[..n][k];
      }
    }
  }

  /** Whatever was reported up to then: if the checkpoint may be persisted, finalization, whenever it looked, was a success. */
  lemma PersistedTurnSucceeded(all: seq<Happening>, resp: Response, err: Error)
    requires CanPersist(Replay(all), resp, err)
    ensures forall i, j, k | 0 <= i <= |all| && 0 <= j <= |all| && 0 <= k <= |all| ::
              Finalize(Replay(all[..i]).failure, EarlyFailure(Replay(all[..j])), Replay(all[..k]).provider, resp, err) == Success
  {
    forall i, j, k | 0 <= i <= |all| && 0 <= j <= |all| && 0 <= k <= |all|
      ensures Finalize(Replay(all[..i]).failure, EarlyFailure(Replay(all[..j])), Replay(all[..k]).provider, resp, err) == Success
    {
      NothingPendingBefore(all, i);
      NothingPendingBefore(all, j);
    }
  }
}
