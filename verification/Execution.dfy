/**
  invocation.go, the end of an execution: the hub pushes its updates to the broker while it holds its
  lock, other publishers and readers use the broker at the same time, and teardown finishes the hub,
  then publishes Done, then closes. Every admitted message is reported settled exactly once, before Done.
*/
module Execution {
  import opened Common
  import EventLog
  import EventBroker
  import opened HubModel
  import opened HubInvariants
  import opened HubSteps
  import opened HubTheorems
  import opened HubClaims
  import opened HubPromises

  type Event = EventLog.Event
  type Broker = EventBroker.Broker

  /**
    `sent` journal entries have been pushed; the hub's lock is held until all are. `sealedAt` is the
    length of the journal when the hub finished, `mark` what had been pushed when Done was published.
  */
  datatype World = World(hub: Hub, broker: Broker, sent: nat, sealedAt: nat, mark: nat)

  /** The journal entries that reach the sink. */
  predicate Pushes(e: Entry) {
    e.Update? || e.TurnEnded? || e.LimitNotice?
  }

  /** The event that carries journal entry `j`; every event of the hub is critical. */
  function EventFor(j: nat): Event {
    EventLog.Event(0, "message", EventLog.Critical, None, j + 1)
  }

  datatype Act =
    | Hubbing(s: Step)
    | Pushing
    | Broking(op: EventBroker.Op)
    | Completing(done: Event)

  predicate Foreign(op: EventBroker.Op) {
    && EventBroker.Honest(op) && !op.Terminating? && !op.Closing?
    && (op.Publishing? || op.Resuming? ==> op.event.body == 0)
  }

  predicate Allowed(w: World, a: Act) {
    match a
    case Hubbing(s) => Enabled(w.hub, s) && w.sent == |w.hub.log|
    case Pushing => w.sent < |w.hub.log|
    case Broking(op) => Foreign(op) || (op.Closing? && w.broker.terminal)
    case Completing(done) =>
      w.hub.finished && w.sealedAt <= w.sent && EventBroker.Honest(EventBroker.Terminating(done)) && done.body == 0 && done.kind == "done"
  }

  function Push(w: World): Broker
    requires w.sent < |w.hub.log|
  {
    if Pushes(w.hub.log[w.sent]) then EventBroker.Publish(w.broker, EventFor(w.sent), false).0 else w.broker
  }

  function Perform(w: World, a: Act): World
    requires Allowed(w, a)
  {
    match a
    case Hubbing(s) =>
      var h := Do(w.hub, s);
      w.(hub := h, sealedAt := if h.finished && !w.hub.finished then |h.log| else w.sealedAt)
    case Pushing => w.(broker := Push(w), sent := w.sent + 1)
    case Broking(op) => w.(broker := EventBroker.Step(w.broker, op))
    case Completing(done) =>
      w.(broker := EventBroker.Terminate(w.broker, done), mark := if w.broker.terminal then w.mark else w.sent)
  }

  function Play(w: World, acts: seq<Act>): World
    decreases |acts|
  {
    if acts == [] then w
    else
      var v := Play(w, acts[..|acts| - 1]);
      if Allowed(v, acts[|acts| - 1]) then Perform(v, acts[|acts| - 1]) else v
  }

  // ---------- the journal only grows ----------

  lemma StepLog(h: Hub, s: Step)
    requires Enabled(h, s)
    ensures h.log <= Do(h, s).log
  {
    match s
    case _ =>
  }

  // ---------- what the broker has of it ----------

  function Bodies(s: seq<Event>): seq<nat> {
    if s == [] then [] else Bodies(s[..|s| - 1]) + if s[|s| - 1].body > 0 then [s[|s| - 1].body] else []
  }

  function Indices(log: seq<Entry>, n: nat): seq<nat>
    requires n <= |log|
  {
    if n == 0 then [] else Indices(log, n - 1) + if Pushes(log[n - 1]) then [n] else []
  }

  lemma {:induction false} IndicesPrefix(log: seq<Entry>, more: seq<Entry>, n: nat)
    requires n <= |log| && log <= more
    ensures Indices(more, n) == Indices(log, n)
  {
    if n > 0 {
      IndicesPrefix(log, more, n - 1);
    }
  }

  lemma BodiesSnoc(s: seq<Event>, e: Event)
    ensures Bodies(s + [e]) == Bodies(s) + if e.body > 0 then [e.body] else []
  {
    assert (s + [e])[..|s|] == s;
  }

  /** The hub's events are published as critical ones. */
  predicate HubIsCritical(s: seq<Event>) {
    forall k | 0 <= k < |s| :: s[k].body > 0 ==> s[k].weight == EventLog.Critical
  }

  predicate OneMore(b: Broker, b': Broker, e: Event) {
    && b'.closed == b.closed && b'.terminal == b.terminal
    && |b'.published| == |b.published| + 1 && b'.published[..|b.published|] == b.published
    && b'.published[|b.published|].body == e.body && b'.published[|b.published|].weight == e.weight
  }

  lemma ResumePublishes(b: Broker, e: Event, ctxDone: bool)
    ensures var b' := EventBroker.Resume(b, e, ctxDone).0; EventBroker.SamePublished(b, b') || OneMore(b, b', e)
    ensures e.weight == EventLog.Critical && !b.closed && !b.terminal ==> OneMore(b, EventBroker.Resume(b, e, ctxDone).0, e)
    ensures b.closed || b.terminal ==> EventBroker.Resume(b, e, ctxDone).0 == b
  {
  }

  lemma PublishPublishes(b: Broker, e: Event, ctxDone: bool)
    ensures var b' := EventBroker.Publish(b, e, ctxDone).0; EventBroker.SamePublished(b, b') || OneMore(b, b', e)
    ensures e.weight == EventLog.Critical && !b.closed && !b.terminal ==> OneMore(b, EventBroker.Publish(b, e, ctxDone).0, e)
    ensures b.closed || b.terminal ==> EventBroker.Publish(b, e, ctxDone).0 == b
  {
    ResumePublishes(EventBroker.SpoolDropped(b), e, ctxDone);
  }

  lemma ForeignPublishes(b: Broker, op: EventBroker.Op)
    requires Foreign(op)
    ensures var b' := EventBroker.Step(b, op);
            EventBroker.SamePublished(b, b') || ((op.Publishing? || op.Resuming?) && !b.closed && !b.terminal && OneMore(b, b', op.event))
  {
    match op
    case Publishing(e, ctxDone) => PublishPublishes(b, e, ctxDone);
    case Resuming(e, ctxDone) => ResumePublishes(b, e, ctxDone);
    case _ =>
  }

  lemma OneMoreBody(b: Broker, b': Broker, e: Event)
    requires OneMore(b, b', e) && HubIsCritical(b.published) && (e.body > 0 ==> e.weight == EventLog.Critical)
    ensures Bodies(b'.published) == Bodies(b.published) + if e.body > 0 then [e.body] else []
    ensures HubIsCritical(b'.published)
  {
    var last := b'.published[|b.published|];
    assert b'.published == b.published + [last];
    BodiesSnoc(b.published, last);
  }

  // ---------- the invariant of the whole ----------

  /** What the broker was given: the journal as far as it has been pushed, or as far as it had been at Done. */
  ghost predicate Relayed(w: World) {
    && w.sent <= |w.hub.log| && HubIsCritical(w.broker.published)
    && (if w.broker.terminal then w.mark <= w.sent && Bodies(w.broker.published) == Indices(w.hub.log, w.mark)
        else Bodies(w.broker.published) == Indices(w.hub.log, w.sent))
  }

  ghost predicate EndsWithDone(b: Broker) {
    b.terminal ==> b.published != [] && b.published[|b.published| - 1].kind == "done" && b.published[|b.published| - 1].body == 0
  }

  /** The journal admitted the id, or the hub lists a caller's message under it. */
  ghost predicate Promised(h: Hub, id: Id) {
    Admits(h.log, id) || HostListed(h, id)
  }

  /** Every message the hub ever promised to settle was settled in the journal by the time the hub finished. */
  ghost predicate SettledAtSeal(w: World) {
    && w.sealedAt <= |w.hub.log|
    && (w.hub.finished ==> forall id: Id | Promised(w.hub, id) :: Terminals(w.hub.log[..w.sealedAt], id) == 1)
  }

  predicate Phased(w: World) {
    && (w.broker.closed ==> w.broker.terminal)
    && (w.broker.terminal ==> w.hub.finished && w.sealedAt <= w.mark)
  }

  ghost predicate Coherent(w: World) {
    Relayed(w) && EndsWithDone(w.broker) && SettledAtSeal(w) && Phased(w)
  }

  ghost predicate WorldInv(w: World) {
    Inv(w.hub) && Sealed(w.hub) && EventBroker.Inv(w.broker) && Coherent(w)
  }

  // ---------- the broker's side ----------

  lemma CoherentSame(w: World, b: Broker)
    requires Coherent(w) && b.published == w.broker.published && b.terminal == w.broker.terminal && (b.closed ==> b.terminal)
    ensures Coherent(w.(broker := b))
  {
  }

  lemma CoherentForeign(w: World, b: Broker, e: Event)
    requires Coherent(w) && OneMore(w.broker, b, e) && e.body == 0 && !w.broker.terminal
    ensures Coherent(w.(broker := b))
  {
    OneMoreBody(w.broker, b, e);
  }

  lemma CoherentPush(w: World, b: Broker)
    requires Coherent(w) && w.sent < |w.hub.log| && Pushes(w.hub.log[w.sent]) && OneMore(w.broker, b, EventFor(w.sent)) && !w.broker.terminal
    ensures Coherent(w.(broker := b, sent := w.sent + 1))
  {
    OneMoreBody(w.broker, b, EventFor(w.sent));
  }

  lemma CoherentSkip(w: World)
    requires Coherent(w) && w.sent < |w.hub.log| && (w.broker.terminal || !Pushes(w.hub.log[w.sent]))
    ensures Coherent(w.(sent := w.sent + 1))
  {
  }

  lemma PushingKeeps(w: World)
    requires Coherent(w) && w.sent < |w.hub.log|
    ensures Coherent(w.(broker := Push(w), sent := w.sent + 1))
  {
    PublishPublishes(w.broker, EventFor(w.sent), false);
    if Pushes(w.hub.log[w.sent]) && !w.broker.terminal {
      CoherentPush(w, Push(w));
    } else {
      CoherentSkip(w);
      assert Push(w) == w.broker;
    }
  }

  lemma BrokingKeeps(w: World, op: EventBroker.Op)
    requires Coherent(w) && Foreign(op)
    ensures Coherent(w.(broker := EventBroker.Step(w.broker, op)))
  {
    var b := EventBroker.Step(w.broker, op);
    ForeignPublishes(w.broker, op);
    if EventBroker.SamePublished(w.broker, b) {
      CoherentSame(w, b);
    } else {
      CoherentForeign(w, b, op.event);
    }
  }

  lemma ClosePublishes(b: Broker)
    requires b.terminal
    ensures EventBroker.Close(b).published == b.published && EventBroker.Close(b).terminal
  {
  }

  lemma ClosingKeeps(w: World)
    requires Coherent(w) && w.broker.terminal
    ensures Coherent(w.(broker := EventBroker.Close(w.broker)))
  {
    ClosePublishes(w.broker);
    CoherentSame(w, EventBroker.Close(w.broker));
  }

  lemma TerminatePublishes(b: Broker, done: Event)
    requires EventBroker.Shape(b) && !b.closed && !b.terminal
    ensures var b' := EventBroker.Terminate(b, done);
            && b'.terminal && b'.closed == b.closed && |b'.published| == |b.published| + 1 && b'.published[..|b.published|] == b.published
            && b'.published[|b.published|].body == done.body && b'.published[|b.published|].kind == done.kind
  {
    EventBroker.TerminateEnds(b, done);
  }

  lemma CoherentDone(w: World, b: Broker)
    requires Coherent(w) && w.hub.finished && w.sealedAt <= w.sent && !w.broker.terminal && b.terminal
    requires |b.published| == |w.broker.published| + 1 && b.published[..|w.broker.published|] == w.broker.published
    requires b.published[|w.broker.published|].body == 0 && b.published[|w.broker.published|].kind == "done"
    ensures Coherent(w.(broker := b, mark := w.sent))
  {
    var last := b.published[|w.broker.published|];
    assert b.published == w.broker.published + [last];
    BodiesSnoc(w.broker.published, last);
  }

  lemma CompletingKeeps(w: World, done: Event)
    requires EventBroker.Shape(w.broker) && Coherent(w) && w.hub.finished && w.sealedAt <= w.sent && done.body == 0 && done.kind == "done"
    ensures Coherent(w.(broker := EventBroker.Terminate(w.broker, done), mark := if w.broker.terminal then w.mark else w.sent))
  {
    if !w.broker.terminal {
      TerminatePublishes(w.broker, done);
      CoherentDone(w, EventBroker.Terminate(w.broker, done));
    }
  }

  lemma ActKeepsBroker(w: World, a: Act)
    requires EventBroker.Inv(w.broker) && Allowed(w, a)
    ensures EventBroker.Inv(Perform(w, a).broker)
  {
    match a
    case Hubbing(_) =>
    case Pushing =>
      assert EventBroker.Honest(EventBroker.Publishing(EventFor(w.sent), false));
      EventBroker.StepKeepsInv(w.broker, EventBroker.Publishing(EventFor(w.sent), false));
    case Broking(op) => EventBroker.StepKeepsInv(w.broker, op);
    case Completing(done) => EventBroker.StepKeepsInv(w.broker, EventBroker.Terminating(done));
  }

  // ---------- the hub's side ----------

  lemma {:induction false} AdmitsOnlyEarlier(log: seq<Entry>, more: seq<Entry>, id: Id)
    requires log <= more && forall e | e in more[|log|..] :: !IsAdmission(e, id)
    ensures Admits(more, id) ==> Admits(log, id)
  {
    if Admits(more, id) {
      var e :| e in more && IsAdmission(e, id);
      assert more == log + more[|log|..];
      assert e in log;
    }
  }

  /** The only entries a finished hub still writes are the instruction's. */
  ghost predicate WritesNoAdmission(h: Hub, g: Hub) {
    h.log <= g.log && forall e | e in g.log[|h.log|..] :: e.Update? ==> e.out.state != Accepted
  }

  lemma FinishedAck(h: Hub, id: Id, ack: Acknowledgement, now: int)
    requires Idle(h)
    ensures WritesNoAdmission(h, Ack(h, id, ack, now))
  {
    if id in h.byId && h.byId[id] == WrapUp && h.wrapUp.Some? {
      FinishedAckNotice(h, h.wrapUp.value, ack, now);
    }
  }

  lemma FinishedAckNotice(h: Hub, w: Item, ack: Acknowledgement, now: int)
    ensures WritesNoAdmission(h, AckNotice(h, w, ack, now))
  {
    var i := AckedItem(h, w, ack);
    var e := if i.out.state == Delivered then UpdateOf(i) else if i.out.state == Failed then Discarded(i.out.id) else Returned(i.out.id, ack.maybe);
    assert AckNotice(h, w, ack, now).log == h.log + [e];
  }

  lemma FinishedSweeps(h: Hub, s: Step)
    requires h.finished && Idle(h) && (s.DoLoad? || s.DoSetCapability? || s.DoCancelPending? || s.DoFinish?)
    ensures Do(h, s).log == h.log
  {
    match s
    case DoLoad(rs, cutoff) => IdleSweepAll(Remember(h, rs, cutoff), Deduplicating);
    case DoSetCapability(cap) => IdleSweepAll(h.(cap := cap), Reconciling);
    case DoCancelPending => IdleSweepAll(h.(cancelled := true), Cancelling);
    case DoFinish(reason) => IdleSweepAll(h.(finished := true), Finishing(reason));
  }

  lemma FinishedWrites(h: Hub, s: Step)
    requires Inv(h) && h.finished && Idle(h) && Enabled(h, s)
    ensures WritesNoAdmission(h, Do(h, s))
  {
    if s.DoAck? {
      FinishedAck(h, s.id, s.ack, s.now);
    } else if s.DoLoad? || s.DoSetCapability? || s.DoCancelPending? || s.DoFinish? {
      FinishedSweeps(h, s);
    } else {
      match s
      case _ =>
    }
  }

  lemma FinishedAdmitsNoMore(h: Hub, s: Step, id: Id)
    requires Inv(h) && h.finished && Idle(h) && Enabled(h, s) && Admits(Do(h, s).log, id)
    ensures Admits(h.log, id)
  {
    FinishedWrites(h, s);
    AdmitsOnlyEarlier(h.log, Do(h, s).log, id);
  }

  lemma FinishedSlots(h: Hub, s: Step)
    requires h.finished && Idle(h) && Enabled(h, s) && !s.DoAck?
    ensures Do(h, s).byId == h.byId
  {
    if s.DoAckStart? || s.DoFailPrompt? {
      PromptKeepsSlots(h, s);
    } else if s.DoLoad? || s.DoSetCapability? || s.DoCancelPending? || s.DoFinish? {
      SweepKeepsSlots(h, s);
    }
  }

  lemma FinishedAckLists(h: Hub, other: Id, ack: Acknowledgement, now: int, id: Id)
    requires Inv(h) && Idle(h) && HostListed(Ack(h, other, ack, now), id)
    ensures id in h.byId && h.byId[id].Listed?
  {
    if other in h.byId && h.byId[other] == WrapUp {
      assert Resolves(h, other);
      NoticeIsPolicy(h, h.wrapUp.value);
      FinishedNoticeLists(h, h.wrapUp.value, ack, now, id);
    }
  }

  lemma FinishedNoticeLists(h: Hub, w: Item, ack: Acknowledgement, now: int, id: Id)
    requires w.origin == Policy
    ensures HostListed(AckNotice(h, w, ack, now), id) ==> id in h.byId && h.byId[id].Listed?
  {
    var i := AckedItem(h, w, ack);
    var g := AckNotice(h, w, ack, now);
    if i.out.state == Delivered {
      assert g.byId == h.byId[i.out.id := Listed(|h.items|)] && g.items[|h.items|].origin == Policy;
    } else {
      assert g.byId == h.byId;
    }
  }

  lemma FinishedListsNoMore(h: Hub, s: Step, id: Id)
    requires Inv(h) && h.finished && Idle(h) && Enabled(h, s) && HostListed(Do(h, s), id)
    ensures HostListed(h, id)
  {
    if s.DoAck? {
      FinishedAckLists(h, s.id, s.ack, s.now, id);
    } else {
      FinishedSlots(h, s);
    }
    assert Resolves(h, id);
    StepKeepsSlot(h, s, id);
    StepEvolves(h, s, h.byId[id].k);
  }

  lemma FinishedPromisesNoMore(h: Hub, s: Step, id: Id)
    requires Inv(h) && h.finished && Idle(h) && Enabled(h, s) && Promised(Do(h, s), id)
    ensures Promised(h, id)
  {
    if Admits(Do(h, s).log, id) {
      FinishedAdmitsNoMore(h, s, id);
    } else {
      FinishedListsNoMore(h, s, id);
    }
  }

  /** In a finished, idle hub every promised message has its one terminal update. */
  lemma IdleIsSettled(h: Hub, id: Id)
    requires Inv(h) && Idle(h) && Promised(h, id)
    ensures Terminals(h.log, id) == 1
  {
    JournalTells(h.log, id);
    assert PhaseIn(h.log, id) == Expected(h, id);
    if id in h.byId {
      KnownIsSettled(h, id);
      if h.byId[id] == WrapUp {
        assert Resolves(h, id);
        NoticeIsPolicy(h, h.wrapUp.value);
      }
    }
  }

  lemma SealSettles(w: World, h: Hub, id: Id)
    requires Inv(h) && Sealed(h) && h.finished && w.hub.log <= h.log && SettledAtSeal(w) && Promised(h, id)
    requires w.hub.finished ==> Promised(w.hub, id)
    ensures Terminals(h.log[..if w.hub.finished then w.sealedAt else |h.log|], id) == 1
  {
    if w.hub.finished {
      assert h.log[..w.sealedAt] == w.hub.log[..w.sealedAt];
    } else {
      assert h.log[..|h.log|] == h.log;
      IdleIsSettled(h, id);
    }
  }

  lemma RelayedGrows(w: World, h: Hub, sealedAt: nat)
    requires Relayed(w) && w.hub.log <= h.log
    ensures Relayed(w.(hub := h, sealedAt := sealedAt))
  {
    IndicesPrefix(w.hub.log, h.log, w.sent);
    if w.broker.terminal {
      IndicesPrefix(w.hub.log, h.log, w.mark);
    }
  }

  lemma HubStepSeals(h: Hub, s: Step)
    requires Inv(h) && Sealed(h) && Enabled(h, s)
    ensures Inv(Do(h, s)) && Sealed(Do(h, s)) && h.log <= Do(h, s).log && (h.finished ==> Do(h, s).finished)
  {
    StepKeepsInv(h, s);
    SealedKept(h, s);
    StepLog(h, s);
    if h.finished {
      IdleStays(h, s);
    }
  }

  lemma HubbingSettles(w: World, s: Step)
    requires Inv(w.hub) && Sealed(w.hub) && Enabled(w.hub, s) && SettledAtSeal(w)
    ensures var h := Do(w.hub, s); SettledAtSeal(w.(hub := h, sealedAt := if h.finished && !w.hub.finished then |h.log| else w.sealedAt))
  {
    var h := Do(w.hub, s);
    HubStepSeals(w.hub, s);
    var v := w.(hub := h, sealedAt := if h.finished && !w.hub.finished then |h.log| else w.sealedAt);
    forall id: Id | h.finished && Promised(h, id) ensures Terminals(h.log[..v.sealedAt], id) == 1 {
      if w.hub.finished {
        FinishedPromisesNoMore(w.hub, s, id);
      }
      SealSettles(w, h, id);
    }
  }

  lemma HubbingKeeps(w: World, s: Step)
    requires Inv(w.hub) && Sealed(w.hub) && Enabled(w.hub, s) && Coherent(w)
    ensures var h := Do(w.hub, s); Coherent(w.(hub := h, sealedAt := if h.finished && !w.hub.finished then |h.log| else w.sealedAt))
  {
    var h := Do(w.hub, s);
    HubStepSeals(w.hub, s);
    HubbingSettles(w, s);
    RelayedGrows(w, h, if h.finished && !w.hub.finished then |h.log| else w.sealedAt);
  }

  // ---------- every act ----------

  lemma BrokingActKeeps(w: World, op: EventBroker.Op)
    requires Coherent(w) && Allowed(w, Broking(op))
    ensures Coherent(w.(broker := EventBroker.Step(w.broker, op)))
  {
    if op.Closing? {
      ClosingKeeps(w);
    } else {
      BrokingKeeps(w, op);
    }
  }

  lemma BrokerActKeeps(w: World, a: Act)
    requires EventBroker.Shape(w.broker) && Coherent(w) && Allowed(w, a) && !a.Hubbing?
    ensures Coherent(Perform(w, a))
  {
    if a.Pushing? {
      PushingKeeps(w);
    } else if a.Broking? {
      BrokingActKeeps(w, a.op);
    } else {
      CompletingKeeps(w, a.done);
    }
  }

  lemma ActKeepsCoherent(w: World, a: Act)
    requires WorldInv(w) && Allowed(w, a)
    ensures Coherent(Perform(w, a))
  {
    if a.Hubbing? {
      HubbingKeeps(w, a.s);
    } else {
      BrokerActKeeps(w, a);
    }
  }

  lemma ActKeepsHub(w: World, a: Act)
    requires Inv(w.hub) && Sealed(w.hub) && Allowed(w, a)
    ensures Inv(Perform(w, a).hub) && Sealed(Perform(w, a).hub)
  {
    if a.Hubbing? {
      HubStepSeals(w.hub, a.s);
    }
  }

  lemma ActKeepsWorld(w: World, a: Act)
    requires WorldInv(w) && Allowed(w, a)
    ensures WorldInv(Perform(w, a))
  {
    ActKeepsCoherent(w, a);
    ActKeepsHub(w, a);
    ActKeepsBroker(w, a);
  }

  lemma {:induction false} PlayInduction(w: World, acts: seq<Act>, keep: World -> bool)
    requires keep(w)
    requires forall v: World, a: Act | keep(v) && Allowed(v, a) :: keep(Perform(v, a))
    ensures keep(Play(w, acts))
    decreases |acts|
  {
    if acts != [] {
      PlayInduction(w, acts[..|acts| - 1], keep);
    }
  }

  lemma PlayKeepsWorld(w: World, acts: seq<Act>)
    requires WorldInv(w)
    ensures WorldInv(Play(w, acts))
  {
    forall v: World, a: Act | WorldInv(v) && Allowed(v, a) ensures WorldInv(Perform(v, a)) {
      ActKeepsWorld(v, a);
    }
    PlayInduction(w, acts, v => WorldInv(v));
  }

  function NewWorld(policy: Limits, cap: Capability, resume: bool, limitId: Id, capacity: nat, blocking: bool): World {
    World(NewHub(policy, cap, resume, limitId), EventBroker.NewBroker(capacity, blocking), 0, 0, 0)
  }

  lemma NewWorldInv(policy: Limits, cap: Capability, resume: bool, limitId: Id, capacity: nat, blocking: bool)
    requires policy.maxTurns >= 1 && limitId != "" && capacity > 0
    ensures WorldInv(NewWorld(policy, cap, resume, limitId, capacity, blocking))
  {
    NewHubInv(policy, cap, resume, limitId);
    EventBroker.NewBrokerInv(capacity, blocking);
  }

  // ---------- what the reader of the log sees ----------

  /** The event carries a terminal update of this message; a drop marker carries nothing. */
  predicate Reports(e: Event, log: seq<Entry>, id: Id) {
    e.weight == EventLog.Critical && !EventLog.IsMarker(e) && 0 < e.body <= |log| && IsTerminal(log[e.body - 1], id)
  }

  function ReportCount(s: seq<Event>, log: seq<Entry>, id: Id): nat {
    if s == [] then 0 else ReportCount(s[..|s| - 1], log, id) + if Reports(s[|s| - 1], log, id) then 1 else 0
  }

  lemma {:induction false} OnlyCriticalsReport(s: seq<Event>, log: seq<Entry>, id: Id)
    ensures ReportCount(s, log, id) == ReportCount(EventLog.Criticals(s), log, id)
    decreases |s|
  {
    if s != [] {
      var front, e := s[..|s| - 1], s[|s| - 1];
      OnlyCriticalsReport(front, log, id);
      var c := EventLog.Criticals(front);
      assert (c + [e])[..|c|] == c && c + [] == c;
    }
  }

  function TerminalsAmong(bodies: seq<nat>, log: seq<Entry>, id: Id): nat {
    if bodies == [] then 0
    else
      var n := bodies[|bodies| - 1];
      TerminalsAmong(bodies[..|bodies| - 1], log, id) + if 0 < n <= |log| && IsTerminal(log[n - 1], id) then 1 else 0
  }

  lemma AmongSnoc(bodies: seq<nat>, n: nat, log: seq<Entry>, id: Id)
    ensures TerminalsAmong(bodies + [n], log, id) == TerminalsAmong(bodies, log, id) + if 0 < n <= |log| && IsTerminal(log[n - 1], id) then 1 else 0
  {
    assert (bodies + [n])[..|bodies|] == bodies;
  }

  lemma {:induction false} ReportsAreBodies(s: seq<Event>, log: seq<Entry>, id: Id)
    requires HubIsCritical(s) && forall k | 0 <= k < |s| :: !EventLog.IsMarker(s[k])
    ensures ReportCount(s, log, id) == TerminalsAmong(Bodies(s), log, id)
    decreases |s|
  {
    if s != [] {
      var front, e := s[..|s| - 1], s[|s| - 1];
      ReportsAreBodies(front, log, id);
      AmongSnoc(Bodies(front), e.body, log, id);
      assert Bodies(front) + [] == Bodies(front);
    }
  }

  lemma {:induction false} IndicesAreTerminals(log: seq<Entry>, n: nat, id: Id)
    requires n <= |log|
    ensures TerminalsAmong(Indices(log, n), log, id) == Terminals(log[..n], id)
  {
    if n > 0 {
      IndicesAreTerminals(log, n - 1, id);
      assert log[..n][..n - 1] == log[..n - 1];
      AmongSnoc(Indices(log, n - 1), n, log, id);
      assert Indices(log, n - 1) + [] == Indices(log, n - 1);
    }
  }

  lemma {:induction false} TerminalsGrow(log: seq<Entry>, a: nat, b: nat, id: Id)
    requires a <= b <= |log|
    ensures Terminals(log[..a], id) <= Terminals(log[..b], id)
    decreases b
  {
    if a < b {
      TerminalsGrow(log, a, b - 1, id);
      assert log[..b][..b - 1] == log[..b - 1];
    }
  }

  lemma ReportedOnce(w: World, id: Id)
    requires WorldInv(w) && w.broker.terminal && Promised(w.hub, id)
    ensures Terminals(w.hub.log[..w.mark], id) == 1
  {
    var log := w.hub.log;
    TerminalsGrow(log, w.sealedAt, w.mark, id);
    TerminalsGrow(log, w.mark, |log|, id);
    assert log[..|log|] == log;
    IdleIsSettled(w.hub, id);
  }

  lemma SurvivorsReport(all: seq<Event>, published: seq<Event>, log: seq<Entry>, n: nat, id: Id)
    requires EventLog.Criticals(published) == EventLog.Criticals(all) && HubIsCritical(published) && n <= |log|
    requires (forall k | 0 <= k < |published| :: !EventLog.IsMarker(published[k])) && Bodies(published) == Indices(log, n)
    ensures ReportCount(all, log, id) == Terminals(log[..n], id)
  {
    OnlyCriticalsReport(all, log, id);
    OnlyCriticalsReport(published, log, id);
    ReportsAreBodies(published, log, id);
    IndicesAreTerminals(log, n, id);
  }

  lemma LogReports(w: World, id: Id)
    requires EventBroker.Sound(w.broker) && Relayed(w) && w.broker.terminal
    ensures ReportCount(EventBroker.Log(w.broker), w.hub.log, id) == Terminals(w.hub.log[..w.mark], id)
  {
    SurvivorsReport(EventBroker.Log(w.broker), w.broker.published, w.hub.log, w.mark, id);
  }

  lemma UnreportedInstruction(w: World, id: Id)
    requires WorldInv(w) && w.broker.terminal && IsUndelivered(w.hub, id)
    ensures Terminals(w.hub.log[..w.mark], id) == 0
  {
    var log := w.hub.log;
    KnownIsSettled(w.hub, id);
    TerminalsGrow(log, w.mark, |log|, id);
    assert log[..|log|] == log;
  }

  /** What the final log reports of one id. */
  ghost predicate FinalReport(w: World, id: Id) {
    var log := EventBroker.Log(w.broker);
    && log != [] && log[|log| - 1].kind == "done" && !Reports(log[|log| - 1], w.hub.log, id)
    && (Promised(w.hub, id) ==> ReportCount(log, w.hub.log, id) == 1)
    && (IsUndelivered(w.hub, id) ==> ReportCount(log, w.hub.log, id) == 0)
  }

  lemma TerminalWorldReports(w: World, id: Id)
    requires WorldInv(w) && w.broker.terminal
    ensures FinalReport(w, id)
  {
    LogReports(w, id);
    if Promised(w.hub, id) {
      ReportedOnce(w, id);
    }
    if IsUndelivered(w.hub, id) {
      UnreportedInstruction(w, id);
    }
  }

  /**
    From a fresh execution, over every interleaving of hub steps, pushes, other publishers, readers and
    teardown: once Done is published it is the last event of the log, every message that was ever admitted
    is reported delivered or failed by exactly one event of the log, which is not Done, and an instruction
    that was never delivered by none.
  */
  lemma SettledBeforeDone(policy: Limits, cap: Capability, resume: bool, limitId: Id, capacity: nat, blocking: bool, acts: seq<Act>, id: Id)
    requires policy.maxTurns >= 1 && limitId != "" && capacity > 0
    requires Play(NewWorld(policy, cap, resume, limitId, capacity, blocking), acts).broker.terminal
    ensures FinalReport(Play(NewWorld(policy, cap, resume, limitId, capacity, blocking), acts), id)
  {
    var w0 := NewWorld(policy, cap, resume, limitId, capacity, blocking);
    NewWorldInv(policy, cap, resume, limitId, capacity, blocking);
    PlayKeepsWorld(w0, acts);
    TerminalWorldReports(Play(w0, acts), id);
  }

  // ---------- what a nil reply means for the reader ----------

  lemma {:induction false} PlayAppend(w: World, first: seq<Act>, second: seq<Act>)
    ensures Play(w, first + second) == Play(Play(w, first), second)
    decreases |second|
  {
    if second == [] {
      assert first + second == first;
    } else {
      var n := |second| - 1;
      assert (first + second)[..|first + second| - 1] == first + second[..n];
      PlayAppend(w, first, second[..n]);
    }
  }

  lemma {:induction false} PlayKeepsHost(w: World, acts: seq<Act>, id: Id)
    requires WorldInv(w) && HostListed(w.hub, id)
    ensures HostListed(Play(w, acts).hub, id)
    decreases |acts|
  {
    if acts != [] {
      var front, a := acts[..|acts| - 1], acts[|acts| - 1];
      PlayKeepsHost(w, front, id);
      PlayKeepsWorld(w, front);
      var v := Play(w, front);
      if Allowed(v, a) && a.Hubbing? {
        StepKeepsHost(v.hub, a.s, id);
      }
    }
  }

  /**
    A Send that returns nil during an execution is reported settled exactly once before Done, if its id was
    new or that of a caller's message; only the id of an instruction that is never delivered gets no report.
  */
  lemma SendReportedBeforeDone(w0: World, before: seq<Act>, m: Message, valid: bool, callerGone: bool, after: seq<Act>)
    requires WorldInv(w0)
    requires var w := Play(w0, before); Allowed(w, Hubbing(DoSend(m, valid, callerGone))) && SendVerdict(w.hub, m, valid, callerGone) == Admitted
    requires Play(w0, before + [Hubbing(DoSend(m, valid, callerGone))] + after).broker.terminal
    ensures var w := Play(w0, before); var end := Play(w0, before + [Hubbing(DoSend(m, valid, callerGone))] + after);
            && FinalReport(end, m.id)
            && (m.id !in w.hub.byId || HostListed(w.hub, m.id) ==> ReportCount(EventBroker.Log(end.broker), end.hub.log, m.id) == 1)
  {
    var send := Hubbing(DoSend(m, valid, callerGone));
    var w := Play(w0, before);
    PlayKeepsWorld(w0, before);
    PlayKeepsWorld(w0, before + [send]);
    PlayKeepsWorld(w0, before + [send] + after);
    assert (before + [send])[..|before|] == before;
    var sent := Play(w0, before + [send]);
    assert sent.hub == SendPass(w.hub, m, valid, callerGone);
    PlayAppend(w0, before + [send], after);
    TerminalWorldReports(Play(w0, before + [send] + after), m.id);
    if m.id !in w.hub.byId || HostListed(w.hub, m.id) {
      AdmittedIsKnown(w.hub, m, valid, callerGone);
      PlayKeepsHost(sent, after, m.id);
    }
  }
}
