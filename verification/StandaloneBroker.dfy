/**
  event_broker.go outside executions (not `spool`): one bounded channel with one slot more than
  ordinary publication may use. Publication holds the mutex while it waits, so only the reader, abort
  and the caller's context move meanwhile: a wait is given as the probes it makes, each the number of
  events the reader took before it, and as what ends it if it runs out of probes.
*/
module StandaloneBroker {
  import opened Common
  import opened EventLog

  /**
    The last three fields are history: what the reader took, what callers published that was accepted or
    counted as lost, and the losses that no marker has reported, thrown away or not.
  */
  datatype Broker = Broker(
    capacity: nat, blocking: bool, events: seq<Event>, closed: bool, terminal: bool, aborted: bool,
    sequence: nat, dropped: Aggregate,
    received: seq<Event>, published: seq<Event>, unreported: Aggregate)

  function NewBroker(capacity: nat, blocking: bool): Broker {
    Broker(capacity, blocking, [], false, false, false, 0, NO_DROPS, [], [], NO_DROPS)
  }

  function Log(b: Broker): seq<Event> {
    b.received + b.events
  }

  /** A wait that runs out of probes was ended by its context, or else by abort. */
  datatype Wait = Wait(probes: seq<nat>, ctxDone: bool)

  datatype Verdict = Accepted | Dropped | Refused

  // ---------- the operations ----------

  function Receive(b: Broker, n: nat): Broker {
    var taken := Min(n, |b.events|);
    b.(received := b.received + b.events[..taken], events := b.events[taken..])
  }

  predicate Room(b: Broker) {
    |b.events| < b.capacity
  }

  function Await(b: Broker, probes: seq<nat>): Broker
    decreases |probes|
  {
    if Room(b) || probes == [] then b else Await(Receive(b, probes[0]), probes[1..])
  }

  /** sendLocked. */
  function Send(b: Broker, e: Event, w: Wait): (Broker, bool) {
    var r := Await(b, w.probes);
    if Room(r) then (r.(events := r.events + [e]), true) else (r.(aborted := r.aborted || !w.ctxDone), false)
  }

  function Stamp(b: Broker, e: Event): Event {
    e.(number := b.sequence + 1)
  }

  function Accept(b: Broker, e: Event): Broker {
    b.(sequence := b.sequence + 1, events := b.events + [Stamp(b, e)], published := b.published + [Stamp(b, e)])
  }

  function Discard(b: Broker, e: Event): Broker {
    b.(sequence := b.sequence + 1, published := b.published + [Stamp(b, e)],
       dropped := RecordDrop(b.dropped, Stamp(b, e)), unreported := RecordDrop(b.unreported, Stamp(b, e)))
  }

  /** flushDroppedLocked: the marker's number is taken only if it is sent. */
  function Flush(b: Broker, reliable: bool, w: Wait): (Broker, bool) {
    if b.dropped.count == 0 then (b, true)
    else
      var (r, sent) := Send(b, Marker(b.dropped, b.sequence + 1), if reliable then w else Wait([], true));
      (if sent then r.(sequence := b.sequence + 1, dropped := NO_DROPS, unreported := NO_DROPS) else r, sent)
  }

  /** A refused event has used up its number. */
  function Deliver(b: Broker, e: Event, w: Wait): (Broker, Verdict) {
    var (r, sent) := Send(b.(sequence := b.sequence + 1), Stamp(b, e), w);
    if sent then (r.(published := r.published + [Stamp(b, e)]), Accepted) else (r, Refused)
  }

  function PublishLive(b: Broker, e: Event, flush: Wait, w: Wait): (Broker, Verdict) {
    var reliable := b.blocking || e.weight != Delta;
    var (f, flushed) := Flush(b, reliable, flush);
    if flushed && reliable then Deliver(f, e, w)
    else if reliable then (f, Refused)
    else if flushed && Room(f) then (Accept(f, e), Accepted)
    else (Discard(f, e), Dropped)
  }

  function Publish(b: Broker, e: Event, flush: Wait, w: Wait): (Broker, Verdict) {
    if b.closed || b.terminal then (b, Refused)
    else if b.aborted then
      if e.weight == Delta || !Room(b) then (b, Refused) else (Accept(b, e), Accepted)
    else PublishLive(b, e, flush, w)
  }

  /** publishTerminal waits for nothing but room for the marker, and abort. */
  function Settle(b: Broker, probes: seq<nat>): Broker {
    if b.aborted then b
    else
      var (f, flushed) := Flush(b, true, Wait(probes, false));
      if flushed then f else f.(dropped := NO_DROPS)
  }

  function Terminate(b: Broker, e: Event, probes: seq<nat>): Broker {
    if b.closed || b.terminal then b else Accept(Settle(b, probes).(terminal := true), e)
  }

  function Close(b: Broker, probes: seq<nat>): Broker {
    if b.closed then b
    else (if b.terminal then b else Flush(b, !b.aborted, Wait(probes, false)).0).(closed := true)
  }

  datatype Op =
    | Publishing(event: Event, flush: Wait, wait: Wait)
    | Terminating(event: Event, probes: seq<nat>)
    | Closing(probes: seq<nat>)
    | Aborting
    | Receiving(n: nat)

  function Step(b: Broker, op: Op): Broker {
    match op
    case Publishing(e, flush, w) => Publish(b, e, flush, w).0
    case Terminating(e, probes) => Terminate(b, e, probes)
    case Closing(probes) => Close(b, probes)
    case Aborting => b.(aborted := true)
    case Receiving(n) => Receive(b, n)
  }

  function Run(b: Broker, ops: seq<Op>): Broker
    decreases |ops|
  {
    if ops == [] then b else Run(Step(b, ops[0]), ops[1..])
  }

  /** Callers publish their own events, not forged markers. */
  predicate Honest(op: Op) {
    op.Publishing? || op.Terminating? ==> !IsMarker(op.event)
  }

  // ---------- what every step keeps ----------

  /**
    Until a terminal is published, one of the capacity + 1 slots is free and no loss is forgotten. In
    blocking mode nothing is dropped. Only an abort leaves a loss unreported at the end.
  */
  predicate Shape(b: Broker) {
    && b.capacity > 0 && |b.events| <= b.capacity + (if b.terminal then 1 else 0)
    && (!b.terminal ==> b.unreported == b.dropped)
    && (b.blocking ==> b.unreported.count == 0)
    && (b.unreported.count > 0 && (b.closed || b.terminal) ==> b.aborted)
  }

  predicate Sound(b: Broker) {
    Accounts(Log(b), b.published, b.unreported, b.sequence)
  }

  predicate Complete(b: Broker) {
    b.blocking ==> Log(b) == b.published
  }

  predicate EndsAtTerminal(b: Broker) {
    b.terminal ==> b.published != [] && Log(b) != [] && Log(b)[|Log(b)| - 1] == b.published[|b.published| - 1]
  }

  predicate Inv(b: Broker) {
    Shape(b) && Sound(b) && Complete(b) && EndsAtTerminal(b)
  }

  /** Only the reader has moved. */
  predicate OnlyRead(b: Broker, r: Broker) {
    r == b.(received := r.received, events := r.events) && Log(r) == Log(b) && |r.events| <= |b.events|
  }

  lemma ReceiveReads(b: Broker, n: nat)
    ensures OnlyRead(b, Receive(b, n))
  {
    var taken := Min(n, |b.events|);
    assert b.received + b.events[..taken] + b.events[taken..] == b.received + b.events;
  }

  lemma {:induction false} AwaitReads(b: Broker, probes: seq<nat>)
    ensures OnlyRead(b, Await(b, probes))
    decreases |probes|
  {
    if !Room(b) && probes != [] {
      ReceiveReads(b, probes[0]);
      AwaitReads(Receive(b, probes[0]), probes[1..]);
    }
  }

  lemma Appended(b: Broker, r: Broker, e: Event)
    requires OnlyRead(b, r)
    ensures Log(r.(events := r.events + [e])) == Log(b) + [e]
  {
    assert r.received + (r.events + [e]) == r.received + r.events + [e];
  }

  /** Sent, the event is the log's new end; not sent, only the reader has moved and abort may have come. */
  lemma SendTells(b: Broker, e: Event, w: Wait)
    requires Shape(b) && !b.terminal
    ensures var (r, sent) := Send(b, e, w);
            && r == b.(received := r.received, events := r.events, aborted := r.aborted)
            && Log(r) == (if sent then Log(b) + [e] else Log(b)) && |r.events| <= b.capacity
            && (sent ==> r.aborted == b.aborted) && (!sent ==> r.aborted == (b.aborted || !w.ctxDone))
  {
    AwaitReads(b, w.probes);
    Appended(b, Await(b, w.probes), e);
  }

  lemma SoundAccept(b: Broker, r: Broker, e: Event)
    requires Sound(b) && !IsMarker(e)
    requires Log(r) == Log(b) + [Stamp(b, e)] && r.published == b.published + [Stamp(b, e)]
    requires r.unreported == b.unreported && r.sequence == b.sequence + 1
    ensures Sound(r)
  {
    PublishAccounts(Log(b), b.published, b.unreported, b.sequence, Stamp(b, e));
  }

  lemma SoundMarker(b: Broker, r: Broker)
    requires Sound(b) && b.unreported.count > 0
    requires Log(r) == Log(b) + [Marker(b.unreported, b.sequence + 1)] && r.published == b.published
    requires r.unreported == NO_DROPS && r.sequence == b.sequence + 1
    ensures Sound(r)
  {
    MarkerAccounts(Log(b), b.published, b.unreported, b.sequence);
  }

  /** Numbers may be skipped. */
  lemma SoundSkip(b: Broker, r: Broker)
    requires Sound(b) && Log(r) == Log(b) && r.published == b.published && r.unreported == b.unreported && r.sequence >= b.sequence
    ensures Sound(r)
  {
    assert Ordered(Log(b), b.published, b.sequence) && Ordered(Log(r), r.published, r.sequence);
  }

  lemma AcceptLog(b: Broker, e: Event)
    ensures Log(Accept(b, e)) == Log(b) + [Stamp(b, e)]
  {
    assert OnlyRead(b, b);
    Appended(b, b, Stamp(b, e));
  }

  lemma AcceptKeeps(b: Broker, e: Event)
    requires Shape(b) && Sound(b) && Complete(b) && !IsMarker(e) && |b.events| < b.capacity + (if b.terminal then 1 else 0)
    ensures Inv(Accept(b, e))
  {
    AcceptLog(b, e);
    SoundAccept(b, Accept(b, e), e);
  }

  lemma DiscardKeeps(b: Broker, e: Event)
    requires Inv(b) && !IsMarker(e) && e.weight == Delta && !b.blocking && !b.closed && !b.terminal
    ensures Inv(Discard(b, e))
  {
    DropAccounts(Log(b), b.published, b.unreported, b.sequence, Stamp(b, e));
  }

  /** The marker is all that a flush appends; refused, it leaves the losses as they were. */
  predicate Flushes(b: Broker, f: Broker, flushed: bool) {
    && f == b.(received := f.received, events := f.events, aborted := f.aborted, sequence := f.sequence, dropped := f.dropped, unreported := f.unreported)
    && (if flushed && b.dropped.count > 0
        then Log(f) == Log(b) + [Marker(b.dropped, f.sequence)] && f.sequence == b.sequence + 1 && f.dropped == f.unreported == NO_DROPS
        else Log(f) == Log(b) && f.sequence == b.sequence && f.dropped == b.dropped && f.unreported == b.unreported)
    && (flushed ==> f.dropped.count == 0 && f.aborted == b.aborted)
    && |f.events| <= f.capacity
  }

  lemma FlushTells(b: Broker, reliable: bool, w: Wait)
    requires Shape(b) && !b.terminal
    ensures var (f, flushed) := Flush(b, reliable, w);
            Flushes(b, f, flushed) && (!flushed ==> f.aborted == (b.aborted || (reliable && !w.ctxDone)))
  {
    if b.dropped.count > 0 {
      SendTells(b, Marker(b.dropped, b.sequence + 1), if reliable then w else Wait([], true));
    }
  }

  lemma FlushedKeeps(b: Broker, f: Broker, flushed: bool)
    requires Inv(b) && !b.closed && !b.terminal && Flushes(b, f, flushed)
    ensures Inv(f)
  {
    if flushed && b.dropped.count > 0 {
      SoundMarker(b, f);
    } else {
      SoundSkip(b, f);
    }
  }

  lemma FlushKeeps(b: Broker, reliable: bool, w: Wait)
    requires Inv(b) && !b.closed && !b.terminal
    ensures var (f, flushed) := Flush(b, reliable, w);
            Inv(f) && Flushes(b, f, flushed) && (!flushed ==> f.aborted == (b.aborted || (reliable && !w.ctxDone)))
  {
    FlushTells(b, reliable, w);
    var (f, flushed) := Flush(b, reliable, w);
    FlushedKeeps(b, f, flushed);
  }

  /** The event with the next number is the log's new end, or only its number is used up. */
  predicate Delivers(b: Broker, e: Event, r: Broker, v: Verdict) {
    && r == b.(received := r.received, events := r.events, aborted := r.aborted, sequence := b.sequence + 1, published := r.published)
    && |r.events| <= r.capacity
    && (if v == Accepted then Log(r) == Log(b) + [Stamp(b, e)] && r.published == b.published + [Stamp(b, e)]
        else v == Refused && Log(r) == Log(b) && r.published == b.published)
  }

  lemma DeliverTells(b: Broker, e: Event, w: Wait)
    requires Shape(b) && !b.terminal
    ensures var (r, v) := Deliver(b, e, w); Delivers(b, e, r, v)
  {
    var taken := b.(sequence := b.sequence + 1);
    assert Log(taken) == Log(b);
    SendTells(taken, Stamp(b, e), w);
  }

  lemma DeliveredKeeps(b: Broker, e: Event, r: Broker, v: Verdict)
    requires Inv(b) && !b.closed && !b.terminal && !IsMarker(e) && Delivers(b, e, r, v)
    ensures Inv(r)
  {
    if v == Accepted {
      SoundAccept(b, r, e);
    } else {
      SoundSkip(b, r);
    }
  }

  /**
    The log only grows. An accepted event is its new end, with the latest number; a dropped one is a delta
    in drop mode, and is counted; a refused one leaves no trace but its number and the marker before it.
  */
  predicate Publishes(b: Broker, e: Event, r: Broker, v: Verdict) {
    var stamped := e.(number := r.sequence);
    && Log(b) <= Log(r)
    && (v == Accepted ==> Log(r) != [] && Log(r)[|Log(r)| - 1] == stamped && r.published == b.published + [stamped])
    && (v == Dropped ==> e.weight == Delta && !b.blocking && r.published == b.published + [stamped] && r.dropped.count > 0)
    && (v == Refused ==> r.published == b.published)
  }

  lemma DeliveredPublishes(b: Broker, f: Broker, flushed: bool, e: Event, r: Broker, v: Verdict)
    requires Flushes(b, f, flushed) && Delivers(f, e, r, v)
    ensures Publishes(b, e, r, v)
  {
    assert Log(b) <= Log(f) <= Log(r);
  }

  lemma ThenDeliver(b: Broker, f: Broker, flushed: bool, e: Event, w: Wait)
    requires Inv(f) && Flushes(b, f, flushed) && !b.closed && !b.terminal && !IsMarker(e)
    ensures var (r, v) := Deliver(f, e, w); Inv(r) && Publishes(b, e, r, v)
  {
    var (r, v) := Deliver(f, e, w);
    assert Delivers(f, e, r, v) by { DeliverTells(f, e, w); }
    assert Publishes(b, e, r, v) by { DeliveredPublishes(b, f, flushed, e, r, v); }
    DeliveredKeeps(f, e, r, v);
  }

  lemma ThenAccept(b: Broker, f: Broker, flushed: bool, e: Event)
    requires Inv(f) && Flushes(b, f, flushed) && !b.closed && !b.terminal && !IsMarker(e) && Room(f)
    ensures Inv(Accept(f, e)) && Publishes(b, e, Accept(f, e), Accepted)
  {
    AcceptLog(f, e);
    AcceptKeeps(f, e);
  }

  lemma ThenDiscard(b: Broker, f: Broker, flushed: bool, e: Event)
    requires Inv(f) && Flushes(b, f, flushed) && !b.closed && !b.terminal && !IsMarker(e) && e.weight == Delta && !b.blocking
    ensures Inv(Discard(f, e)) && Publishes(b, e, Discard(f, e), Dropped)
  {
    DiscardKeeps(f, e);
    assert Log(Discard(f, e)) == Log(f);
  }

  lemma PublishLiveKeeps(b: Broker, e: Event, flush: Wait, w: Wait)
    requires Inv(b) && !b.closed && !b.terminal && !IsMarker(e)
    ensures var (r, v) := PublishLive(b, e, flush, w); Inv(r) && Publishes(b, e, r, v)
  {
    var reliable := b.blocking || e.weight != Delta;
    FlushKeeps(b, reliable, flush);
    var (f, flushed) := Flush(b, reliable, flush);
    if flushed && reliable {
      ThenDeliver(b, f, flushed, e, w);
    } else if flushed && !reliable && Room(f) {
      ThenAccept(b, f, flushed, e);
    } else if !reliable {
      ThenDiscard(b, f, flushed, e);
    }
  }

  lemma PublishKeeps(b: Broker, e: Event, flush: Wait, w: Wait)
    requires Inv(b) && !IsMarker(e)
    ensures var (r, v) := Publish(b, e, flush, w); Inv(r) && Publishes(b, e, r, v)
  {
    if !b.closed && !b.terminal {
      if !b.aborted {
        PublishLiveKeeps(b, e, flush, w);
      } else if e.weight != Delta && Room(b) {
        AcceptKeeps(b, e);
        AcceptLog(b, e);
      }
    }
  }

  lemma SettleKeeps(b: Broker, probes: seq<nat>)
    requires Inv(b) && !b.closed && !b.terminal
    ensures var s := Settle(b, probes).(terminal := true);
            Shape(s) && Sound(s) && Complete(s) && Log(b) <= Log(s) && !s.closed && |s.events| < s.capacity + 1
  {
    FlushKeeps(b, true, Wait(probes, false));
    var s := Settle(b, probes);
    assert Log(s.(terminal := true)) == Log(s);
    assert Log(s.(dropped := NO_DROPS)) == Log(s);
  }

  lemma TerminateKeeps(b: Broker, e: Event, probes: seq<nat>)
    requires Inv(b) && !IsMarker(e)
    ensures Inv(Terminate(b, e, probes)) && Log(b) <= Log(Terminate(b, e, probes))
  {
    if !b.closed && !b.terminal {
      SettleKeeps(b, probes);
      AcceptKeeps(Settle(b, probes).(terminal := true), e);
      AcceptLog(Settle(b, probes).(terminal := true), e);
    }
  }

  lemma ShutKeeps(f: Broker)
    requires Inv(f) && (f.unreported.count > 0 ==> f.aborted)
    ensures Inv(f.(closed := true)) && Log(f.(closed := true)) == Log(f)
  {
  }

  lemma CloseKeeps(b: Broker, probes: seq<nat>)
    requires Inv(b)
    ensures Inv(Close(b, probes)) && Log(b) <= Log(Close(b, probes))
  {
    if !b.closed {
      if b.terminal {
        ShutKeeps(b);
      } else {
        FlushKeeps(b, !b.aborted, Wait(probes, false));
        ShutKeeps(Flush(b, !b.aborted, Wait(probes, false)).0);
      }
    }
  }

  lemma StepKeepsInv(b: Broker, op: Op)
    requires Inv(b) && Honest(op)
    ensures Inv(Step(b, op)) && Log(b) <= Log(Step(b, op))
  {
    match op
    case Publishing(e, flush, w) => PublishKeeps(b, e, flush, w);
    case Terminating(e, probes) => TerminateKeeps(b, e, probes);
    case Closing(probes) => CloseKeeps(b, probes);
    case Aborting => assert Log(Step(b, op)) == Log(b);
    case Receiving(n) => ReceiveReads(b, n);
  }

  /** Whatever the callers and the reader do, in any order: the log is append-only and the accounts balance. */
  lemma {:induction false} RunKeepsInv(b: Broker, ops: seq<Op>)
    requires Inv(b) && forall op | op in ops :: Honest(op)
    ensures Inv(Run(b, ops)) && Log(b) <= Log(Run(b, ops))
    decreases |ops|
  {
    if ops != [] {
      assert ops[0] in ops;
      StepKeepsInv(b, ops[0]);
      RunKeepsInv(Step(b, ops[0]), ops[1..]);
    }
  }

  lemma StepAfterEnd(b: Broker, op: Op)
    requires b.closed || b.terminal
    ensures var b' := Step(b, op); (b.terminal ==> b'.terminal) && (b.closed ==> b'.closed) && Log(b') == Log(b) && b'.published == b.published
  {
    if op.Receiving? {
      ReceiveReads(b, op.n);
    }
  }

  /** After the terminal event, or close, nothing is appended or accepted any more. */
  lemma {:induction false} EndIsFinal(b: Broker, ops: seq<Op>)
    requires b.closed || b.terminal
    ensures Log(Run(b, ops)) == Log(b) && Run(b, ops).published == b.published
    decreases |ops|
  {
    if ops != [] {
      StepAfterEnd(b, ops[0]);
      EndIsFinal(Step(b, ops[0]), ops[1..]);
    }
  }

  /** Conservation with losses that no marker has reported. */
  lemma CountsBalance(b: Broker)
    requires Sound(b)
    ensures HostKinds(b.published) == HostKinds(Log(b)) + MarkerKinds(Log(b)) + b.unreported.byKind
    ensures |b.published| == HostCount(Log(b)) + ReportedCount(Log(b)) + b.unreported.count
  {
    CountsAreCardinalities(Log(b));
    CountsAreCardinalities(b.published);
    AllHosts(b.published);
    assert |HostKinds(Log(b)) + MarkerKinds(Log(b)) + b.unreported.byKind| ==
           |HostKinds(Log(b))| + |MarkerKinds(Log(b))| + |b.unreported.byKind|;
  }

  /**
    In every run: what was published is in the log, reported by a marker, or not reported yet, in number
    and per kind; the log is in stamping order, holds every critical event that was accepted, and ends with
    the terminal event once there is one. Nothing stays unreported at the end unless the broker was
    aborted, and nothing is ever lost in blocking mode.
  */
  lemma Conservation(capacity: nat, blocking: bool, ops: seq<Op>)
    requires capacity > 0 && forall op | op in ops :: Honest(op)
    ensures var b := Run(NewBroker(capacity, blocking), ops);
            && |b.published| == HostCount(Log(b)) + ReportedCount(Log(b)) + b.unreported.count
            && HostKinds(b.published) == HostKinds(Log(b)) + MarkerKinds(Log(b)) + b.unreported.byKind
            && Located(Log(b), b.published, b.unreported)
            && Increasing(Log(b)) && Criticals(b.published) == Criticals(Log(b))
            && EndsAtTerminal(b)
            && ((b.closed || b.terminal) && !b.aborted ==> |b.published| == HostCount(Log(b)) + ReportedCount(Log(b)))
            && (b.blocking ==> Log(b) == b.published)
  {
    var b := NewBroker(capacity, blocking);
    assert Inv(b);
    RunKeepsInv(b, ops);
    CountsBalance(Run(b, ops));
  }

  lemma RunCons(b: Broker, op: Op, ops: seq<Op>)
    ensures Run(b, [op] + ops) == Run(Step(b, op), ops)
  {
    assert ([op] + ops)[1..] == ops;
  }

  lemma RunTwo(b: Broker, op: Op, next: Op)
    ensures Run(b, [op, next]) == Step(Step(b, op), next)
  {
    assert [op, next] == [op] + [next];
    assert [next] == [next] + [];
    RunCons(b, op, [next]);
    RunCons(Step(b, op), next, []);
  }

  /** A buffer of one, two deltas: the second is lost, and no marker has said so yet. */
  lemma SecondDeltaIsLost(delta: Event, w: Wait)
    requires delta.weight == Delta
    ensures var b := Step(Step(NewBroker(1, false), Publishing(delta, w, w)), Publishing(delta, w, w));
            b.events == [delta.(number := 1)] && b.dropped.count == 1 && |b.published| == 2 && b.sequence == 2 && !b.closed && !b.terminal && b.received == []
  {
    var b := Step(NewBroker(1, false), Publishing(delta, w, w));
    assert b.events == [delta.(number := 1)];
  }

  /** Abort gives up what was not reported: the lost delta's number is missing and no marker tells. */
  lemma AbortForgetsLoss(delta: Event, done: Event, w: Wait)
    requires delta.weight == Delta
    ensures var ops := [Publishing(delta, w, w), Publishing(delta, w, w)] + [Aborting, Terminating(done, [])];
            var b := Run(NewBroker(1, false), ops);
            b.terminal && |b.published| == 3 && Log(b) == [delta.(number := 1), done.(number := 3)]
  {
    var first, last := [Publishing(delta, w, w), Publishing(delta, w, w)], [Aborting, Terminating(done, [])];
    var b := Run(NewBroker(1, false), first);
    RunTwo(NewBroker(1, false), first[0], first[1]);
    SecondDeltaIsLost(delta, w);
    RunTwo(b, last[0], last[1]);
    RunAppend(NewBroker(1, false), first, last);
  }

  lemma {:induction false} RunAppend(b: Broker, ops: seq<Op>, more: seq<Op>)
    ensures Run(b, ops + more) == Run(Run(b, ops), more)
    decreases |ops|
  {
    if ops == [] {
      assert ops + more == more;
    } else {
      assert (ops + more)[1..] == ops[1..] + more;
      RunAppend(Step(b, ops[0]), ops[1..], more);
    }
  }

  // ---------- with forged reports ----------

  /** Whatever is published: the terminal's slot is free, so the "terminal reserve exhausted" panic is unreachable. */
  lemma ReserveIsFree(b: Broker, probes: seq<nat>)
    requires Shape(b) && !b.closed && !b.terminal
    ensures var s := Settle(b, probes).(terminal := true); Shape(s) && |s.events| < s.capacity + 1 == b.capacity + 1
  {
    FlushTells(b, true, Wait(probes, false));
  }

  lemma PublishShape(b: Broker, e: Event, flush: Wait, w: Wait)
    requires Shape(b)
    ensures Shape(Publish(b, e, flush, w).0)
  {
    if !b.closed && !b.terminal && !b.aborted {
      var reliable := b.blocking || e.weight != Delta;
      var (f, flushed) := Flush(b, reliable, flush);
      assert Flushes(b, f, flushed) by { FlushTells(b, reliable, flush); }
      assert Shape(f);
      var (r, v) := Deliver(f, e, w);
      assert Delivers(f, e, r, v) by { DeliverTells(f, e, w); }
      assert Shape(r);
    }
  }

  lemma StepShape(b: Broker, op: Op)
    requires Shape(b)
    ensures Shape(Step(b, op))
  {
    match op
    case Publishing(e, flush, w) => PublishShape(b, e, flush, w);
    case Terminating(e, probes) =>
      if !b.closed && !b.terminal {
        ReserveIsFree(b, probes);
      }
    case Closing(probes) =>
      if !b.closed && !b.terminal {
        FlushTells(b, !b.aborted, Wait(probes, false));
      }
    case Aborting =>
    case Receiving(n) => ReceiveReads(b, n);
  }

  /** Every run, with any events, keeps the reserve. */
  lemma {:induction false} RunKeepsShape(b: Broker, ops: seq<Op>)
    requires Shape(b)
    ensures Shape(Run(b, ops))
    decreases |ops|
  {
    if ops != [] {
      StepShape(b, ops[0]);
      RunKeepsShape(Step(b, ops[0]), ops[1..]);
    }
  }

  function Claimed(e: Event): nat {
    if IsMarker(e) then e.report.value.count else 0
  }

  lemma ReportedSnoc(s: seq<Event>, e: Event)
    ensures ReportedCount(s + [e]) == ReportedCount(s) + Claimed(e)
  {
    assert (s + [e])[..|s|] == s;
  }

  /** Losses reported so far and losses still to report. */
  function Losses(b: Broker): nat {
    ReportedCount(Log(b)) + b.dropped.count
  }

  /** A marker moves losses from the aggregate to the log. */
  lemma FlushKeepsLosses(b: Broker, reliable: bool, w: Wait)
    requires Shape(b) && !b.terminal
    ensures Losses(Flush(b, reliable, w).0) == Losses(b)
  {
    FlushTells(b, reliable, w);
    ReportedSnoc(Log(b), Marker(b.dropped, b.sequence + 1));
  }

  /**
    For any event, forged or not: a dropped delta is one more loss, an accepted report under the broker's
    name claims some, and nothing else changes the losses. A live broker in drop mode refuses no delta.
  */
  lemma PublishLosses(b: Broker, e: Event, flush: Wait, w: Wait)
    requires Shape(b)
    ensures var (r, v) := Publish(b, e, flush, w);
            && Losses(r) == Losses(b) + Lost(e, v)
            && (e.weight == Delta && !b.blocking && !b.closed && !b.terminal && !b.aborted ==> v != Refused)
  {
    if !b.closed && !b.terminal {
      if b.aborted {
        AcceptLog(b, e);
        ReportedSnoc(Log(b), Stamp(b, e));
      } else {
        PublishLiveLosses(b, e, flush, w);
      }
    }
  }

  function Lost(e: Event, v: Verdict): nat {
    match v
    case Accepted => Claimed(e)
    case Dropped => 1
    case Refused => 0
  }

  lemma PublishLiveLosses(b: Broker, e: Event, flush: Wait, w: Wait)
    requires Shape(b) && !b.terminal && !b.closed
    ensures var (r, v) := PublishLive(b, e, flush, w);
            Losses(r) == Losses(b) + Lost(e, v) && (e.weight == Delta && !b.blocking ==> v != Refused)
  {
    var reliable := b.blocking || e.weight != Delta;
    var (f, flushed) := Flush(b, reliable, flush);
    assert Flushes(b, f, flushed) by { FlushTells(b, reliable, flush); }
    assert Losses(f) == Losses(b) by { FlushKeepsLosses(b, reliable, flush); }
    if flushed && reliable {
      DeliverLosses(f, e, w);
    } else {
      OutcomeLosses(f, e);
    }
  }

  lemma OutcomeLosses(f: Broker, e: Event)
    ensures Losses(Accept(f, e)) == Losses(f) + Claimed(e) && Losses(Discard(f, e)) == Losses(f) + 1
  {
    AcceptLog(f, e);
    assert Log(Discard(f, e)) == Log(f);
    ReportedSnoc(Log(f), Stamp(f, e));
  }

  lemma DeliverLosses(f: Broker, e: Event, w: Wait)
    requires Shape(f) && !f.terminal
    ensures var (r, v) := Deliver(f, e, w); Losses(r) == Losses(f) + Lost(e, v)
  {
    DeliverTells(f, e, w);
    ReportedSnoc(Log(f), Stamp(f, e));
  }

  // ---------- the broker object ----------

  class BoundedBroker {
    const capacity: nat
    const blocking: bool
    var events: seq<Event>
    var closed: bool
    var terminal: bool
    var aborted: bool
    var sequence: nat
    var dropped: Aggregate
    ghost var received: seq<Event>
    ghost var published: seq<Event>
    ghost var unreported: Aggregate

    ghost function View(): Broker
      reads this
    {
      Broker(capacity, blocking, events, closed, terminal, aborted, sequence, dropped, received, published, unreported)
    }

    constructor (capacity: nat, blocking: bool)
      ensures View() == NewBroker(capacity, blocking)
    {
      this.capacity, this.blocking := capacity, blocking;
      events, closed, terminal, aborted, sequence, dropped := [], false, false, false, 0, NO_DROPS;
      received, published, unreported := [], [], NO_DROPS;
    }

    /** The reader takes up to `n` events. */
    method Take(n: nat)
      modifies this`events, this`received
      ensures View() == Receive(old(View()), n)
    {
      var taken := if n <= |events| then n else |events|;
      received := received + events[..taken];
      events := events[taken..];
    }

    method Abort()
      modifies this`aborted
      ensures View() == Step(old(View()), Aborting)
    {
      aborted := true;
    }

    method SendLocked(e: Event, w: Wait) returns (ok: bool)
      modifies this`events, this`received, this`aborted
      ensures (View(), ok) == Send(old(View()), e, w)
    {
      var i := 0;
      while |events| >= capacity && i < |w.probes|
        invariant 0 <= i <= |w.probes|
        invariant aborted == old(aborted)
        invariant Await(View(), w.probes[i..]) == Await(old(View()), w.probes)
      {
        Take(w.probes[i]);
        i := i + 1;
      }
      if |events| >= capacity {
        aborted := aborted || !w.ctxDone;
        return false;
      }
      events := events + [e];
      return true;
    }

    method FlushDroppedLocked(reliable: bool, w: Wait) returns (sent: bool)
      modifies this`events, this`received, this`aborted, this`sequence, this`dropped, this`unreported
      ensures (View(), sent) == Flush(old(View()), reliable, w)
    {
      if dropped.count == 0 {
        return true;
      }
      var marker := Marker(dropped, sequence + 1);
      if reliable {
        sent := SendLocked(marker, w);
      } else {
        sent := |events| < capacity;
        if sent { events := events + [marker]; }
      }
      if sent {
        sequence, dropped, unreported := sequence + 1, NO_DROPS, NO_DROPS;
      }
    }

    /** stampNextLocked and recordDropLocked. */
    method DropLocked(e: Event)
      modifies this`sequence, this`dropped, this`published, this`unreported
      ensures View() == Discard(old(View()), e)
    {
      sequence := sequence + 1;
      var stamped := e.(number := sequence);
      dropped := RecordDrop(dropped, stamped);
      published, unreported := published + [stamped], RecordDrop(unreported, stamped);
    }

    /** stampNextLocked and a send that cannot block. */
    method AppendLocked(e: Event)
      modifies this`events, this`sequence, this`published
      ensures View() == Accept(old(View()), e)
    {
      sequence := sequence + 1;
      var stamped := e.(number := sequence);
      events, published := events + [stamped], published + [stamped];
    }

    /** stampNextLocked and a send that may wait. */
    method DeliverLocked(e: Event, w: Wait) returns (ok: bool)
      modifies this`events, this`received, this`aborted, this`sequence, this`published
      ensures var (b, v) := Deliver(old(View()), e, w); View() == b && ok == (v == Accepted)
    {
      sequence := sequence + 1;
      var stamped := e.(number := sequence);
      ok := SendLocked(stamped, w);
      if ok { published := published + [stamped]; }
    }

    method PublishLocked(e: Event, flush: Wait, w: Wait) returns (ok: bool)
      modifies this`events, this`received, this`aborted, this`sequence, this`dropped, this`published, this`unreported
      ensures var (b, v) := PublishLive(old(View()), e, flush, w); View() == b && ok == (v == Accepted)
    {
      var reliable := blocking || e.weight != Delta;
      var flushed := FlushDroppedLocked(reliable, flush);
      if !flushed {
        if !reliable { DropLocked(e); }
        return false;
      }
      if reliable {
        ok := DeliverLocked(e, w);
        return;
      }
      if |events| >= capacity {
        DropLocked(e);
        return false;
      }
      AppendLocked(e);
      return true;
    }

    method PublishContext(e: Event, flush: Wait, w: Wait) returns (ok: bool)
      modifies this`events, this`received, this`aborted, this`sequence, this`dropped, this`published, this`unreported
      ensures var (b, v) := Publish(old(View()), e, flush, w); View() == b && ok == (v == Accepted)
    {
      if closed || terminal {
        return false;
      }
      if aborted {
        if e.weight == Delta || |events| >= capacity {
          return false;
        }
        AppendLocked(e);
        return true;
      }
      ok := PublishLocked(e, flush, w);
    }

    /** publishTerminal reports the losses first, unless abort comes before there is room. */
    method SettleLocked(probes: seq<nat>)
      modifies this`events, this`received, this`aborted, this`sequence, this`dropped, this`unreported
      ensures View() == Settle(old(View()), probes)
    {
      if !aborted && dropped.count > 0 {
        var flushed := FlushDroppedLocked(true, Wait(probes, false));
        if !flushed { dropped := NO_DROPS; }
      }
    }

    /** The panic for an exhausted reserve is the branch that cannot be reached. */
    method PublishTerminal(e: Event, probes: seq<nat>) returns (ok: bool)
      requires Shape(View())
      modifies this
      ensures View() == Step(old(View()), Terminating(e, probes)) && ok == (!old(closed) && !old(terminal))
    {
      if closed || terminal {
        return false;
      }
      ReserveIsFree(View(), probes);
      SettleLocked(probes);
      terminal := true;
      if |events| >= capacity + 1 {
        assert false;
      }
      AppendLocked(e);
      return true;
    }

    /** Never a marker behind an already published terminal. */
    method CloseEvents(probes: seq<nat>)
      modifies this
      ensures View() == Step(old(View()), Closing(probes))
    {
      if closed {
        return;
      }
      if !terminal {
        var _ := FlushDroppedLocked(!aborted, Wait(probes, false));
      }
      closed := true;
    }
  }
}
