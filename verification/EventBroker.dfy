/**
  event_broker.go in execution (spool) mode: a channel, an overflow queue, a pump goroutine with an
  in-flight head and a drop aggregate, used by publishers, Result-only callers, late subscribers and
  teardown at the same time.

  Every function below is one critical section of the mutex, or one of the pump's or the reader's
  own channel operations. waitCapacityLocked gives the mutex up, so a blocking publication is two
  sections, `Publish` and `Resume`; a section whose wait has not ended yet changes nothing.
*/
module EventBroker {
  import opened Common
  import opened EventLog

  /** The pump reads the queue's head (Holding), sends it unlocked (Handed), then removes it. */
  datatype Pump = Off | Resting | Holding | Handed | Gone

  datatype Broker = Broker(
    capacity: nat, blocking: bool,
    channel: seq<Event>, sealed: bool, queue: seq<Event>, pump: Pump,
    subscribed: bool, discardOrdinary: bool, closed: bool, terminal: bool, aborted: bool,
    sequence: nat, dropped: Aggregate,
    received: seq<Event>, published: seq<Event>)

  function NewBroker(capacity: nat, blocking: bool): Broker {
    Broker(capacity, blocking, [], false, [], Off, false, false, false, false, false, 0, NO_DROPS, [], [])
  }

  /** The one ordered log: what the reader has, what the channel holds, and the queue less a handed-over head. */
  function Log(b: Broker): seq<Event> {
    b.received + b.channel + Backlog(b)
  }

  function Backlog(b: Broker): seq<Event> {
    if b.pump == Handed && b.queue != [] then b.queue[1..] else b.queue
  }

  // ---------- sections ----------

  /** What only callers change: the flags and the events they published. */
  predicate SameRole(b: Broker, b': Broker) {
    && b'.subscribed == b.subscribed && b'.closed == b.closed && b'.terminal == b.terminal && b'.sealed == b.sealed
    && b'.published == b.published && b'.received == b.received
  }

  predicate SamePublished(b: Broker, b': Broker) {
    b'.published == b.published && b'.closed == b.closed && b'.terminal == b.terminal
  }

  function StartPump(b: Broker): Broker {
    if b.pump == Off then b.(pump := Resting) else b
  }

  function Enqueue(b: Broker, e: Event): (b': Broker)
    ensures b' == b.(channel := b'.channel, queue := b'.queue, pump := b'.pump)
  {
    if b.queue == [] && |b.channel| < b.capacity then b.(channel := b.channel + [e])
    else
      var b' := b.(queue := b.queue + [e]);
      if b.subscribed then StartPump(b') else b'
  }

  function Stamp(b: Broker, e: Event): Event {
    e.(number := b.sequence + 1)
  }

  function Stamping(b: Broker, e: Event): Broker {
    b.(sequence := b.sequence + 1, published := b.published + [Stamp(b, e)])
  }

  /** Stamp a caller's event and append it to the log. */
  function Append(b: Broker, e: Event): Broker {
    Enqueue(Stamping(b, e), Stamp(b, e))
  }

  /** Stamp a caller's event and count it as dropped. */
  function Discard(b: Broker, e: Event): Broker {
    Stamping(b, e).(dropped := RecordDrop(b.dropped, Stamp(b, e)))
  }

  function SpoolDropped(b: Broker): (b': Broker)
    ensures SameRole(b, b')
    ensures b.dropped.count > 0 ==> b'.dropped == NO_DROPS && b'.sequence == b.sequence + 1
  {
    if b.dropped.count == 0 then b
    else Enqueue(b.(sequence := b.sequence + 1, dropped := NO_DROPS), Marker(b.dropped, b.sequence + 1))
  }

  function Prune(b: Broker, keepOrdinary: bool): (b': Broker)
    ensures SameRole(b, b')
  {
    var s := SiftAll(b.channel + b.queue, b.dropped, keepOrdinary, b.capacity);
    b.(channel := [], queue := s.queue, dropped := s.dropped)
  }

  predicate Full(b: Broker) {
    |b.channel| + |b.queue| >= b.capacity
  }

  /** waitCapacityLocked's loop is over. */
  predicate MayProceed(b: Broker, e: Event, ctxDone: bool) {
    e.weight == Critical || !b.blocking || b.closed || b.terminal || b.discardOrdinary || b.aborted || ctxDone || !Full(b)
  }

  predicate MustDrop(b: Broker, e: Event, ctxDone: bool) {
    && e.weight != Critical
    && (|| b.discardOrdinary
        || ((ctxDone || b.aborted) && e.weight == Delta)
        || (!b.blocking && e.weight == Delta && Full(b)))
  }

  datatype Verdict = Accepted | Dropped | Refused | Waiting

  function Resume(b: Broker, e: Event, ctxDone: bool): (Broker, Verdict) {
    if !MayProceed(b, e, ctxDone) then (b, Waiting)
    else if b.closed || b.terminal then (b, Refused)
    else if MustDrop(b, e, ctxDone) then (Discard(b, e), Dropped)
    else (Append(b, e), Accepted)
  }

  function Publish(b: Broker, e: Event, ctxDone: bool): (Broker, Verdict) {
    if !MayProceed(b, e, ctxDone) then (b, Waiting)
    else if b.closed || b.terminal then (b, Refused)
    else if MustDrop(b, e, ctxDone) then (Discard(b, e), Dropped)
    else Resume(SpoolDropped(b), e, ctxDone)
  }

  /** publishTerminal and close: before any terminal, prune what nobody observed and report every loss. */
  function Flushed(b: Broker): (b': Broker)
    ensures SameRole(b, b')
  {
    if b.terminal then b else SpoolDropped(if b.subscribed then b else Prune(b, !b.discardOrdinary))
  }

  function Terminate(b: Broker, e: Event): Broker {
    if b.closed || b.terminal then b else Append(Flushed(b).(terminal := true), e)
  }

  function Subscribe(b: Broker): (b': Broker)
    ensures SamePublished(b, b')
  {
    var joined := b.(subscribed := true);
    if b.closed then joined else StartPump(joined.(discardOrdinary := false))
  }

  function AwaitResult(b: Broker): (b': Broker)
    ensures SamePublished(b, b')
  {
    if b.subscribed || b.closed || b.terminal then b else Prune(b.(discardOrdinary := true), false)
  }

  function Close(b: Broker): Broker {
    if b.closed then b
    else
      var settled := Flushed(b).(closed := true);
      if b.subscribed then StartPump(settled)
      else settled.(channel := settled.channel + settled.queue, queue := [], sealed := true)
  }

  function PumpTake(b: Broker): (b': Broker)
    ensures SamePublished(b, b')
  {
    if b.pump != Resting then b
    else if b.queue != [] then b.(pump := Holding)
    else if b.closed then b.(pump := Gone, sealed := true)
    else b
  }

  function PumpSend(b: Broker): (b': Broker)
    ensures SamePublished(b, b')
  {
    if b.pump == Holding && b.queue != [] && |b.channel| < b.capacity + 1
    then b.(channel := b.channel + [b.queue[0]], pump := Handed) else b
  }

  function PumpRemove(b: Broker): (b': Broker)
    ensures SamePublished(b, b')
  {
    if b.pump == Handed && b.queue != [] then b.(queue := b.queue[1..], pump := Resting) else b
  }

  function Receive(b: Broker): (b': Broker)
    ensures SamePublished(b, b')
  {
    if b.subscribed && b.channel != []
    then b.(received := b.received + [b.channel[0]], channel := b.channel[1..]) else b
  }

  datatype Op =
    | Publishing(event: Event, ctxDone: bool)
    | Resuming(event: Event, ctxDone: bool)
    | Terminating(event: Event)
    | Subscribing | AwaitingResult | Closing | Aborting
    | Taking | Sending | Removing | Receiving

  function Step(b: Broker, op: Op): Broker {
    match op
    case Publishing(e, ctxDone) => Publish(b, e, ctxDone).0
    case Resuming(e, ctxDone) => Resume(b, e, ctxDone).0
    case Terminating(e) => Terminate(b, e)
    case Subscribing => Subscribe(b)
    case AwaitingResult => AwaitResult(b)
    case Closing => Close(b)
    case Aborting => b.(aborted := true)
    case Taking => PumpTake(b)
    case Sending => PumpSend(b)
    case Removing => PumpRemove(b)
    case Receiving => Receive(b)
  }

  function Run(b: Broker, ops: seq<Op>): Broker
    decreases |ops|
  {
    if ops == [] then b else Run(Step(b, ops[0]), ops[1..])
  }

  /** Callers publish their own events, not forged markers, and a terminal event is critical. */
  predicate Honest(op: Op) {
    && (op.Publishing? || op.Resuming? || op.Terminating? ==> !IsMarker(op.event))
    && (op.Terminating? ==> op.event.weight == Critical)
  }

  // ---------- the log ----------

  predicate Shape(b: Broker) {
    && b.capacity > 0
    && (b.pump == Holding || b.pump == Handed ==> b.queue != [])
    && (!b.subscribed ==> b.pump == Off && b.received == [])
    && (b.sealed ==> b.closed && b.queue == [] && (b.pump == Off || b.pump == Gone))
    && (b.pump == Gone ==> b.sealed)
    && (!b.sealed ==> |b.channel| <= b.capacity + 1)
    && (b.terminal ==> b.dropped.count == 0)
  }

  predicate Sound(b: Broker) {
    Accounts(Log(b), b.published, b.dropped, b.sequence)
  }

  predicate EndsAtTerminal(b: Broker) {
    b.terminal ==>
      Log(b) != [] && b.published != [] && Log(b)[|Log(b)| - 1] == b.published[|b.published| - 1]
  }

  predicate Inv(b: Broker) {
    Shape(b) && Sound(b) && EndsAtTerminal(b)
  }

  lemma EnqueueLog(b: Broker, e: Event)
    requires Shape(b) && !b.sealed
    ensures Log(Enqueue(b, e)) == Log(b) + [e]
  {
    if b.queue == [] && |b.channel| < b.capacity {
      assert b.received + (b.channel + [e]) + [] == b.received + b.channel + [] + [e];
    } else {
      assert Backlog(Enqueue(b, e)) == Backlog(b) + [e];
    }
  }

  lemma EnqueueShape(b: Broker, e: Event)
    requires Shape(b) && !b.sealed
    ensures Shape(Enqueue(b, e))
  {
  }

  lemma AppendShape(b: Broker, e: Event)
    requires Shape(b) && !b.sealed
    ensures Shape(Append(b, e))
  {
    EnqueueShape(Stamping(b, e), Stamp(b, e));
  }

  lemma AppendLog(b: Broker, e: Event)
    requires Shape(b) && !b.sealed
    ensures Log(Append(b, e)) == Log(b) + [Stamp(b, e)]
  {
    assert Log(Stamping(b, e)) == Log(b);
    EnqueueLog(Stamping(b, e), Stamp(b, e));
  }

  lemma AppendSound(b: Broker, e: Event)
    requires Shape(b) && !b.sealed && Sound(b) && !IsMarker(e)
    ensures Sound(Append(b, e))
  {
    AppendLog(b, e);
    PublishAccounts(Log(b), b.published, b.dropped, b.sequence, Stamp(b, e));
  }

  lemma DiscardSound(b: Broker, e: Event)
    requires Sound(b) && !IsMarker(e) && e.weight != Critical
    ensures Sound(Discard(b, e))
  {
    assert Log(Discard(b, e)) == Log(b);
    DropAccounts(Log(b), b.published, b.dropped, b.sequence, Stamp(b, e));
  }

  lemma SpoolShape(b: Broker)
    requires Shape(b) && !b.sealed
    ensures Shape(SpoolDropped(b)) && SpoolDropped(b).dropped.count == 0
    ensures Log(SpoolDropped(b)) == if b.dropped.count == 0 then Log(b) else Log(b) + [Marker(b.dropped, b.sequence + 1)]
  {
    if b.dropped.count > 0 {
      var taken := b.(sequence := b.sequence + 1, dropped := NO_DROPS);
      assert Log(taken) == Log(b);
      EnqueueLog(taken, Marker(b.dropped, b.sequence + 1));
      EnqueueShape(taken, Marker(b.dropped, b.sequence + 1));
    }
  }

  lemma MarkerSound(b: Broker, b': Broker)
    requires Sound(b) && b.dropped.count > 0
    requires Log(b') == Log(b) + [Marker(b.dropped, b.sequence + 1)] && b'.published == b.published
    requires b'.dropped == NO_DROPS && b'.sequence == b.sequence + 1
    ensures Sound(b')
  {
    MarkerAccounts(Log(b), b.published, b.dropped, b.sequence);
  }

  lemma SpoolSound(b: Broker)
    requires Shape(b) && !b.sealed && Sound(b)
    ensures Sound(SpoolDropped(b))
  {
    if b.dropped.count > 0 {
      SpoolShape(b);
      MarkerSound(b, SpoolDropped(b));
    }
  }

  lemma PruneKeeps(b: Broker, keepOrdinary: bool)
    requires Shape(b) && !b.sealed && Sound(b) && !b.subscribed && !b.terminal
    ensures Shape(Prune(b, keepOrdinary)) && Sound(Prune(b, keepOrdinary))
    ensures Log(Prune(b, keepOrdinary)) == SiftAll(Log(b), b.dropped, keepOrdinary, b.capacity).queue
  {
    var b' := Prune(b, keepOrdinary);
    assert Log(b) == b.channel + b.queue;
    assert Log(b') == b'.queue;
    SiftAccounts(Log(b), b.published, b.dropped, b.sequence, keepOrdinary, b.capacity);
  }

  // ---------- every step ----------

  lemma AppendKeeps(b: Broker, e: Event)
    requires Shape(b) && !b.closed && Sound(b) && !IsMarker(e) && (!b.terminal || e.weight == Critical)
    ensures Inv(Append(b, e))
  {
    AppendShape(b, e);
    AppendLog(b, e);
    AppendSound(b, e);
  }

  lemma ResumeKeeps(b: Broker, e: Event, ctxDone: bool)
    requires Inv(b) && !IsMarker(e)
    ensures Inv(Resume(b, e, ctxDone).0)
  {
    if MayProceed(b, e, ctxDone) && !b.closed && !b.terminal {
      if MustDrop(b, e, ctxDone) {
        DiscardSound(b, e);
        assert Shape(Discard(b, e));
      } else {
        AppendKeeps(b, e);
      }
    }
  }

  lemma PublishKeeps(b: Broker, e: Event, ctxDone: bool)
    requires Inv(b) && !IsMarker(e)
    ensures Inv(Publish(b, e, ctxDone).0)
  {
    if MayProceed(b, e, ctxDone) && !b.closed && !b.terminal {
      if MustDrop(b, e, ctxDone) {
        DiscardSound(b, e);
        assert Shape(Discard(b, e));
      } else {
        SpoolShape(b);
        SpoolSound(b);
        ResumeKeeps(SpoolDropped(b), e, ctxDone);
      }
    }
  }

  /** A step that only moves events along the log, or sets a flag. */
  lemma SameLogKeeps(b: Broker, b': Broker)
    requires Inv(b) && Shape(b') && Log(b') == Log(b)
    requires b'.published == b.published && b'.dropped == b.dropped && b'.sequence == b.sequence && b'.terminal == b.terminal
    ensures Inv(b')
  {
  }

  lemma FlushedKeeps(b: Broker)
    requires Inv(b) && !b.closed
    ensures Inv(Flushed(b)) && Flushed(b).dropped.count == 0
  {
    if !b.terminal {
      if !b.subscribed {
        PruneKeeps(b, !b.discardOrdinary);
      }
      var pruned := if b.subscribed then b else Prune(b, !b.discardOrdinary);
      SpoolShape(pruned);
      SpoolSound(pruned);
    }
  }

  lemma TerminateKeeps(b: Broker, e: Event)
    requires Inv(b) && !IsMarker(e) && e.weight == Critical
    ensures Inv(Terminate(b, e))
  {
    if !b.closed && !b.terminal {
      FlushedKeeps(b);
      var settled := Flushed(b).(terminal := true);
      assert Log(settled) == Log(Flushed(b));
      AppendKeeps(settled, e);
    }
  }

  lemma CloseKeeps(b: Broker)
    requires Inv(b)
    ensures Inv(Close(b))
  {
    if !b.closed {
      FlushedKeeps(b);
      var flushed := Flushed(b);
      var settled := flushed.(closed := true);
      assert Log(settled) == Log(flushed);
      SameLogKeeps(flushed, settled);
      CloseLog(settled);
      SameLogKeeps(settled, Close(b));
    }
  }

  lemma CloseLog(b: Broker)
    requires Shape(b) && b.closed && !b.sealed
    ensures b.subscribed ==> Shape(StartPump(b)) && Log(StartPump(b)) == Log(b)
    ensures !b.subscribed ==>
              var b' := b.(channel := b.channel + b.queue, queue := [], sealed := true);
              Shape(b') && Log(b') == Log(b)
  {
    if !b.subscribed {
      assert b.received + (b.channel + b.queue) + [] == b.received + b.channel + b.queue;
    }
  }

  lemma HandOverKeepsLog(b: Broker)
    requires Shape(b)
    ensures Shape(PumpSend(b)) && Log(PumpSend(b)) == Log(b)
  {
    if b.queue != [] {
      assert b.received + (b.channel + [b.queue[0]]) + b.queue[1..] == b.received + b.channel + b.queue;
    }
  }

  lemma PumpKeepsLog(b: Broker)
    requires Shape(b)
    ensures Shape(PumpTake(b)) && Log(PumpTake(b)) == Log(b)
    ensures Shape(PumpSend(b)) && Log(PumpSend(b)) == Log(b)
    ensures Shape(PumpRemove(b)) && Log(PumpRemove(b)) == Log(b)
  {
    HandOverKeepsLog(b);
  }

  lemma ReaderKeepsLog(b: Broker)
    requires Shape(b)
    ensures Shape(Receive(b)) && Log(Receive(b)) == Log(b)
    ensures Shape(Subscribe(b)) && Log(Subscribe(b)) == Log(b)
  {
    if b.channel != [] {
      assert [b.channel[0]] + b.channel[1..] == b.channel;
      assert b.received + [b.channel[0]] + b.channel[1..] == b.received + b.channel;
    }
  }

  predicate Moves(op: Op) {
    op.Subscribing? || op.Aborting? || op.Taking? || op.Sending? || op.Removing? || op.Receiving?
  }

  lemma MovesKeepLog(b: Broker, op: Op)
    requires Shape(b) && Moves(op)
    ensures var b' := Step(b, op);
            && Shape(b') && Log(b') == Log(b)
            && b'.published == b.published && b'.dropped == b.dropped && b'.sequence == b.sequence && b'.terminal == b.terminal
  {
    match op
    case Subscribing => ReaderKeepsLog(b);
    case Receiving => ReaderKeepsLog(b);
    case Aborting => assert Log(b.(aborted := true)) == Log(b);
    case _ => PumpKeepsLog(b);
  }

  lemma AwaitKeeps(b: Broker)
    requires Inv(b)
    ensures Inv(AwaitResult(b))
  {
    if !b.subscribed && !b.closed && !b.terminal {
      assert Log(b.(discardOrdinary := true)) == Log(b);
      PruneKeeps(b.(discardOrdinary := true), false);
    }
  }

  lemma StepKeepsInv(b: Broker, op: Op)
    requires Inv(b) && Honest(op)
    ensures Inv(Step(b, op))
  {
    match op
    case Publishing(e, ctxDone) => PublishKeeps(b, e, ctxDone);
    case Resuming(e, ctxDone) => ResumeKeeps(b, e, ctxDone);
    case Terminating(e) => TerminateKeeps(b, e);
    case AwaitingResult => AwaitKeeps(b);
    case Closing => CloseKeeps(b);
    case _ =>
      MovesKeepLog(b, op);
      SameLogKeeps(b, Step(b, op));
  }

  lemma {:induction false} RunKeepsInv(b: Broker, ops: seq<Op>)
    requires Inv(b) && forall op | op in ops :: Honest(op)
    ensures Inv(Run(b, ops))
    decreases |ops|
  {
    if ops != [] {
      StepKeepsInv(b, ops[0]);
      RunKeepsInv(Step(b, ops[0]), ops[1..]);
    }
  }

  // ---------- whole runs ----------

  lemma NewBrokerInv(capacity: nat, blocking: bool)
    requires capacity > 0
    ensures Inv(NewBroker(capacity, blocking))
  {
    assert Log(NewBroker(capacity, blocking)) == [];
  }

  /**
    Over every interleaving of publishers, Result-only callers, subscribers, the pump, the reader,
    abort and close: once the terminal event is published, the log is in strictly increasing sequence
    order and ends at it; the published events are, in total and per kind, those in the log plus those
    its markers report; every critical event is in the log, in publication order; and the sequence
    number of every dropped event lies within the range of one of the log's markers.
  */
  lemma Conservation(capacity: nat, blocking: bool, ops: seq<Op>)
    requires capacity > 0 && forall op | op in ops :: Honest(op)
    requires Run(NewBroker(capacity, blocking), ops).terminal
    ensures var b := Run(NewBroker(capacity, blocking), ops); var log := Log(b);
            && Increasing(log)
            && log != [] && b.published != [] && log[|log| - 1] == b.published[|b.published| - 1]
            && |b.published| == HostCount(log) + ReportedCount(log)
            && HostKinds(b.published) == HostKinds(log) + MarkerKinds(log)
            && Criticals(log) == Criticals(b.published)
            && (forall e | e in b.published && e !in log :: exists i :: 0 <= i < |log| && Covers(log[i], e.number))
  {
    NewBrokerInv(capacity, blocking);
    RunKeepsInv(NewBroker(capacity, blocking), ops);
    var b := Run(NewBroker(capacity, blocking), ops);
    SettledCounts(Log(b), b.published, b.dropped, b.sequence);
  }

  lemma PublishAppends(b: Broker, e: Event, ctxDone: bool)
    requires Shape(b)
    ensures Log(b) <= Log(Publish(b, e, ctxDone).0)
    ensures b.terminal ==> Log(Publish(b, e, ctxDone).0) == Log(b)
    ensures Publish(b, e, ctxDone).0.subscribed == b.subscribed
  {
    if MayProceed(b, e, ctxDone) && !b.closed && !b.terminal {
      if MustDrop(b, e, ctxDone) {
        assert Log(Discard(b, e)) == Log(b);
      } else {
        SpoolShape(b);
        ResumeAppends(SpoolDropped(b), e, ctxDone);
      }
    }
  }

  lemma TeardownAppends(b: Broker, e: Event)
    requires Shape(b) && b.subscribed
    ensures Log(b) <= Log(Terminate(b, e)) && (b.terminal ==> Log(Terminate(b, e)) == Log(b))
    ensures Log(b) <= Log(Close(b)) && (b.terminal ==> Log(Close(b)) == Log(b))
  {
    if !b.closed {
      SpoolShape(b);
      var flushed := Flushed(b);
      assert Log(b) <= Log(flushed) && (b.terminal ==> flushed == b);
      assert Log(flushed.(closed := true)) == Log(flushed);
      CloseLog(flushed.(closed := true));
      if !b.terminal {
        assert Log(flushed.(terminal := true)) == Log(flushed);
        AppendLog(flushed.(terminal := true), e);
      }
    }
  }

  lemma SubscribedAppends(b: Broker, op: Op)
    requires Inv(b) && b.subscribed
    ensures Log(b) <= Log(Step(b, op)) && Step(b, op).subscribed
  {
    match op
    case Publishing(e, ctxDone) => PublishAppends(b, e, ctxDone);
    case Resuming(e, ctxDone) => ResumeAppends(b, e, ctxDone);
    case Terminating(e) => TeardownAppends(b, e);
    case Closing => TeardownAppends(b, Stamp(b, Marker(NO_DROPS, 0)));
    case AwaitingResult =>
    case _ => MovesKeepLog(b, op);
  }

  lemma ResumeAppends(b: Broker, e: Event, ctxDone: bool)
    requires Shape(b)
    ensures Log(b) <= Log(Resume(b, e, ctxDone).0)
    ensures b.terminal ==> Log(Resume(b, e, ctxDone).0) == Log(b)
    ensures Resume(b, e, ctxDone).0.subscribed == b.subscribed
  {
    if MayProceed(b, e, ctxDone) && !b.closed && !b.terminal {
      if MustDrop(b, e, ctxDone) {
        assert Log(Discard(b, e)) == Log(b);
      } else {
        AppendLog(b, e);
      }
    }
  }

  /** For a subscriber the broker is one append-only log, of which it has received a prefix. */
  lemma {:induction false} RefinesAppendOnlyLog(b: Broker, ops: seq<Op>)
    requires Inv(b) && b.subscribed && forall op | op in ops :: Honest(op)
    ensures Log(b) <= Log(Run(b, ops))
    ensures Run(b, ops).received <= Log(Run(b, ops))
    decreases |ops|
  {
    if ops != [] {
      SubscribedAppends(b, ops[0]);
      StepKeepsInv(b, ops[0]);
      RefinesAppendOnlyLog(Step(b, ops[0]), ops[1..]);
    }
  }

  lemma TerminalStep(b: Broker, op: Op)
    requires Inv(b) && b.terminal
    ensures var b' := Step(b, op); b'.terminal && Log(b') == Log(b) && b'.published == b.published
  {
    match op
    case Closing =>
      if !b.closed {
        var settled := b.(closed := true);
        assert Log(settled) == Log(b);
        CloseLog(settled);
      }
    case Publishing(_, _) =>
    case Resuming(_, _) =>
    case Terminating(_) =>
    case AwaitingResult =>
    case _ => MovesKeepLog(b, op);
  }

  /** Nothing is published after the terminal event, and nothing before it is lost any more. */
  lemma {:induction false} TerminalIsLast(b: Broker, ops: seq<Op>)
    requires Inv(b) && b.terminal && forall op | op in ops :: Honest(op)
    ensures Log(Run(b, ops)) == Log(b) && Run(b, ops).published == b.published
    decreases |ops|
  {
    if ops != [] {
      TerminalStep(b, ops[0]);
      StepKeepsInv(b, ops[0]);
      TerminalIsLast(Step(b, ops[0]), ops[1..]);
    }
  }

  lemma FlushedShape(b: Broker)
    requires Shape(b) && !b.closed
    ensures Shape(Flushed(b)) && Flushed(b).dropped.count == 0
  {
    if !b.terminal {
      SpoolShape(if b.subscribed then b else Prune(b, !b.discardOrdinary));
    }
  }

  /** publishTerminal succeeds unless the broker was sealed before, and then its event ends the log. */
  lemma TerminateEnds(b: Broker, e: Event)
    requires Shape(b) && !b.closed && !b.terminal
    ensures var b' := Terminate(b, e);
            && b'.terminal && Log(b') == Log(Flushed(b)) + [Stamp(Flushed(b), e)]
            && b'.published == b.published + [Stamp(Flushed(b), e)]
  {
    FlushedShape(b);
    var settled := Flushed(b).(terminal := true);
    assert Log(settled) == Log(Flushed(b));
    AppendLog(settled, e);
  }

  // ---------- the broker as the source updates it ----------

  /** The broker's fields; `received` and `published` are what its reader took and its callers had stamped. */
  class SpoolingBroker {
    const capacity: nat
    const blocking: bool
    var events: seq<Event>
    var eventsClosed: bool
    var queue: seq<Event>
    var pump: Pump
    var subscribed: bool
    var discardOrdinary: bool
    var closed: bool
    var terminal: bool
    var aborted: bool
    var sequence: nat
    var dropped: Aggregate
    ghost var received: seq<Event>
    ghost var published: seq<Event>

    ghost function Model(): Broker
      reads this
    {
      Broker(capacity, blocking, events, eventsClosed, queue, pump, subscribed, discardOrdinary, closed,
             terminal, aborted, sequence, dropped, received, published)
    }

    constructor (capacity: nat, blocking: bool)
      ensures Model() == NewBroker(capacity, blocking)
    {
      this.capacity, this.blocking := capacity, blocking;
      events, eventsClosed, queue, pump := [], false, [], Off;
      subscribed, discardOrdinary, closed, terminal, aborted := false, false, false, false, false;
      sequence, dropped := 0, NO_DROPS;
      received, published := [], [];
    }

    method StampNext(e: Event) returns (stamped: Event)
      modifies this`sequence
      ensures stamped == e.(number := sequence) && sequence == old(sequence) + 1
    {
      sequence := sequence + 1;
      stamped := e.(number := sequence);
    }

    method EnqueueLocked(e: Event)
      modifies this
      ensures Model() == Enqueue(old(Model()), e)
    {
      if |queue| == 0 && |events| < capacity {
        events := events + [e];
        return;
      }
      queue := queue + [e];
      if subscribed && pump == Off {
        pump := Resting;
      }
    }

    method RecordDropLocked(e: Event)
      modifies this`dropped
      ensures dropped == RecordDrop(old(dropped), e)
    {
      var first, last := dropped.first, dropped.last;
      if dropped.count == 0 {
        first := e.number;
      }
      if e.number < first {
        first := e.number;
      }
      if e.number > last {
        last := e.number;
      }
      dropped := Aggregate(dropped.count + 1, dropped.byKind[e.kind := dropped.byKind[e.kind] + 1], first, last);
    }

    method SpoolDroppedLocked()
      modifies this
      ensures Model() == SpoolDropped(old(Model()))
    {
      if dropped.count > 0 {
        var d := dropped;
        dropped := NO_DROPS;
        var marker := StampNext(Marker(d, 0));
        EnqueueLocked(marker);
      }
    }

    method DrainEvents() returns (pending: seq<Event>)
      modifies this`events
      ensures pending == old(events) && events == []
    {
      pending := [];
      while |events| > 0
        invariant pending + events == old(events)
      {
        pending := pending + [events[0]];
        events := events[1..];
      }
    }

    method SiftPending(pending: seq<Event>, keepOrdinary: bool)
      modifies this`queue, this`dropped
      ensures var s := SiftAll(pending, old(dropped), keepOrdinary, capacity); queue == s.queue && dropped == s.dropped
    {
      queue := [];
      var kept := 0;
      for i := 0 to |pending|
        invariant SiftAll(pending[..i], old(dropped), keepOrdinary, capacity) == Sift(queue, dropped, kept)
      {
        var e := pending[i];
        assert pending[..i + 1][..i] == pending[..i];
        if IsMarker(e) {
          dropped := MergeDrops(dropped, e.report.value);
        } else if e.weight == Critical {
          queue := queue + [e];
        } else if keepOrdinary && kept < capacity {
          queue := queue + [e];
          kept := kept + 1;
        } else {
          RecordDropLocked(e);
        }
      }
      assert pending[..|pending|] == pending;
    }

    /** Runs only before the public channel is exposed. */
    method PruneUnobservedLocked(keepOrdinary: bool)
      modifies this
      ensures Model() == Prune(old(Model()), keepOrdinary)
    {
      var pending := DrainEvents();
      SiftPending(pending + queue, keepOrdinary);
    }

    /** One critical section of publishLocked; `resumed` after its second wait. */
    method PublishSection(e: Event, ctxDone: bool, resumed: bool) returns (v: Verdict)
      modifies this
      ensures var r := if resumed then Resume(old(Model()), e, ctxDone) else Publish(old(Model()), e, ctxDone);
              Model() == r.0 && v == r.1
    {
      var critical := e.weight == Critical;
      if !critical && blocking && !closed && !terminal && !discardOrdinary && !aborted && !ctxDone && |events| + |queue| >= capacity {
        return Waiting;
      }
      if closed || terminal {
        return Refused;
      }
      if !resumed {
        if !critical && (discardOrdinary || ((ctxDone || aborted) && e.weight == Delta) || (!blocking && e.weight == Delta && |events| + |queue| >= capacity)) {
          DiscardLocked(e);
          return Dropped;
        }
        SpoolDroppedLocked();
        // A drop summary is itself critical and can fill the available capacity.
        if !critical && blocking && !discardOrdinary && !aborted && !ctxDone && |events| + |queue| >= capacity {
          return Waiting;
        }
      }
      if !critical && (discardOrdinary || ((ctxDone || aborted) && e.weight == Delta) || (!blocking && e.weight == Delta && |events| + |queue| >= capacity)) {
        DiscardLocked(e);
        return Dropped;
      }
      AppendLocked(e);
      return Accepted;
    }

    method DiscardLocked(e: Event)
      modifies this
      ensures Model() == Discard(old(Model()), e)
    {
      var stamped := StampNext(e);
      published := published + [stamped];
      RecordDropLocked(stamped);
    }

    method AppendLocked(e: Event)
      modifies this
      ensures Model() == Append(old(Model()), e)
    {
      var stamped := StampNext(e);
      published := published + [stamped];
      EnqueueLocked(stamped);
    }

    method PublishTerminal(e: Event) returns (ok: bool)
      modifies this
      ensures Model() == Terminate(old(Model()), e)
      ensures ok <==> !old(closed) && !old(terminal)
    {
      if closed || terminal {
        return false;
      }
      if !subscribed {
        PruneUnobservedLocked(!discardOrdinary);
      }
      SpoolDroppedLocked();
      terminal := true;
      AppendLocked(e);
      return true;
    }

    method SubscribeLocked()
      modifies this
      ensures Model() == Subscribe(old(Model()))
    {
      subscribed := true;
      if !closed {
        discardOrdinary := false;
        if pump == Off {
          pump := Resting;
        }
      }
    }

    method AwaitResultLocked()
      modifies this
      ensures Model() == AwaitResult(old(Model()))
    {
      if subscribed || closed || terminal {
        return;
      }
      discardOrdinary := true;
      PruneUnobservedLocked(false);
    }

    method CloseLocked()
      modifies this
      ensures Model() == Close(old(Model()))
    {
      if closed {
        return;
      }
      if !terminal {
        if !subscribed {
          PruneUnobservedLocked(!discardOrdinary);
        }
        SpoolDroppedLocked();
      }
      closed := true;
      if !subscribed {
        events := events + queue;
        queue := [];
        eventsClosed := true;
      } else if pump == Off {
        pump := Resting;
      }
    }

    /** One iteration of the pump goroutine, up to its next unlocked point. */
    method PumpOnce()
      modifies this
      ensures Model() == match old(pump)
                         case Resting => PumpTake(old(Model()))
                         case Holding => PumpSend(old(Model()))
                         case Handed => PumpRemove(old(Model()))
                         case _ => old(Model())
    {
      match pump {
        case Resting =>
          if |queue| == 0 {
            if closed {
              eventsClosed := true;
              pump := Gone;
            }
          } else {
            pump := Holding;
          }
        case Holding =>
          if |queue| > 0 && |events| < capacity + 1 {
            events := events + [queue[0]];
            pump := Handed;
          }
        case Handed =>
          if |queue| > 0 {
            queue := queue[1..];
            pump := Resting;
          }
        case _ =>
      }
    }
  }
}
