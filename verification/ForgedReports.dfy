/**
  event_broker.go when a caller's loss report bears the broker's own source. Nothing forbids it, so the
  accounts are kept here without that restriction: every report, the broker's or a caller's, stands for
  the number of events it claims.
*/
module ForgedReports {
  import opened Common
  import opened EventLog
  import opened EventBroker

  /** Events, with each report counted as what it reports. */
  function Tally(s: seq<Event>): nat {
    if s == [] then 0 else Tally(s[..|s| - 1]) + Worth(s[|s| - 1])
  }

  function Worth(e: Event): nat {
    if IsMarker(e) then e.report.value.count else 1
  }

  /** How many of the events are reports under the broker's name. */
  function ReportNumber(s: seq<Event>): nat {
    if s == [] then 0 else ReportNumber(s[..|s| - 1]) + if IsMarker(s[|s| - 1]) then 1 else 0
  }

  lemma {:induction false} TallySplits(s: seq<Event>)
    ensures Tally(s) == HostCount(s) + ReportedCount(s) && |s| == HostCount(s) + ReportNumber(s)
    decreases |s|
  {
    if s != [] {
      TallySplits(s[..|s| - 1]);
    }
  }

  lemma TallySnoc(s: seq<Event>, e: Event)
    ensures Tally(s + [e]) == Tally(s) + Worth(e)
  {
    assert (s + [e])[..|s|] == s;
  }

  lemma SiftOneTallies(s: Sift, e: Event, keepOrdinary: bool, capacity: nat)
    ensures var t := SiftOne(s, e, keepOrdinary, capacity); Tally(t.queue) + t.dropped.count == Tally(s.queue) + s.dropped.count + Worth(e)
  {
    TallySnoc(s.queue, e);
  }

  lemma {:induction false} SiftTallies(pending: seq<Event>, d: Aggregate, keepOrdinary: bool, capacity: nat)
    ensures var s := SiftAll(pending, d, keepOrdinary, capacity); Tally(s.queue) + s.dropped.count == Tally(pending) + d.count
    decreases |pending|
  {
    if pending != [] {
      var n := |pending| - 1;
      var s := SiftAll(pending[..n], d, keepOrdinary, capacity);
      SiftTallies(pending[..n], d, keepOrdinary, capacity);
      SiftOneTallies(s, pending[n], keepOrdinary, capacity);
      assert SiftAll(pending, d, keepOrdinary, capacity) == SiftOne(s, pending[n], keepOrdinary, capacity);
    }
  }

  /** A loss report is a critical event, whoever makes it; so is the terminal event. */
  predicate Plausible(op: Op) {
    && (op.Publishing? || op.Resuming? ==> IsMarker(op.event) ==> op.event.weight == Critical)
    && (op.Terminating? ==> op.event.weight == Critical)
  }

  predicate Tallied(b: Broker) {
    Tally(b.published) == Tally(Log(b)) + b.dropped.count
  }

  predicate Ledger(b: Broker) {
    Shape(b) && Tallied(b)
  }

  lemma AppendTallies(b: Broker, e: Event)
    requires Ledger(b) && !b.sealed
    ensures Ledger(EventBroker.Append(b, e))
  {
    AppendShape(b, e);
    AppendLog(b, e);
    TallySnoc(b.published, Stamp(b, e));
    TallySnoc(Log(b), Stamp(b, e));
  }

  lemma DiscardTallies(b: Broker, e: Event)
    requires Ledger(b) && !b.terminal && !IsMarker(e)
    ensures Ledger(Discard(b, e))
  {
    assert Log(Discard(b, e)) == Log(b);
    TallySnoc(b.published, Stamp(b, e));
  }

  lemma SpoolTallies(b: Broker)
    requires Ledger(b) && !b.sealed
    ensures Ledger(SpoolDropped(b))
  {
    SpoolShape(b);
    TallySnoc(Log(b), Marker(b.dropped, b.sequence + 1));
  }

  lemma PruneTallies(b: Broker, keepOrdinary: bool)
    requires Ledger(b) && !b.sealed && !b.subscribed && !b.terminal
    ensures Ledger(Prune(b, keepOrdinary))
  {
    assert Log(b) == b.channel + b.queue;
    assert Log(Prune(b, keepOrdinary)) == Prune(b, keepOrdinary).queue;
    SiftTallies(Log(b), b.dropped, keepOrdinary, b.capacity);
  }

  lemma ResumeTallies(b: Broker, e: Event, ctxDone: bool)
    requires Ledger(b) && (IsMarker(e) ==> e.weight == Critical)
    ensures Ledger(Resume(b, e, ctxDone).0)
  {
    if MayProceed(b, e, ctxDone) && !b.closed && !b.terminal {
      if MustDrop(b, e, ctxDone) {
        DiscardTallies(b, e);
      } else {
        AppendTallies(b, e);
      }
    }
  }

  lemma PublishTallies(b: Broker, e: Event, ctxDone: bool)
    requires Ledger(b) && (IsMarker(e) ==> e.weight == Critical)
    ensures Ledger(Publish(b, e, ctxDone).0)
  {
    if MayProceed(b, e, ctxDone) && !b.closed && !b.terminal {
      if MustDrop(b, e, ctxDone) {
        DiscardTallies(b, e);
      } else {
        SpoolTallies(b);
        ResumeTallies(SpoolDropped(b), e, ctxDone);
      }
    }
  }

  lemma FlushedTallies(b: Broker)
    requires Ledger(b) && !b.closed
    ensures Ledger(Flushed(b)) && Flushed(b).dropped.count == 0
  {
    FlushedShape(b);
    if !b.terminal {
      if !b.subscribed {
        PruneTallies(b, !b.discardOrdinary);
      }
      SpoolTallies(if b.subscribed then b else Prune(b, !b.discardOrdinary));
    }
  }

  lemma TerminateTallies(b: Broker, e: Event)
    requires Ledger(b)
    ensures Ledger(Terminate(b, e))
  {
    if !b.closed && !b.terminal {
      FlushedTallies(b);
      var settled := Flushed(b).(terminal := true);
      assert Log(settled) == Log(Flushed(b));
      AppendTallies(settled, e);
    }
  }

  lemma CloseTallies(b: Broker)
    requires Ledger(b)
    ensures Ledger(Close(b))
  {
    if !b.closed {
      FlushedTallies(b);
      var settled := Flushed(b).(closed := true);
      assert Log(settled) == Log(Flushed(b));
      CloseLog(settled);
    }
  }

  lemma AwaitTallies(b: Broker)
    requires Ledger(b)
    ensures Ledger(AwaitResult(b))
  {
    if !b.subscribed && !b.closed && !b.terminal {
      assert Log(b.(discardOrdinary := true)) == Log(b);
      PruneTallies(b.(discardOrdinary := true), false);
    }
  }

  lemma StepTallies(b: Broker, op: Op)
    requires Ledger(b) && Plausible(op)
    ensures Ledger(Step(b, op))
  {
    match op
    case Publishing(e, ctxDone) => PublishTallies(b, e, ctxDone);
    case Resuming(e, ctxDone) => ResumeTallies(b, e, ctxDone);
    case Terminating(e) => TerminateTallies(b, e);
    case AwaitingResult => AwaitTallies(b);
    case Closing => CloseTallies(b);
    case _ => MovesKeepLog(b, op);
  }

  lemma {:induction false} RunTallies(b: Broker, ops: seq<Op>)
    requires Ledger(b) && forall op | op in ops :: Plausible(op)
    ensures Ledger(EventBroker.Run(b, ops))
    decreases |ops|
  {
    if ops != [] {
      StepTallies(b, ops[0]);
      RunTallies(Step(b, ops[0]), ops[1..]);
    }
  }

  /**
    Whoever makes loss reports, once the terminal event is published: the log balances the published
    events exactly if the reports that callers published under the broker's name claim, in sum, as many
    events as there are such reports. With none of them it always does.
  */
  lemma CountsBalanceExactly(capacity: nat, blocking: bool, ops: seq<Op>)
    requires capacity > 0 && forall op | op in ops :: Plausible(op)
    requires EventBroker.Run(NewBroker(capacity, blocking), ops).terminal
    ensures var b := EventBroker.Run(NewBroker(capacity, blocking), ops);
            |b.published| == HostCount(Log(b)) + ReportedCount(Log(b)) <==> ReportedCount(b.published) == ReportNumber(b.published)
  {
    var b0 := NewBroker(capacity, blocking);
    assert Log(b0) == [];
    RunTallies(b0, ops);
    var b := EventBroker.Run(b0, ops);
    TallySplits(b.published);
    TallySplits(Log(b));
  }

  lemma PublishesForged(b: Broker, e: Event)
    requires Ledger(b) && !b.closed && !b.terminal && e.weight == Critical && b.dropped.count == 0
    ensures var c := Step(b, Publishing(e, false)); Ledger(c) && !c.closed && !c.terminal && c.published == b.published + [Stamp(b, e)]
  {
    StepTallies(b, Publishing(e, false));
  }

  lemma RunOfTwo(b: Broker, x: Op, y: Op)
    ensures EventBroker.Run(b, [x, y]) == Step(Step(b, x), y)
  {
    assert [x, y][1..] == [y] && [y][1..] == [];
    assert EventBroker.Run(Step(b, x), [y]) == EventBroker.Run(Step(Step(b, x), y), []);
  }

  lemma ReportsOfTwo(forged: Event, done: Event)
    requires IsMarker(forged) && !IsMarker(done)
    ensures ReportedCount([forged, done]) == forged.report.value.count && ReportNumber([forged, done]) == 1
  {
    assert [forged, done][..1] == [forged] && [forged][..0] == [];
    assert ReportedCount([]) == 0 && ReportNumber([]) == 0;
  }

  lemma ForgedRun(capacity: nat, blocking: bool, forged: Event, done: Event) returns (first: Event, last: Event)
    requires capacity > 0 && forged.weight == Critical
    ensures var b := EventBroker.Run(NewBroker(capacity, blocking), [Publishing(forged, false), Terminating(done)]);
            b.terminal && b.published == [first, last]
    ensures first == forged.(number := first.number) && last == done.(number := last.number)
  {
    var b0 := NewBroker(capacity, blocking);
    assert Log(b0) == [];
    PublishesForged(b0, forged);
    var b1 := Step(b0, Publishing(forged, false));
    TerminateEnds(b1, done);
    RunOfTwo(b0, Publishing(forged, false), Terminating(done));
    first, last := Stamp(b0, forged), Stamp(Flushed(b1), done);
  }

  /** A single report of any other number than one breaks the counts. */
  lemma ForgedMarkerBreaksCounts(capacity: nat, blocking: bool, forged: Event, done: Event)
    requires capacity > 0 && IsMarker(forged) && forged.weight == Critical && forged.report.value.count != 1
    requires !IsMarker(done) && done.weight == Critical
    ensures var b := EventBroker.Run(NewBroker(capacity, blocking), [Publishing(forged, false), Terminating(done)]);
            b.terminal && |b.published| != HostCount(Log(b)) + ReportedCount(Log(b))
  {
    var first, last := ForgedRun(capacity, blocking, forged, done);
    ReportsOfTwo(first, last);
    CountsBalanceExactly(capacity, blocking, [Publishing(forged, false), Terminating(done)]);
  }
}
