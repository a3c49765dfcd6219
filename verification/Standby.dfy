/**
  standby_runtime.go: the long-lived queue in front of a Thread. Inputs wait in the queue, are carried
  over from an execution that failed, or belong to the running execution, whose hub reports each of its
  messages once before it ends (Execution.dfy).
*/
module Standby {
  import opened Common

  type Id = string

  /** `restarted`: queued by an automatic restart, not by a sender. `carried`: prompts that go along. */
  datatype Message = Message(id: Id, carried: seq<Id>, retried: bool, restarted: bool)

  /** `owned`: everything the execution's hub has taken. */
  datatype Running = Running(message: Message, owned: set<Id>)

  /**
    The last two fields are history: ids whose Send returned nil, and ids whose last word has been said,
    delivered or failed. The failure of a run that puts a message back is not its last word.
  */
  datatype Standby = Standby(
    queue: seq<Message>, carry: seq<Message>, current: Option<Running>, cancelled: bool, ended: bool, maxPending: nat,
    accepted: set<Id>, reported: set<Id>)

  function NewStandby(maxPending: nat): Standby {
    Standby([], [], None, false, false, maxPending, {}, {})
  }

  function Ids(m: Message): set<Id> {
    {m.id} + set id | id in m.carried
  }

  function Held(ms: seq<Message>): set<Id> {
    if ms == [] then {} else Held(ms[..|ms| - 1]) + Ids(ms[|ms| - 1])
  }

  function Owned(s: Standby): set<Id> {
    if s.current.Some? then s.current.value.owned else {}
  }

  function PendingCount(s: Standby): nat {
    |s.carry| + |s.queue| + CarriedCount(s.queue)
  }

  function CarriedCount(ms: seq<Message>): nat {
    if ms == [] then 0 else CarriedCount(ms[..|ms| - 1]) + |ms[|ms| - 1].carried|
  }

  function Names(ms: seq<Message>): (r: seq<Id>)
    ensures |r| == |ms| && forall k | 0 <= k < |ms| :: r[k] == ms[k].id
  {
    seq(|ms|, k requires 0 <= k < |ms| => ms[k].id)
  }

  // ---------- sections ----------

  function Start(s: Standby, m: Message): Standby {
    var prompt := m.(carried := m.carried + Names(s.carry));
    s.(carry := [], current := Some(Running(prompt, Ids(prompt))), cancelled := false)
  }

  /** Where in the carry a message with this id waits, or its length. */
  function Find(ms: seq<Message>, id: Id): (k: nat)
    ensures k <= |ms| && (k < |ms| ==> ms[k].id == id)
    ensures forall j | 0 <= j < k :: ms[j].id != id
  {
    if ms == [] then 0 else if ms[0].id == id then 0 else Find(ms[1..], id) + 1
  }

  /** `Asks`: the running execution's hub is to decide, outside this lock. `Blocked` passes again after a change. */
  datatype Reply = Accepted | Refused | Blocked | Asks

  /** One pass of Send under the lock. */
  function SendReply(s: Standby, id: Id, options: bool): Reply {
    if s.ended then Refused
    else if id in Held(s.queue) || Find(s.carry, id) < |s.carry| then Accepted
    else if s.current.Some? && !s.cancelled && !options then Asks
    else if s.current.None? && s.queue == [] && s.carry != [] then Accepted
    else if PendingCount(s) < s.maxPending then Accepted
    else Blocked
  }

  function SendPlace(s: Standby, id: Id): Standby {
    var m := Message(id, [], false, false);
    var k := Find(s.carry, id);
    if id in Held(s.queue) then s
    else if k < |s.carry| then
      (if s.current.None? && s.queue == [] then s.(carry := s.carry[..k] + s.carry[k + 1..], queue := [s.carry[k]]) else s)
    else if s.current.None? && s.queue == [] && s.carry != [] then Start(s, m)
    else s.(queue := s.queue + [m])
  }

  /** A nil reply is a new promise, whatever was said about the id before. */
  function Promised(s: Standby, id: Id): Standby {
    s.(accepted := s.accepted + {id}, reported := s.reported - {id})
  }

  function Sent(s: Standby, id: Id, options: bool): Standby {
    if SendReply(s, id, options) == Accepted then Promised(SendPlace(s, id), id) else s
  }

  /**
    The hub took the message, has just finished, or rejects it for a reason of its own. That a taken one is
    settled by its execution is Execution.SendReportedBeforeDone; the exception, the id of an instruction
    that is never delivered, is HubPromises.SendIsSettled.
  */
  datatype HubAnswer = Took | Finished | Rejects

  function HubReply(answer: HubAnswer): Reply {
    match answer
    case Took => Accepted
    case Finished => Blocked
    case Rejects => Refused
  }

  /** Only an execution that has not completed has a hub that takes messages. */
  function HubAnswered(s: Standby, id: Id, answer: HubAnswer): Standby {
    if answer == Took && s.current.Some? then
      Promised(s.(current := Some(s.current.value.(owned := s.current.value.owned + {id}))), id)
    else s
  }

  /** The run loop's own start of the first queued message. */
  function Next(s: Standby): Standby {
    if s.current.None? && s.queue != [] && !s.ended then Start(s.(queue := s.queue[1..]), s.queue[0]) else s
  }

  function FailQueued(s: Standby): Standby {
    s.(queue := [], carry := [], reported := s.reported + Held(s.carry) + Held(s.queue) - Owned(s))
  }

  function Cancelled(s: Standby): Standby {
    FailQueued(s.(cancelled := true))
  }

  function Pending(ids: seq<Id>, retried: bool): (r: seq<Message>)
    ensures |r| == |ids| && forall k | 0 <= k < |ids| :: r[k] == Message(ids[k], [], retried, false)
  {
    seq(|ids|, k requires 0 <= k < |ids| => Message(ids[k], [], retried, false))
  }

  /** The messages to keep: those the failed run itself could not deliver, unless somebody cancelled. */
  function Kept(s: Standby, failed: bool, lost: seq<Id>): seq<Id> {
    if failed && !s.cancelled && !s.ended then lost else []
  }

  predicate Restarts(s: Standby, failed: bool, lost: seq<Id>, retryable: bool)
    requires s.current.Some?
  {
    Kept(s, failed, lost) != [] && retryable && !s.current.value.message.retried
  }

  /** The execution's reports are the last word, except on what is kept and what waits in its own right. */
  function Settled(s: Standby, kept: seq<Id>): set<Id> {
    s.reported + Owned(s) - (set id | id in kept) - Held(s.queue) - Held(s.carry)
  }

  /** completeExecution: `lost` are the outcomes that failed with the run, in admission order. */
  function Complete(s: Standby, failed: bool, lost: seq<Id>, retryable: bool): Standby {
    if s.current.None? then s
    else
      var kept := Kept(s, failed, lost);
      var done := s.(current := None, reported := Settled(s, kept));
      if Restarts(s, failed, lost, retryable) then done.(queue := [Message(kept[0], kept[1..], true, true)] + s.queue)
      else done.(carry := s.carry + Pending(kept, s.current.value.message.retried))
  }

  /** The run loop after the lifetime ended: with nothing running, everything still waiting is failed. */
  function Drain(s: Standby): Standby {
    if !s.ended then s else if s.current.None? then FailQueued(s) else s.(cancelled := true)
  }

  datatype Step =
    | Sending(id: Id, options: bool)
    | Answering(id: Id, answer: HubAnswer)
    | Advancing
    | Cancelling
    | Completing(failed: bool, lost: seq<Id>, retryable: bool)
    | Ending
    | Draining

  /** A hub reports only messages that it took. */
  predicate Possible(s: Standby, step: Step) {
    step.Completing? ==> forall id | id in step.lost :: id in Owned(s)
  }

  function Do(s: Standby, step: Step): Standby {
    match step
    case Sending(id, options) => Sent(s, id, options)
    case Answering(id, answer) => HubAnswered(s, id, answer)
    case Advancing => Next(s)
    case Cancelling => Cancelled(s)
    case Completing(failed, lost, retryable) => Complete(s, failed, lost, retryable)
    case Ending => s.(ended := true)
    case Draining => Drain(s)
  }

  function Run(s: Standby, steps: seq<Step>): Standby
    decreases |steps|
  {
    if steps == [] then s
    else
      var t := Run(s, steps[..|steps| - 1]);
      if Possible(t, steps[|steps| - 1]) then Do(t, steps[|steps| - 1]) else t
  }

  // ---------- nothing is lost ----------

  /** Queued, carried, or taken by the running execution. */
  function Waits(s: Standby): set<Id> {
    Held(s.queue) + Held(s.carry) + Owned(s)
  }

  /** Each accepted id waits, or its last word has been said, and not both. */
  predicate Safe(s: Standby) {
    s.accepted <= Waits(s) + s.reported && Waits(s) !! s.reported
  }

  /** Carried-over messages bring nobody along, and a restarted message is never restarted again. */
  predicate Plain(s: Standby) {
    && (forall k | 0 <= k < |s.carry| :: s.carry[k].carried == [])
    && (forall k | 0 <= k < |s.queue| && s.queue[k].restarted :: s.queue[k].retried)
    && (forall k | 0 <= k < |s.carry| :: !s.carry[k].restarted)
    && (s.current.Some? && s.current.value.message.restarted ==> s.current.value.message.retried)
  }

  predicate Inv(s: Standby) {
    Safe(s) && Plain(s)
  }

  lemma HeldSnoc(ms: seq<Message>, m: Message)
    ensures Held(ms + [m]) == Held(ms) + Ids(m)
  {
    assert (ms + [m])[..|ms|] == ms;
  }

  lemma {:induction false} HeldAppend(a: seq<Message>, b: seq<Message>)
    ensures Held(a + b) == Held(a) + Held(b)
    decreases |b|
  {
    if b == [] {
      assert a + b == a;
    } else {
      assert (a + b)[..|a + b| - 1] == a + b[..|b| - 1];
      HeldAppend(a, b[..|b| - 1]);
    }
  }

  lemma HeldOne(m: Message)
    ensures Held([m]) == Ids(m)
  {
    assert [m] == [] + [m];
    HeldSnoc([], m);
  }

  lemma HeldFirst(ms: seq<Message>)
    requires ms != []
    ensures Held(ms) == Ids(ms[0]) + Held(ms[1..])
  {
    assert ms == [ms[0]] + ms[1..];
    HeldAppend([ms[0]], ms[1..]);
    HeldOne(ms[0]);
  }

  lemma HeldAt(ms: seq<Message>, k: nat)
    requires k < |ms|
    ensures Held(ms) == Held(ms[..k] + ms[k + 1..]) + Ids(ms[k]) && Ids(ms[k]) <= Held(ms)
  {
    assert ms == ms[..k] + ms[k..];
    HeldAppend(ms[..k], ms[k..]);
    HeldFirst(ms[k..]);
    assert ms[k..][1..] == ms[k + 1..];
    HeldAppend(ms[..k], ms[k + 1..]);
  }

  lemma {:induction false} HeldNames(ms: seq<Message>)
    requires forall k | 0 <= k < |ms| :: ms[k].carried == []
    ensures Held(ms) == set id | id in Names(ms)
    decreases |ms|
  {
    if ms != [] {
      var front, last := ms[..|ms| - 1], ms[|ms| - 1];
      HeldNames(front);
      assert Names(ms) == Names(front) + [last.id];
    }
  }

  lemma StartHolds(s: Standby, m: Message)
    requires forall k | 0 <= k < |s.carry| :: s.carry[k].carried == []
    ensures Owned(Start(s, m)) == Ids(m) + Held(s.carry)
  {
    HeldNames(s.carry);
  }

  lemma {:induction false} HeldPending(ids: seq<Id>, retried: bool)
    ensures Held(Pending(ids, retried)) == set id | id in ids
  {
    HeldNames(Pending(ids, retried));
    assert Names(Pending(ids, retried)) == ids;
  }

  /** Nothing that waited is gone, and the new id waits too. */
  predicate Takes(s: Standby, t: Standby, id: Id) {
    && t.accepted == s.accepted && t.reported == s.reported
    && Waits(t) == Waits(s) + {id}
  }

  lemma SendWakesCarried(s: Standby, k: nat)
    requires Plain(s) && s.current.None? && s.queue == [] && k < |s.carry|
    ensures var t := s.(carry := s.carry[..k] + s.carry[k + 1..], queue := [s.carry[k]]); Plain(t) && Takes(s, t, s.carry[k].id)
  {
    HeldAt(s.carry, k);
    HeldOne(s.carry[k]);
  }

  lemma SendStarts(s: Standby, m: Message)
    requires Plain(s) && s.current.None? && s.queue == [] && !m.restarted && m.carried == []
    ensures Plain(Start(s, m)) && Takes(s, Start(s, m), m.id)
  {
    StartHolds(s, m);
    assert Ids(m) == {m.id};
  }

  lemma SendQueues(s: Standby, m: Message)
    requires Plain(s) && !m.restarted && m.carried == []
    ensures Plain(s.(queue := s.queue + [m])) && Takes(s, s.(queue := s.queue + [m]), m.id)
  {
    HeldSnoc(s.queue, m);
    assert Ids(m) == {m.id};
  }

  lemma SendPlaced(s: Standby, id: Id)
    requires Plain(s)
    ensures Plain(SendPlace(s, id)) && Takes(s, SendPlace(s, id), id)
  {
    var m, k := Message(id, [], false, false), Find(s.carry, id);
    if id !in Held(s.queue) {
      if k < |s.carry| {
        HeldAt(s.carry, k);
        if s.current.None? && s.queue == [] {
          SendWakesCarried(s, k);
        }
      } else if s.current.None? && s.queue == [] && s.carry != [] {
        SendStarts(s, m);
      } else {
        SendQueues(s, m);
      }
    }
  }

  lemma NextKeeps(s: Standby)
    requires Inv(s)
    ensures Inv(Next(s))
  {
    if s.current.None? && s.queue != [] && !s.ended {
      HeldFirst(s.queue);
      StartHolds(s.(queue := s.queue[1..]), s.queue[0]);
    }
  }

  lemma RestartHolds(kept: seq<Id>, queue: seq<Message>)
    requires kept != []
    ensures Held([Message(kept[0], kept[1..], true, true)] + queue) == (set id | id in kept) + Held(queue)
  {
    var m := Message(kept[0], kept[1..], true, true);
    HeldAppend([m], queue);
    HeldOne(m);
    assert kept == [kept[0]] + kept[1..];
    assert (set id | id in kept) == Ids(m);
  }

  lemma CompleteKeeps(s: Standby, failed: bool, lost: seq<Id>, retryable: bool)
    requires Inv(s)
    ensures Inv(Complete(s, failed, lost, retryable))
  {
    if s.current.Some? {
      var kept := Kept(s, failed, lost);
      var retried := s.current.value.message.retried;
      if Restarts(s, failed, lost, retryable) {
        RestartHolds(kept, s.queue);
      } else {
        HeldAppend(s.carry, Pending(kept, retried));
        HeldPending(kept, retried);
      }
    }
  }

  lemma StepKeepsInv(s: Standby, step: Step)
    requires Inv(s)
    ensures Inv(Do(s, step))
  {
    match step
    case Sending(id, _) => SendPlaced(s, id);
    case Advancing => NextKeeps(s);
    case Completing(failed, lost, retryable) => CompleteKeeps(s, failed, lost, retryable);
    case _ =>
  }

  /**
    In every reachable state each accepted id is queued, carried or owned by the running execution, or its
    last word has been said, and not both; so no step drops one that waits.
  */
  lemma {:induction false} NothingSilentlyLost(maxPending: nat, steps: seq<Step>)
    ensures Inv(Run(NewStandby(maxPending), steps))
    decreases |steps|
  {
    if steps != [] {
      NothingSilentlyLost(maxPending, steps[..|steps| - 1]);
      StepKeepsInv(Run(NewStandby(maxPending), steps[..|steps| - 1]), steps[|steps| - 1]);
    }
  }

  /** When the lifetime is over and drained, every accepted id has been reported. */
  lemma DrainedIsReported(maxPending: nat, steps: seq<Step>)
    requires var s := Run(NewStandby(maxPending), steps); s.ended && s.current.None?
    ensures var s := Drain(Run(NewStandby(maxPending), steps)); s.accepted <= s.reported && s.queue == [] && s.carry == []
  {
    NothingSilentlyLost(maxPending, steps);
  }

  /** No loss on completion either: what the run did not deliver waits again, unless it was cancelled. */
  lemma LostIsKept(s: Standby, lost: seq<Id>, retryable: bool, id: Id)
    requires s.current.Some? && !s.cancelled && !s.ended && id in lost
    ensures var t := Complete(s, true, lost, retryable); id in Held(t.queue) + Held(t.carry)
  {
    var retried := s.current.value.message.retried;
    if Restarts(s, true, lost, retryable) {
      var m := Message(lost[0], lost[1..], true, true);
      HeldAppend([m], s.queue);
      HeldOne(m);
      var k :| 0 <= k < |lost| && lost[k] == id;
      assert k > 0 ==> lost[1..][k - 1] == id;
    } else {
      HeldAppend(s.carry, Pending(lost, retried));
      HeldPending(lost, retried);
    }
  }

  /** An execution that was started automatically is not followed by another automatic start. */
  lemma NoSecondRestart(maxPending: nat, steps: seq<Step>, failed: bool, lost: seq<Id>, retryable: bool)
    requires var s := Run(NewStandby(maxPending), steps); s.current.Some? && s.current.value.message.restarted
    ensures var s := Run(NewStandby(maxPending), steps); Complete(s, failed, lost, retryable).queue == s.queue
  {
    NothingSilentlyLost(maxPending, steps);
  }

  // ---------- the loops ----------

  /** failQueuedLocked: every id that waits is reported, each once. */
  method ReportWaiting(carry: seq<Message>, queue: seq<Message>) returns (reports: seq<Id>)
    ensures (set id | id in reports) == Held(carry) + Held(queue)
    ensures forall i, j | 0 <= i < j < |reports| :: reports[i] != reports[j]
  {
    reports := [];
    var all := carry + queue;
    for k := 0 to |all|
      invariant (set id | id in reports) == Held(all[..k])
      invariant forall i, j | 0 <= i < j < |reports| :: reports[i] != reports[j]
    {
      assert all[..k + 1] == all[..k] + [all[k]];
      HeldSnoc(all[..k], all[k]);
      reports := ReportOne(reports, all[k]);
    }
    assert all[..|all|] == all;
    HeldAppend(carry, queue);
  }

  method ReportOne(before: seq<Id>, m: Message) returns (reports: seq<Id>)
    requires forall i, j | 0 <= i < j < |before| :: before[i] != before[j]
    ensures (set id | id in reports) == (set id | id in before) + Ids(m)
    ensures forall i, j | 0 <= i < j < |reports| :: reports[i] != reports[j]
  {
    reports := before;
    if m.id !in reports {
      reports := reports + [m.id];
    }
    for k := 0 to |m.carried|
      invariant forall id :: id in reports <==> id in before || id == m.id || id in m.carried[..k]
      invariant forall i, j | 0 <= i < j < |reports| :: reports[i] != reports[j]
    {
      assert m.carried[..k + 1] == m.carried[..k] + [m.carried[k]];
      if m.carried[k] !in reports {
        reports := reports + [m.carried[k]];
      }
    }
    assert m.carried[..|m.carried|] == m.carried;
  }

  /** Whether a queued message or one of its carried prompts has this id. */
  method Waiting(queue: seq<Message>, id: Id) returns (found: bool)
    ensures found <==> id in Held(queue)
  {
    for k := 0 to |queue|
      invariant id !in Held(queue[..k])
    {
      assert queue[..k + 1] == queue[..k] + [queue[k]];
      HeldSnoc(queue[..k], queue[k]);
      if queue[k].id == id || id in queue[k].carried {
        HeldAt(queue, k);
        return true;
      }
    }
    assert queue[..|queue|] == queue;
    return false;
  }

  lemma {:induction false} FindFirst(ms: seq<Message>, id: Id, k: nat)
    requires k <= |ms| && (forall j | 0 <= j < k :: ms[j].id != id) && (k < |ms| ==> ms[k].id == id)
    ensures Find(ms, id) == k
    decreases |ms|
  {
    if k > 0 {
      FindFirst(ms[1..], id, k - 1);
    }
  }

  method Search(ms: seq<Message>, id: Id) returns (k: nat)
    ensures k == Find(ms, id)
  {
    k := 0;
    while k < |ms| && ms[k].id != id
      invariant k <= |ms| && forall j | 0 <= j < k :: ms[j].id != id
    {
      k := k + 1;
    }
    FindFirst(ms, id, k);
  }

  class StandbyStream {
    var queue: seq<Message>
    var carry: seq<Message>
    var current: Option<Running>
    var cancelled: bool
    var ended: bool
    const maxPending: nat
    ghost var accepted: set<Id>
    ghost var reported: set<Id>

    ghost function View(): Standby
      reads this
    {
      Standby(queue, carry, current, cancelled, ended, maxPending, accepted, reported)
    }

    constructor (maxPending: nat)
      ensures View() == NewStandby(maxPending)
    {
      this.maxPending, queue, carry, current, cancelled, ended := maxPending, [], [], None, false, false;
      accepted, reported := {}, {};
    }

    method StartExecutionLocked(m: Message)
      modifies this`carry, this`current, this`cancelled
      ensures View() == Start(old(View()), m)
    {
      var prompt := m.(carried := m.carried + Names(carry));
      carry, current, cancelled := [], Some(Running(prompt, Ids(prompt))), false;
    }

    method PendingTotal() returns (n: nat)
      ensures n == PendingCount(View())
    {
      n := |carry| + |queue|;
      for k := 0 to |queue|
        invariant n == |carry| + |queue| + CarriedCount(queue[..k])
      {
        assert queue[..k + 1][..k] == queue[..k];
        n := n + |queue[k].carried|;
      }
      assert queue[..|queue|] == queue;
    }

    /** One pass under the lock. */
    method Send(id: Id, options: bool) returns (r: Reply)
      modifies this
      ensures r == SendReply(old(View()), id, options)
      ensures View() == Sent(old(View()), id, options)
    {
      if ended { return Refused; }
      var dup := Waiting(queue, id);
      var k := Search(carry, id);
      if !dup && k == |carry| {
        if current.Some? && !cancelled && !options { return Asks; }
        if current.Some? || queue != [] || carry == [] {
          var n := PendingTotal();
          if n >= maxPending { return Blocked; }
        }
      }
      accepted, reported := accepted + {id}, reported - {id};
      if dup { return Accepted; }
      if k < |carry| {
        if current.None? && queue == [] {
          queue, carry := [carry[k]], carry[..k] + carry[k + 1..];
        }
      } else if current.None? && queue == [] && carry != [] {
        StartExecutionLocked(Message(id, [], false, false));
      } else {
        queue := queue + [Message(id, [], false, false)];
      }
      return Accepted;
    }

    /** The running execution's hub has decided. */
    method HubAnswers(id: Id, answer: HubAnswer) returns (r: Reply)
      requires answer == Took ==> current.Some?
      modifies this`current, this`accepted, this`reported
      ensures r == HubReply(answer) && View() == HubAnswered(old(View()), id, answer)
    {
      match answer
      case Took =>
        current := Some(current.value.(owned := current.value.owned + {id}));
        accepted, reported := accepted + {id}, reported - {id};
        return Accepted;
      case Finished => return Blocked;
      case Rejects => return Refused;
    }

    method FailQueuedLocked() returns (reports: seq<Id>)
      modifies this`queue, this`carry, this`reported
      ensures View() == FailQueued(old(View()))
      ensures (set id | id in reports) == Held(old(carry)) + Held(old(queue))
      ensures forall i, j | 0 <= i < j < |reports| :: reports[i] != reports[j]
    {
      reports := ReportWaiting(carry, queue);
      reported := reported + Held(carry) + Held(queue) - Owned(View());
      queue, carry := [], [];
    }

    method Cancel()
      modifies this`cancelled, this`queue, this`carry, this`reported
      ensures View() == Cancelled(old(View()))
    {
      cancelled := true;
      var reports := FailQueuedLocked();
    }

    method CompleteExecution(failed: bool, lost: seq<Id>, retryable: bool)
      requires current.Some?
      modifies this`queue, this`carry, this`current, this`reported
      ensures View() == Complete(old(View()), failed, lost, retryable)
    {
      var retried := current.value.message.retried;
      reported := Settled(View(), Kept(View(), failed, lost));
      current := None;
      if failed && !cancelled && !ended {
        if retryable && !retried && |lost| > 0 {
          queue := [Message(lost[0], lost[1..], true, true)] + queue;
        } else {
          carry := carry + Pending(lost, retried);
        }
      } else {
        assert carry + Pending([], retried) == carry;
      }
    }
  }
}
