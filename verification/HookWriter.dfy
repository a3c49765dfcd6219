/**
  claude/messages.go: the session that owns claimed messages until the write of their frame settles.
  One writer goroutine takes jobs in order; enqueueing, finishing and cancellation happen at any time.
  Each function is one locked section of the session, or one of the writer's steps between them.
*/
module HookWriter {

  type Id = string

  datatype Job = Job(items: seq<Id>, closes: bool)

  /** `maybe`: the frame was written in part; `requeue`: the session was not cancelled. */
  datatype Ack = Ack(id: Id, delivered: bool, requeue: bool, maybe: bool)

  /** Where the writer is: between jobs, holding one, holding one whose attempt is over, about to record a first failure, gone. */
  datatype Writer = Free | Took(job: Job, sawEnd: bool) | Tried(job: Job, ok: bool, maybe: bool) | Failing | Exited

  /**
    `refused`: jobs that came too late and whose caller, outside the lock, has not acknowledged them yet.
    The last five fields are history: every job submitted, accepted, completed, written, and every acknowledgement.
  */
  datatype Session = Session(
    jobs: seq<Job>, ended: bool, writing: bool, cancelled: bool, failed: bool, writer: Writer, refused: seq<Job>,
    submitted: seq<Job>, accepted: seq<Job>, completed: seq<Job>, written: seq<Job>, acks: seq<Ack>)

  const NEW := Session([], false, false, false, false, Free, [], [], [], [], [], [])

  /** complete: one acknowledgement for each item, in order; the context is looked at before each, and was live before the first `live`. */
  function Completion(items: seq<Id>, ok: bool, maybe: bool, live: nat): (r: seq<Ack>)
    ensures |r| == |items| && forall k | 0 <= k < |items| :: r[k].id == items[k] && r[k].delivered == ok
  {
    seq(|items|, k requires 0 <= k < |items| => Ack(items[k], ok, !ok && k < live, !ok && maybe))
  }

  /** Acknowledges the items; a cancellation before the end comes in front of item `live`. */
  function Acknowledge(s: Session, items: seq<Id>, ok: bool, maybe: bool, live: nat): Session {
    s.(acks := s.acks + Completion(items, ok, maybe, if s.cancelled then 0 else live),
       cancelled := s.cancelled || live < |items|)
  }

  function Submit(s: Session, job: Job): Session {
    if s.ended then s.(submitted := s.submitted + [job], refused := s.refused + [job])
    else s.(submitted := s.submitted + [job], accepted := s.accepted + [job], jobs := s.jobs + [job])
  }

  /** A caller whose job was refused acknowledges its items. */
  function Refuse(s: Session, k: nat, live: nat): Session {
    if k >= |s.refused| then s
    else Acknowledge(s, s.refused[k].items, false, false, live).(refused := s.refused[..k] + s.refused[k + 1..])
  }

  function Take(s: Session): Session {
    if s.writer != Free then s
    else if s.jobs == [] then (if s.ended then s.(writer := Exited) else s)
    else s.(writer := Took(s.jobs[0], s.ended), jobs := s.jobs[1..], writing := !s.ended && !s.failed)
  }

  /** Whether the writer touches the pipe at all: no earlier failure, no end seen, no cancellation. */
  predicate Attempts(s: Session)
    requires s.writer.Took?
  {
    !s.failed && !s.writer.sawEnd && !s.cancelled
  }

  /** `ok` and `partly` are the pipe's answer, if it is asked. Closing stdin is never partial. */
  function Try(s: Session, ok: bool, partly: bool): Session {
    if !s.writer.Took? then s
    else
      var job := s.writer.job;
      var done := Attempts(s) && ok;
      s.(writer := Tried(job, done, Attempts(s) && !ok && partly && !job.closes), writing := false,
         written := if done then s.written + [job] else s.written)
  }

  function Complete(s: Session, live: nat): Session {
    if !s.writer.Tried? then s
    else
      var w := s.writer;
      Acknowledge(s, w.job.items, w.ok, w.maybe, live).(completed := s.completed + [w.job], writer := if w.ok then Free else Failing)
  }

  /** The first error sticks. */
  function Record(s: Session): Session {
    if s.writer == Failing then s.(failed := true, writer := Free) else s
  }

  function End(s: Session): Session {
    s.(ended := true)
  }

  datatype Step =
    | Enqueuing(job: Job) | Refusing(k: nat, live: nat)
    | Taking | Trying(ok: bool, partly: bool) | Completing(live: nat) | Recording
    | Finishing | Cancelling

  function Do(s: Session, step: Step): Session {
    match step
    case Enqueuing(job) => Submit(s, job)
    case Refusing(k, live) => Refuse(s, k, live)
    case Taking => Take(s)
    case Trying(ok, partly) => Try(s, ok, partly)
    case Completing(live) => Complete(s, live)
    case Recording => Record(s)
    case Finishing => End(s)
    case Cancelling => s.(cancelled := true)
  }

  function Run(s: Session, steps: seq<Step>): Session {
    if steps == [] then s else Do(Run(s, steps[..|steps| - 1]), steps[|steps| - 1])
  }

  // ---------- accounts, for one id ----------

  function Times(items: seq<Id>, id: Id): nat {
    if items == [] then 0 else Times(items[..|items| - 1], id) + if items[|items| - 1] == id then 1 else 0
  }

  function Held(jobs: seq<Job>, id: Id): nat {
    if jobs == [] then 0 else Held(jobs[..|jobs| - 1], id) + Times(jobs[|jobs| - 1].items, id)
  }

  function Acked(acks: seq<Ack>, id: Id): nat {
    if acks == [] then 0 else Acked(acks[..|acks| - 1], id) + if acks[|acks| - 1].id == id then 1 else 0
  }

  function Delivered(acks: seq<Ack>, id: Id): nat {
    if acks == [] then 0
    else Delivered(acks[..|acks| - 1], id) + if acks[|acks| - 1].id == id && acks[|acks| - 1].delivered then 1 else 0
  }

  function InHand(s: Session): seq<Job> {
    if s.writer.Took? || s.writer.Tried? then [s.writer.job] else []
  }

  /** Nothing has failed yet. */
  predicate Healthy(s: Session) {
    !s.failed && s.writer != Failing && (s.writer.Tried? ==> s.writer.ok)
  }

  /** Jobs leave in the order they came, and the ones written are the first of them. */
  ghost predicate Fifo(s: Session) {
    && s.accepted == s.completed + InHand(s) + s.jobs
    && s.written <= s.completed + (if s.writer.Tried? && s.writer.ok then [s.writer.job] else [])
    && (Healthy(s) ==> s.written == s.completed + (if s.writer.Tried? then [s.writer.job] else []))
  }

  predicate Shape(s: Session) {
    && (s.writer == Exited ==> s.ended && s.jobs == [])
    && (s.failed ==> !(s.writer.Tried? && s.writer.ok))
  }

  /** Every item submitted is acknowledged, in the writer's hand, queued or in a refused job, and is so once. */
  predicate Accounted(s: Session, id: Id) {
    && Held(s.submitted, id) == Acked(s.acks, id) + Held(InHand(s), id) + Held(s.jobs, id) + Held(s.refused, id)
    && Delivered(s.acks, id) + (if s.writer.Tried? && s.writer.ok then Times(s.writer.job.items, id) else 0) == Held(s.written, id)
  }

  ghost predicate Inv(s: Session, id: Id) {
    Fifo(s) && Accounted(s, id) && Shape(s)
  }

  lemma HeldSnoc(jobs: seq<Job>, job: Job, id: Id)
    ensures Held(jobs + [job], id) == Held(jobs, id) + Times(job.items, id)
  {
    assert (jobs + [job])[..|jobs|] == jobs;
  }

  lemma {:induction false} HeldCons(job: Job, jobs: seq<Job>, id: Id)
    ensures Held([job] + jobs, id) == Times(job.items, id) + Held(jobs, id)
    decreases |jobs|
  {
    if jobs == [] {
      assert [job] + jobs == [] + [job];
      HeldSnoc([], job, id);
    } else {
      var n := |jobs| - 1;
      assert ([job] + jobs)[..|jobs|] == [job] + jobs[..n];
      HeldCons(job, jobs[..n], id);
    }
  }

  lemma HeldOne(job: Job, id: Id)
    ensures Held([job], id) == Times(job.items, id) && Held([], id) == 0
  {
    assert [job] == [] + [job];
    HeldSnoc([], job, id);
  }

  lemma {:induction false} AckedAppend(acks: seq<Ack>, more: seq<Ack>, id: Id)
    ensures Acked(acks + more, id) == Acked(acks, id) + Acked(more, id)
    ensures Delivered(acks + more, id) == Delivered(acks, id) + Delivered(more, id)
    decreases |more|
  {
    if more == [] {
      assert acks + more == acks;
    } else {
      assert (acks + more)[..|acks + more| - 1] == acks + more[..|more| - 1];
      AckedAppend(acks, more[..|more| - 1], id);
    }
  }

  lemma {:induction false} CompletionAcks(items: seq<Id>, ok: bool, maybe: bool, live: nat, id: Id)
    ensures var r := Completion(items, ok, maybe, live);
            Acked(r, id) == Times(items, id) && Delivered(r, id) == if ok then Times(items, id) else 0
    decreases |items|
  {
    if items != [] {
      var n := |items| - 1;
      CompletionAcks(items[..n], ok, maybe, live, id);
      assert Completion(items, ok, maybe, live)[..n] == Completion(items[..n], ok, maybe, live);
    }
  }

  lemma Acknowledges(s: Session, items: seq<Id>, ok: bool, maybe: bool, live: nat, id: Id)
    ensures var after := Acknowledge(s, items, ok, maybe, live).acks;
            && Acked(after, id) == Acked(s.acks, id) + Times(items, id)
            && Delivered(after, id) == Delivered(s.acks, id) + if ok then Times(items, id) else 0
  {
    var lasting := if s.cancelled then 0 else live;
    AckedAppend(s.acks, Completion(items, ok, maybe, lasting), id);
    CompletionAcks(items, ok, maybe, lasting, id);
  }

  lemma SubmitAccounts(s: Session, job: Job, id: Id)
    requires Accounted(s, id)
    ensures Accounted(Submit(s, job), id)
  {
    HeldSnoc(s.submitted, job, id);
    HeldSnoc(s.jobs, job, id);
    HeldSnoc(s.refused, job, id);
  }

  lemma {:induction false} HeldAppend(a: seq<Job>, b: seq<Job>, id: Id)
    ensures Held(a + b, id) == Held(a, id) + Held(b, id)
    decreases |b|
  {
    if b == [] {
      assert a + b == a;
    } else {
      assert (a + b)[..|a + b| - 1] == a + b[..|b| - 1];
      HeldAppend(a, b[..|b| - 1], id);
    }
  }

  lemma HeldWithout(jobs: seq<Job>, k: nat, id: Id)
    requires k < |jobs|
    ensures Held(jobs, id) == Held(jobs[..k] + jobs[k + 1..], id) + Times(jobs[k].items, id)
  {
    assert jobs == jobs[..k] + ([jobs[k]] + jobs[k + 1..]);
    HeldAppend(jobs[..k], [jobs[k]] + jobs[k + 1..], id);
    HeldCons(jobs[k], jobs[k + 1..], id);
    HeldAppend(jobs[..k], jobs[k + 1..], id);
  }

  lemma RefuseAccounts(s: Session, k: nat, live: nat, id: Id)
    requires Accounted(s, id)
    ensures Accounted(Refuse(s, k, live), id)
  {
    if k < |s.refused| {
      HeldWithout(s.refused, k, id);
      Acknowledges(s, s.refused[k].items, false, false, live, id);
    }
  }

  lemma SubmitFifo(s: Session, job: Job)
    requires Fifo(s)
    ensures Fifo(Submit(s, job))
  {
    assert s.completed + InHand(s) + s.jobs + [job] == s.completed + InHand(s) + (s.jobs + [job]);
  }

  lemma TakeAccounts(s: Session, id: Id)
    requires Accounted(s, id)
    ensures Accounted(Take(s), id)
  {
    if s.writer == Free && s.jobs != [] {
      assert s.jobs == [s.jobs[0]] + s.jobs[1..];
      HeldCons(s.jobs[0], s.jobs[1..], id);
      HeldOne(s.jobs[0], id);
    }
  }

  lemma TakeFifo(s: Session)
    requires Fifo(s)
    ensures Fifo(Take(s))
  {
    if s.writer == Free && s.jobs != [] {
      assert s.completed + [] + s.jobs == s.completed + [s.jobs[0]] + s.jobs[1..];
    }
  }

  lemma TryAccounts(s: Session, ok: bool, partly: bool, id: Id)
    requires Accounted(s, id)
    ensures Accounted(Try(s, ok, partly), id)
  {
    if s.writer.Took? {
      HeldSnoc(s.written, s.writer.job, id);
    }
  }

  lemma CompleteAccounts(s: Session, live: nat, id: Id)
    requires Accounted(s, id)
    ensures Accounted(Complete(s, live), id)
  {
    if s.writer.Tried? {
      var w := s.writer;
      Acknowledges(s, w.job.items, w.ok, w.maybe, live, id);
      HeldOne(w.job, id);
    }
  }

  lemma CompleteFifo(s: Session, live: nat)
    requires Fifo(s) && Shape(s)
    ensures Fifo(Complete(s, live)) && Shape(Complete(s, live))
  {
    if s.writer.Tried? {
      assert s.completed + [s.writer.job] + s.jobs == (s.completed + [s.writer.job]) + [] + s.jobs;
    }
  }

  lemma TryFifo(s: Session, ok: bool, partly: bool)
    requires Fifo(s)
    ensures Fifo(Try(s, ok, partly))
  {
  }

  lemma StepAccounts(s: Session, step: Step, id: Id)
    requires Accounted(s, id)
    ensures Accounted(Do(s, step), id)
  {
    match step
    case Enqueuing(job) => SubmitAccounts(s, job, id);
    case Refusing(k, live) => RefuseAccounts(s, k, live, id);
    case Taking => TakeAccounts(s, id);
    case Trying(ok, partly) => TryAccounts(s, ok, partly, id);
    case Completing(live) => CompleteAccounts(s, live, id);
    case _ =>
  }

  lemma StepFifo(s: Session, step: Step)
    requires Fifo(s) && Shape(s)
    ensures Fifo(Do(s, step))
  {
    match step
    case Enqueuing(job) => SubmitFifo(s, job);
    case Taking => TakeFifo(s);
    case Trying(ok, partly) => TryFifo(s, ok, partly);
    case Completing(live) => CompleteFifo(s, live);
    case _ =>
  }

  lemma StepShape(s: Session, step: Step)
    requires Shape(s)
    ensures Shape(Do(s, step))
  {
  }

  lemma StepKeepsInv(s: Session, step: Step, id: Id)
    requires Inv(s, id)
    ensures Inv(Do(s, step), id)
  {
    StepAccounts(s, step, id);
    StepFifo(s, step);
    StepShape(s, step);
  }

  lemma {:induction false} RunKeepsInv(steps: seq<Step>, id: Id)
    ensures Inv(Run(NEW, steps), id)
    decreases |steps|
  {
    if steps != [] {
      RunKeepsInv(steps[..|steps| - 1], id);
      StepKeepsInv(Run(NEW, steps[..|steps| - 1]), steps[|steps| - 1], id);
    }
  }

  /**
    For every id and every interleaving: the jobs written are a prefix of the jobs accepted; when the
    writer is gone, which is when finish returns, all accepted jobs are completed, and the id has been
    acknowledged exactly as often as it was submitted, but for refused jobs whose enqueue has not returned
    yet, and as delivered exactly as often as it stands in a written job.
  */
  lemma EveryItemAcknowledged(steps: seq<Step>, id: Id)
    ensures var s := Run(NEW, steps);
            && s.written <= s.accepted
            && (s.writer == Exited ==>
                  && Acked(s.acks, id) + Held(s.refused, id) == Held(s.submitted, id)
                  && Delivered(s.acks, id) == Held(s.written, id) && s.completed == s.accepted)
            && (s.writer == Exited && s.refused == [] ==> Acked(s.acks, id) == Held(s.submitted, id))
  {
    RunKeepsInv(steps, id);
  }

  // ---------- the session object ----------

  class MessageSession {
    var jobs: seq<Job>
    var ended: bool
    var writing: bool
    var cancelled: bool
    var failed: bool
    var writer: Writer
    var refused: seq<Job>
    var submitted: seq<Job>
    var accepted: seq<Job>
    var completed: seq<Job>
    var written: seq<Job>
    var acks: seq<Ack>

    function View(): Session
      reads this
    {
      Session(jobs, ended, writing, cancelled, failed, writer, refused, submitted, accepted, completed, written, acks)
    }

    constructor ()
      ensures View() == NEW
    {
      jobs, ended, writing, cancelled, failed, writer, refused := [], false, false, false, false, Free, [];
      submitted, accepted, completed, written, acks := [], [], [], [], [];
    }

    /** The context may be cancelled before any item; `live` says before which. */
    method CompleteItems(items: seq<Id>, ok: bool, maybe: bool, live: nat)
      modifies this`acks, this`cancelled
      ensures View() == Acknowledge(old(View()), items, ok, maybe, live)
    {
      ghost var all := Completion(items, ok, maybe, if cancelled then 0 else live);
      for k := 0 to |items|
        invariant acks == old(acks) + all[..k]
        invariant cancelled <==> old(cancelled) || live < k
      {
        if k == live { cancelled := true; }
        var requeue := !ok && !cancelled;
        acks := acks + [Ack(items[k], ok, requeue, !ok && maybe)];
        assert all[..k + 1] == all[..k] + [all[k]];
      }
      assert all[..|items|] == all;
    }

    /** The locked part of enqueue. */
    method EnqueueLocked(job: Job) returns (late: bool)
      modifies this`jobs, this`submitted, this`accepted, this`refused
      ensures View() == Submit(old(View()), job) && late == old(ended)
      ensures late ==> refused == old(refused) + [job]
    {
      submitted := submitted + [job];
      if ended {
        refused := refused + [job];
        return true;
      }
      accepted, jobs := accepted + [job], jobs + [job];
      return false;
    }

    method CompleteRefused(k: nat, live: nat)
      requires k < |refused|
      modifies this`acks, this`cancelled, this`refused
      ensures View() == Refuse(old(View()), k, live)
    {
      CompleteItems(refused[k].items, false, false, live);
      refused := refused[..k] + refused[k + 1..];
    }

    /** enqueue, undisturbed; others may come between its two parts. */
    method Enqueue(job: Job, live: nat) returns (late: bool)
      modifies this`jobs, this`submitted, this`accepted, this`refused, this`acks, this`cancelled
      ensures late == old(ended)
      ensures View() == if late then Refuse(Submit(old(View()), job), |old(refused)|, live) else Submit(old(View()), job)
      ensures refused == old(refused)
    {
      late := EnqueueLocked(job);
      if late {
        CompleteRefused(|refused| - 1, live);
      }
    }

    method TakeJob()
      requires writer == Free
      modifies this`jobs, this`writer, this`writing
      ensures View() == Take(old(View()))
    {
      if |jobs| == 0 {
        if ended { writer := Exited; }
        return;
      }
      writer := Took(jobs[0], ended);
      jobs := jobs[1..];
      writing := !ended && !failed;
    }

    method AttemptWrite(pipeOk: bool, partly: bool)
      requires writer.Took?
      modifies this`writer, this`writing, this`written
      ensures View() == Try(old(View()), pipeOk, partly)
    {
      var job := writer.job;
      var attempts := !failed && !writer.sawEnd && !cancelled;
      if attempts && pipeOk { written := written + [job]; }
      writer := Tried(job, attempts && pipeOk, attempts && !pipeOk && partly && !job.closes);
      writing := false;
    }

    method CompleteJob(live: nat)
      requires writer.Tried?
      modifies this`acks, this`cancelled, this`completed, this`writer
      ensures View() == Complete(old(View()), live)
    {
      CompleteItems(writer.job.items, writer.ok, writer.maybe, live);
      completed := completed + [writer.job];
      writer := if writer.ok then Free else Failing;
    }

    /** One round of the writer's loop, undisturbed; the steps interleave with the other methods. */
    method Round(pipeOk: bool, partly: bool, live: nat)
      requires writer == Free
      modifies this
      ensures View() == Record(Complete(Try(Take(old(View())), pipeOk, partly), live))
    {
      TakeJob();
      if !writer.Took? { return; }
      AttemptWrite(pipeOk, partly);
      CompleteJob(live);
      if writer == Failing {
        failed, writer := true, Free;
      }
    }

    method Finish()
      modifies this`ended
      ensures View() == End(old(View()))
    {
      ended := true;
    }
  }
}
