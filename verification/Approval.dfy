/**
  approval.go and the approval dispatcher of sink.go: one responder shared by every copy of a request,
  settled by consumers and expired by the SDK in any order; the two ways a dispatch waits for it; and
  the bounded retry around a dispatch.
*/
module Approval {
  import opened Common

  datatype Decision = Approved | Answered | Rejected | TimedOut | Aborted
  datatype Response = Response(result: Decision, text: string, choice: string)

  datatype State = Pending | Responded(resp: Response) | Expired

  /** `closes` counts closings of the ready channel, `accepted` the responses whose call returned nil. */
  datatype Book = Book(state: State, closes: nat, accepted: seq<Response>)

  const OPEN := Book(Pending, 0, [])

  function AfterSettle(b: Book, r: Response): Book {
    if b.state == Pending then Book(Responded(r), b.closes + 1, b.accepted + [r]) else b
  }

  function AfterExpire(b: Book): Book {
    if b.state == Pending then Book(Expired, b.closes + 1, b.accepted) else b
  }

  function Taken(b: Book): Option<Response> {
    if b.state.Responded? then Some(b.state.resp) else None
  }

  /** What any holder of any copy, a deadline, an abort or the end of the run may do to it. */
  datatype Op = Settling(resp: Response) | Expiring

  function Run(b: Book, ops: seq<Op>): Book {
    if ops == [] then b
    else
      var c := Run(b, ops[..|ops| - 1]);
      match ops[|ops| - 1]
      case Settling(r) => AfterSettle(c, r)
      case Expiring => AfterExpire(c)
  }

  predicate Consistent(b: Book) {
    match b.state
    case Pending => b.closes == 0 && b.accepted == []
    case Responded(r) => b.closes == 1 && b.accepted == [r]
    case Expired => b.closes == 1 && b.accepted == []
  }

  lemma {:induction false} RunConsistent(b: Book, ops: seq<Op>)
    requires Consistent(b)
    ensures Consistent(Run(b, ops)) && (b.state != Pending ==> Run(b, ops) == b)
    decreases |ops|
  {
    if ops != [] {
      RunConsistent(b, ops[..|ops| - 1]);
    }
  }

  /** However copies, deadlines and aborts race: at most one response succeeds and the channel closes once. */
  lemma {:induction false} ExactlyOnce(ops: seq<Op>)
    ensures var b := Run(OPEN, ops); |b.accepted| <= 1 && b.closes <= 1 && (b.closes == 1 <==> b.state != Pending)
  {
    RunConsistent(OPEN, ops);
  }

  // ---------- event form ----------

  datatype Wake = Ready | BrokerAborted | ContextDone | NotEnqueued

  /** runEventDispatch once it stops waiting: take at ready, otherwise expire and recover a response that won. */
  function EventGiven(b: Book): Option<Response> {
    Taken(b)
  }

  function EventAfter(b: Book, w: Wake): Book {
    if w == Ready then b else AfterExpire(b)
  }

  /**
    In event form the Driver gets exactly the response whose call returned nil, whatever happens before
    the dispatch stops waiting and whatever holders of the request try afterwards.
  */
  lemma {:induction false} EventFormHonours(before: seq<Op>, w: Wake, after: seq<Op>)
    requires w == Ready ==> Run(OPEN, before).closes == 1
    ensures var b := Run(OPEN, before); var given := EventGiven(b);
            Run(EventAfter(b, w), after).accepted == if given.Some? then [given.value] else []
  {
    RunConsistent(OPEN, before);
    RunConsistent(EventAfter(Run(OPEN, before), w), after);
  }

  // ---------- callback form ----------

  /** How runHandler stops waiting; `between` is what happens after a fruitless take and before the expiry. */
  datatype Outcome = Panicked | HandlerFailed | HandlerReturned(between: seq<Op>) | DeadlineOrCancel

  function CallbackGiven(b: Book, o: Outcome): Option<Response> {
    match o
    case Panicked => None
    case HandlerFailed => None
    case HandlerReturned(_) => Taken(b)
    case DeadlineOrCancel => Taken(b)
  }

  function CallbackAfter(b: Book, o: Outcome): Book {
    match o
    case Panicked => AfterExpire(b)
    case HandlerFailed => AfterExpire(b)
    case HandlerReturned(between) => if b.state.Responded? then b else AfterExpire(Run(b, between))
    case DeadlineOrCancel => AfterExpire(b)
  }

  /** runHandler itself records a failure for the run: a panic, or a return without a response. */
  predicate HandlerRecords(b: Book, o: Outcome) {
    o.Panicked? || (o.HandlerReturned? && !b.state.Responded?)
  }

  /** A response whose call returned nil, and that the Driver nevertheless does not get. */
  predicate Drops(b: Book, o: Outcome) {
    match o
    case Panicked => b.state.Responded?
    case HandlerFailed => b.state.Responded?
    case HandlerReturned(between) => b.state == Pending && Run(b, between).state.Responded?
    case DeadlineOrCancel => false
  }

  /** In callback form a successful response is lost exactly in those cases, and otherwise it is the one given. */
  lemma CallbackFormHonours(before: seq<Op>, o: Outcome, after: seq<Op>)
    ensures var b := Run(OPEN, before); var given := CallbackGiven(b, o); var accepted := Run(CallbackAfter(b, o), after).accepted;
            && (given.Some? ==> accepted == [given.value])
            && (given.None? ==> (accepted != [] <==> Drops(b, o)))
  {
    var b := Run(OPEN, before);
    RunConsistent(OPEN, before);
    if o.HandlerReturned? {
      RunConsistent(b, o.between);
    }
    RunConsistent(CallbackAfter(b, o), after);
  }

  /** A handler that approves and then returns an error: the approval succeeded and is not honoured. */
  lemma FailingHandlerDropsApproval(r: Response)
    ensures Run(OPEN, [Settling(r)]).accepted == [r] && CallbackGiven(Run(OPEN, [Settling(r)]), HandlerFailed) == None
  {
    assert [Settling(r)][..0] == [];
    assert Run(OPEN, []) == OPEN;
  }

  // ---------- the objects ----------

  datatype SettleResult = Ok | ErrResolved | ErrExpired | ErrKindMismatch

  class Responder {
    var state: State
    ghost var closes: nat
    ghost var accepted: seq<Response>

    ghost function Books(): Book
      reads this
    {
      Book(state, closes, accepted)
    }

    constructor ()
      ensures Books() == OPEN
    {
      state, closes, accepted := Pending, 0, [];
    }

    method Settle(r: Response) returns (res: SettleResult)
      modifies this
      ensures Books() == AfterSettle(old(Books()), r)
      ensures res == match old(state) case Pending => Ok case Responded(_) => ErrResolved case Expired => ErrExpired
    {
      match state
      case Responded(_) => return ErrResolved;
      case Expired => return ErrExpired;
      case Pending =>
        state, closes, accepted := Responded(r), closes + 1, accepted + [r];
        return Ok;
    }

    method Expire() returns (won: Option<Response>)
      modifies this
      ensures Books() == AfterExpire(old(Books())) && won == Taken(old(Books()))
    {
      match state
      case Responded(r) => return Some(r);
      case Pending =>
        state, closes := Expired, closes + 1;
        return None;
      case Expired => return None;
    }

    method TakeResponse() returns (taken: Option<Response>)
      ensures taken == Taken(Books())
    {
      match state
      case Responded(r) => return Some(r);
      case _ => return None;
    }
  }

  datatype RequestKind = Permission | PlanReview | Question

  class Request {
    const responder: Responder
    const kind: RequestKind
    const choices: seq<string>
    const origin: string

    constructor (responder: Responder, kind: RequestKind, choices: seq<string>, origin: string)
      ensures this.responder == responder && this.kind == kind && this.choices == choices && this.origin == origin
    {
      this.responder, this.kind, this.choices, this.origin := responder, kind, choices, origin;
    }

    /** Forward: a new, attributed request over the same responder. */
    method Forward(origin: string) returns (copy: Request)
      ensures fresh(copy) && copy.responder == responder && copy.kind == kind && copy.choices == choices && copy.origin == origin
    {
      copy := new Request(responder, kind, choices, origin);
    }

    method Approve() returns (res: SettleResult)
      modifies responder
      ensures kind == Question ==> res == ErrKindMismatch && responder.Books() == old(responder.Books())
      ensures kind != Question ==> responder.Books() == AfterSettle(old(responder.Books()), Response(Approved, "", ""))
    {
      if kind == Question { return ErrKindMismatch; }
      res := responder.Settle(Response(Approved, "", ""));
    }

    method Deny(reason: string) returns (res: SettleResult)
      modifies responder
      ensures responder.Books() == AfterSettle(old(responder.Books()), Response(Rejected, reason, ""))
    {
      res := responder.Settle(Response(Rejected, reason, ""));
    }

    /** A choice is reported only if the answer is one of the offered keys. */
    method Answer(option: string) returns (res: SettleResult)
      modifies responder
      ensures kind != Question ==> res == ErrKindMismatch && responder.Books() == old(responder.Books())
      ensures kind == Question ==>
                responder.Books() == AfterSettle(old(responder.Books()), Response(Answered, option, if option in choices then option else ""))
    {
      if kind != Question { return ErrKindMismatch; }
      var choice := "";
      for k := 0 to |choices|
        invariant choice == if option in choices[..k] then option else ""
      {
        assert choices[..k + 1] == choices[..k] + [choices[k]];
        if choices[k] == option {
          choice := option;
        }
      }
      assert choices[..|choices|] == choices;
      res := responder.Settle(Response(Answered, option, choice));
    }
  }

  // ---------- RequestDecision ----------

  datatype Action = Continue | Retry | Abort

  datatype Policy = Policy(onReject: Action, onTimeout: Action, maxRetries: int, retrySupported: bool)

  function ActionFor(p: Policy, d: Decision): Action {
    if d == Rejected then p.onReject else p.onTimeout
  }

  predicate Fails(d: Decision) {
    d == Rejected || d == TimedOut
  }

  /** A failed ask that the policy would ask again, budget permitting. */
  predicate Retryable(p: Policy, d: Decision) {
    Fails(d) && ActionFor(p, d) == Retry && p.retrySupported
  }

  function Budget(p: Policy): nat {
    (if p.maxRetries > 0 then p.maxRetries else 0) + 1
  }

  datatype Verdict = Proceed(decision: Decision) | RunEnds(recorded: bool)

  /** The answer to one ask; `recorded`: its dispatch has itself recorded a failure, which aborts. */
  datatype Ask = Ask(decision: Decision, recorded: bool)

  /** What one dispatch through the callback answers. `deadline`: its context ended by the deadline. */
  function CallbackAsk(b: Book, o: Outcome, deadline: bool): Ask {
    var given := CallbackGiven(b, o);
    if given.Some? then Ask(given.value.result, false)
    else if o.DeadlineOrCancel? && deadline then Ask(TimedOut, false)
    else Ask(Aborted, HandlerRecords(b, o))
  }

  /** What the last ask comes to. */
  function VerdictOf(p: Policy, ask: Ask): Verdict {
    var d := ask.decision;
    if d == Approved || d == Answered then Proceed(d)
    else if d == Aborted then RunEnds(ask.recorded)
    else if ActionFor(p, d) == Continue then Proceed(d)
    else RunEnds(true)
  }

  /**
    The asks of one decision: all but the last are failures worth retrying, the last is not or exhausts
    the budget, and there are at most MaxRetries + 1 of them. A failure is recorded for the run exactly if
    a rejection or timeout ends it, or the aborted ask had recorded one: a handler that panicked or
    returned without a response.
  */
  method RequestDecision(p: Policy, auto: Option<Decision>, dispatch: nat -> Ask) returns (asks: nat, v: Verdict)
    requires auto.Some? ==> auto.value == Approved || auto.value == Rejected
    ensures auto.Some? ==> asks == 0 && v == VerdictOf(p, Ask(auto.value, false))
    ensures auto.None? ==> 1 <= asks <= Budget(p)
    ensures auto.None? ==> (forall k | 0 <= k < asks - 1 :: Retryable(p, dispatch(k).decision))
    ensures auto.None? ==> (Retryable(p, dispatch(asks - 1).decision) ==> asks == Budget(p)) && v == VerdictOf(p, dispatch(asks - 1))
  {
    if auto.Some? {
      if auto.value == Approved { return 0, Proceed(Approved); }
      return 0, VerdictOf(p, Ask(Rejected, false));
    }
    asks := 0;
    while true
      invariant 0 <= asks < Budget(p)
      invariant forall k | 0 <= k < asks :: Retryable(p, dispatch(k).decision)
      decreases Budget(p) - asks
    {
      var ask := dispatch(asks);
      var d := ask.decision;
      asks := asks + 1;
      if d == Approved || d == Answered { return asks, Proceed(d); }
      if d == Aborted { return asks, RunEnds(ask.recorded); }
      var action := ActionFor(p, d);
      if action == Continue { return asks, Proceed(d); }
      if action != Retry || !p.retrySupported || asks > p.maxRetries { return asks, RunEnds(true); }
    }
  }

  /** When a decision by callback leaves a failure for the run. */
  lemma CallbackRecordsExactly(p: Policy, before: seq<Op>, o: Outcome, deadline: bool)
    ensures var b := Run(OPEN, before); var ask := CallbackAsk(b, o, deadline);
            VerdictOf(p, ask) == RunEnds(true) <==>
            (Fails(ask.decision) && ActionFor(p, ask.decision) != Continue) || HandlerRecords(b, o)
  {
  }
}
