/**
  messages.go: what one locked section of the message hub does to its state. Context cancellation is
  environment input, `time.Now` and the host's formatting function are parameters, and the condition
  variable and signal channel only wake callers, so they have no state here.

  The journal holds what the hub pushes to the event sink, in order, together with the hand-outs and
  returns that its callers see as results and acknowledgements.
*/
module HubModel {
  import opened Common
  import opened Utf8

  type Id = string

  datatype Timing = Soon | Interrupt | AfterTurn
  datatype Boundary = Immediate | Tool | Stop | TurnEnd
  datatype State = Accepted | Delivered | Failed
  datatype Reason = NoReason | Cancelled | ProviderRejected | Timeout | LimitExceeded | RunFailed
  datatype Mechanism = NoMechanism | CorePrompt | CoreDedupe | CoreResume | Provider(name: string)

  /** Who brought an item in: a Send, the starting prompt, a carried prompt, or the turn-limit policy. */
  datatype Origin = Sent | Starting | Carried | Policy

  datatype Outcome = Outcome(
    id: Id, text: Text, timing: Timing, state: State, turn: nat,
    boundary: Option<Boundary>, mechanism: Mechanism, reason: Reason)

  /** `gone`: the sender's own lifetime has ended. The other origins live as long as the execution. */
  datatype Item = Item(
    out: Outcome, framed: Text, origin: Origin, gone: bool,
    claimed: bool, at: Option<Boundary>, turnEndOnly: bool, duplicate: bool)
  {
    predicate Pending() { out.state == Accepted && !claimed }
  }

  datatype Entry =
    | Update(out: Outcome)
    | TurnEnded(turn: nat, ids: seq<Id>)
    | LimitNotice
    | Handed(id: Id, at: Option<Boundary>, turn: nat, flagged: bool)
    | Returned(id: Id, maybe: bool)
    | Joined(id: Id)
    | Discarded(id: Id)

  datatype Limits = Limits(disabled: bool, maxPending: nat, maxTurns: nat)
  datatype Capability = Capability(boundaries: set<Boundary>, interrupt: bool, continueInRun: bool, maxUnits: int, unit: Unit)
  datatype Receipt = Receipt(id: Id, at: int)
  datatype Slot = Listed(k: nat) | WrapUp

  datatype Hub = Hub(
    policy: Limits, cap: Capability, resume: bool, gone: bool,
    items: seq<Item>, byId: map<Id, Slot>, receipts: seq<Receipt>, delivered: set<Id>,
    finished: bool, cancelled: bool, turn: nat, turns: nat, warned: bool,
    wrapUp: Option<Item>, limitId: Id, promptIds: seq<Id>, start: Id, log: seq<Entry>)

  function NewHub(policy: Limits, cap: Capability, resume: bool, limitId: Id): Hub {
    Hub(policy, cap, resume, false, [], map[], [], {}, false, false, 1, 0, false, None, limitId, [], "", [])
  }

  predicate Gone(h: Hub, i: Item) {
    if i.origin == Sent then i.gone else h.gone
  }

  // ---------- building blocks ----------

  predicate SameMessage(i: Item, j: Item) {
    i.out.id == j.out.id && i.out.timing == j.out.timing && i.origin == j.origin && i.out.text == j.out.text
  }

  /** Neither configuration nor sealing, cancellation or the turn counter is touched; the journal only grows. */
  predicate SameRun(h: Hub, g: Hub) {
    && g.policy == h.policy && g.cap == h.cap && g.resume == h.resume && g.gone == h.gone
    && g.finished == h.finished && g.cancelled == h.cancelled && g.turns == h.turns && g.turn == h.turn
    && h.log <= g.log
  }

  /** updateLocked: the original text travels with a failure only. */
  function UpdateOf(i: Item): Entry {
    Update(if i.out.state == Failed then i.out else i.out.(text := []))
  }

  /** The part of the hub that the loops over items work on. */
  datatype Lines = Lines(items: seq<Item>, log: seq<Entry>)

  function LinesOf(h: Hub): Lines {
    Lines(h.items, h.log)
  }

  function With(h: Hub, l: Lines): Hub {
    h.(items := l.items, log := l.log)
  }

  function Edit(l: Lines, k: nat, i: Item, es: seq<Entry>): Lines
    requires k < |l.items|
  {
    Lines(l.items[k := i], l.log + es)
  }

  function Put(h: Hub, k: nat, i: Item, es: seq<Entry>): (g: Hub)
    requires k < |h.items|
    ensures SameRun(h, g) && g.byId == h.byId && g.delivered == h.delivered
  {
    With(h, Edit(LinesOf(h), k, i, es))
  }

  function Append(h: Hub, i: Item, es: seq<Entry>): (g: Hub)
    ensures SameRun(h, g) && g.delivered == h.delivered && h.items <= g.items
  {
    h.(items := h.items + [i], byId := h.byId[i.out.id := Listed(|h.items|)], log := h.log + es)
  }

  function FailedItem(i: Item, r: Reason): (j: Item)
    ensures SameMessage(i, j)
  {
    i.(out := i.out.(state := Failed, reason := r))
  }

  /** failLocked */
  function Fail(l: Lines, k: nat, r: Reason): Lines
    requires k < |l.items|
  {
    var i := FailedItem(l.items[k], r);
    Edit(l, k, i, [UpdateOf(i)])
  }

  // ---------- admission ----------

  datatype Message = Message(id: Id, text: Text, timing: Timing, framed: Text)

  /** Admission appends one message or none, and no open one that has a receipt. */
  predicate AtMostOneMore(h: Hub, g: Hub) {
    && |h.items| <= |g.items| <= |h.items| + 1
    && (|g.items| > |h.items| && g.items[|h.items|].out.state == Accepted ==> g.items[|h.items|].out.id !in h.delivered)
  }

  datatype SendResult = Admitted | Rejected(reason: Reason) | Blocked

  /** validateMessageLocked: why the hub cannot take such a message now, if it cannot. */
  function Objection(h: Hub, timing: Timing, framed: Text): Reason {
    if h.policy.disabled || (!h.resume && !h.cap.continueInRun) || (timing == Interrupt && !h.cap.interrupt) then ProviderRejected
    else if h.cap.maxUnits > 0 && Units(framed, h.cap.unit) > h.cap.maxUnits then LimitExceeded
    else NoReason
  }

  function PendingCount(items: seq<Item>): nat {
    if items == [] then 0
    else PendingCount(items[..|items| - 1]) + if items[|items| - 1].Pending() then 1 else 0
  }

  function NewItem(m: Message, origin: Origin): Item {
    Item(Outcome(m.id, m.text, m.timing, Accepted, 0, None, NoMechanism, NoReason), m.framed, origin, false,
         false, None, false, false)
  }

  /** One pass of sendWithLifetime's admission loop. `Blocked` waits for a change and passes again. */
  function SendVerdict(h: Hub, m: Message, valid: bool, callerGone: bool): SendResult {
    if h.finished then Rejected(RunFailed)
    else if h.cancelled || h.gone || callerGone then Rejected(Cancelled)
    else if !valid then Rejected(ProviderRejected)
    else if Objection(h, m.timing, m.framed) != NoReason then Rejected(Objection(h, m.timing, m.framed))
    else if m.id in h.byId || m.id in h.delivered || PendingCount(h.items) < h.policy.maxPending then Admitted
    else Blocked
  }

  function SendPass(h: Hub, m: Message, valid: bool, callerGone: bool): (g: Hub)
    ensures SameRun(h, g) && g.delivered == h.delivered && h.items <= g.items
    ensures AtMostOneMore(h, g)
  {
    if !SendVerdict(h, m, valid, callerGone).Admitted? || m.id in h.byId then h
    else if m.id in h.delivered then
      var i := NewItem(m, Sent).(framed := []);
      var taken := i.(out := i.out.(mechanism := CoreDedupe));
      var done := taken.(out := taken.out.(state := Delivered));
      Append(h, done, [UpdateOf(taken), UpdateOf(done)])
    else
      var i := NewItem(m, Sent);
      Append(h, i, [UpdateOf(i)])
  }

  function StartMessage(h: Hub, id: Id, text: Text): (g: Hub)
    ensures SameRun(h, g) && g.delivered == h.delivered && h.items <= g.items
    ensures AtMostOneMore(h, g)
  {
    var i := NewItem(Message(id, text, Soon, []), Starting);
    if id in h.delivered then
      var done := i.(out := i.out.(state := Delivered, mechanism := CoreDedupe));
      Append(h, done, [UpdateOf(done)])
    else
      var held := i.(out := i.out.(turn := 1), claimed := true);
      Append(h, held, [UpdateOf(held), Handed(id, None, 1, false)]).(start := id)
  }

  /** `prior`: the outcome of the execution that failed before delivering the message. */
  function CarryPrompt(h: Hub, prior: Outcome, framed: Text): (g: Hub)
    ensures SameRun(h, g) && g.delivered == h.delivered && h.items <= g.items
    ensures AtMostOneMore(h, g)
  {
    if prior.id in h.delivered || prior.id in h.byId then h
    else
      var out := prior.(state := Accepted, reason := NoReason, turn := 1);
      var i := Item(out, framed, Carried, false, true, Some(TurnEnd), false, false);
      Append(h, i, [UpdateOf(i), Handed(prior.id, Some(TurnEnd), 1, false)])
  }

  // ---------- sweeps over every item ----------

  datatype Sweep = Finishing(reason: Reason) | Cancelling | Reconciling | Deduplicating

  /** What the sweep makes of one item; the item itself if it leaves it alone. */
  function Swept(h: Hub, sweep: Sweep, i: Item): Item {
    match sweep
    case Finishing(reason) => if i.out.state == Accepted then FailedItem(i, reason) else i
    case Cancelling => if i.Pending() then FailedItem(i, Cancelled) else i
    case Reconciling =>
      if !i.Pending() || i.out.id == h.start then i
      else if Gone(h, i) then FailedItem(i, Cancelled)
      else if Objection(h, i.out.timing, i.framed) != NoReason then FailedItem(i, Objection(h, i.out.timing, i.framed))
      else i
    case Deduplicating =>
      if i.out.state == Accepted && i.out.id in h.delivered && (!i.claimed || i.out.id == h.start)
      then i.(claimed := false, out := i.out.(state := Delivered, turn := 0, mechanism := CoreDedupe))
      else i
  }

  function SweepOne(l: Lines, h: Hub, sweep: Sweep, k: nat): Lines
    requires k < |l.items|
  {
    var i := Swept(h, sweep, l.items[k]);
    if i == l.items[k] then l else Edit(l, k, i, [UpdateOf(i)])
  }

  function SweepTo(h: Hub, sweep: Sweep, n: nat): (l: Lines)
    requires n <= |h.items|
    ensures |l.items| == |h.items| && h.log <= l.log
  {
    if n == 0 then LinesOf(h) else SweepOne(SweepTo(h, sweep, n - 1), h, sweep, n - 1)
  }

  function SweepAll(h: Hub, sweep: Sweep): (g: Hub)
    ensures SameRun(h, g) && g.byId == h.byId && g.delivered == h.delivered && |g.items| == |h.items|
  {
    With(h, SweepTo(h, sweep, |h.items|))
  }

  function Finish(h: Hub, reason: Reason): (g: Hub)
    ensures h.log <= g.log
  {
    SweepAll(h.(finished := true), Finishing(reason))
  }

  function CancelPending(h: Hub): (g: Hub)
    ensures h.log <= g.log
  {
    SweepAll(h.(cancelled := true), Cancelling)
  }

  function SetCapability(h: Hub, cap: Capability): (g: Hub)
    ensures h.log <= g.log
  {
    SweepAll(h.(cap := cap), Reconciling)
  }

  predicate Idle(h: Hub) {
    forall k | 0 <= k < |h.items| :: h.items[k].out.state != Accepted
  }

  function CloseIfIdle(h: Hub): Hub {
    if Idle(h) then h.(finished := true) else h
  }

  /** load: receipts newer than the cutoff are remembered once each. */
  function Remember(h: Hub, rs: seq<Receipt>, cutoff: int): (g: Hub)
    ensures g == h.(delivered := g.delivered, receipts := g.receipts)
    decreases |rs|
  {
    if rs == [] then h
    else
      var g := Remember(h, rs[..|rs| - 1], cutoff);
      var r := rs[|rs| - 1];
      if r.at > cutoff && r.id !in g.delivered then g.(delivered := g.delivered + {r.id}, receipts := g.receipts + [r]) else g
  }

  function Load(h: Hub, rs: seq<Receipt>, cutoff: int): (g: Hub)
    ensures h.log <= g.log
  {
    SweepAll(Remember(h, rs, cutoff), Deduplicating)
  }

  // ---------- claims ----------

  datatype Offer = Offer(id: Id, text: Text, timing: Timing, maybeDuplicate: bool)

  function OfferOf(i: Item): Offer {
    Offer(i.out.id, i.framed, if i.turnEndOnly then AfterTurn else i.out.timing, i.duplicate)
  }

  predicate AtEnd(b: Boundary) {
    b == Stop || b == TurnEnd
  }

  predicate Allowed(h: Hub, b: Boundary) {
    b == TurnEnd || (b == Immediate && h.cap.interrupt) || b in h.cap.boundaries
  }

  predicate Eligible(i: Item, b: Boundary) {
    && (i.turnEndOnly ==> AtEnd(b))
    && (i.out.timing == AfterTurn ==> AtEnd(b))
    && (i.out.timing == Interrupt && !i.turnEndOnly ==> b == Immediate)
  }

  predicate Oversize(h: Hub, framed: Text) {
    h.cap.maxUnits > 0 && Units(framed, h.cap.unit) > h.cap.maxUnits
  }

  /** The selection loop of claimLocked after it has visited some items. */
  datatype Batch = Batch(lines: Lines, picked: seq<nat>, units: nat, full: bool)

  predicate Overfills(h: Hub, p: Batch, framed: Text) {
    h.cap.maxUnits > 0 && |p.picked| > 0 && Units(framed, h.cap.unit) + 2 > h.cap.maxUnits - p.units
  }

  function Pick(h: Hub, p: Batch, k: nat): Batch
    requires k < |p.lines.items|
  {
    var framed := p.lines.items[k].framed;
    if Overfills(h, p, framed) then p.(full := true)
    else p.(picked := p.picked + [k], units := p.units + (if |p.picked| > 0 then 2 else 0) + Units(framed, h.cap.unit))
  }

  function Visit(h: Hub, p: Batch, b: Boundary, k: nat): Batch
    requires k < |p.lines.items|
  {
    var i := p.lines.items[k];
    if !i.Pending() then p
    else if Gone(h, i) then p.(lines := Fail(p.lines, k, Cancelled))
    else if !Eligible(i, b) then p
    else if Oversize(h, i.framed) then p.(lines := Fail(p.lines, k, LimitExceeded))
    else Pick(h, p, k)
  }

  /** A full batch ends the loop. */
  function Advance(h: Hub, p: Batch, b: Boundary, k: nat): (q: Batch)
    requires k < |p.lines.items|
    ensures |q.lines.items| == |p.lines.items| && p.lines.log <= q.lines.log
  {
    if p.full then p else Visit(h, p, b, k)
  }

  predicate Within(picked: seq<nat>, n: nat) {
    forall j | 0 <= j < |picked| :: picked[j] < n
  }

  function Scan(h: Hub, b: Boundary, n: nat): (p: Batch)
    requires n <= |h.items|
    ensures |p.lines.items| == |h.items| && Within(p.picked, n) && h.log <= p.lines.log
  {
    if n == 0 then Batch(LinesOf(h), [], 0, false) else Advance(h, Scan(h, b, n - 1), b, n - 1)
  }

  /** Stop closes the active turn; an immediate batch with an Interrupt restarts it. */
  predicate NeedsSuccessor(items: seq<Item>, picked: seq<nat>, b: Boundary)
    requires Within(picked, |items|)
  {
    b == Stop || (b == Immediate && exists j | 0 <= j < |picked| :: items[picked[j]].out.timing == Interrupt)
  }

  function TakenItem(i: Item, b: Boundary, turn: nat): (j: Item)
    ensures SameMessage(i, j)
  {
    i.(claimed := true, at := Some(b), out := i.out.(turn := turn))
  }

  function Take(l: Lines, k: nat, b: Boundary, turn: nat): Lines
    requires k < |l.items|
  {
    Edit(l, k, TakenItem(l.items[k], b, turn), [Handed(l.items[k].out.id, Some(b), turn, l.items[k].duplicate)])
  }

  function TakeAll(l: Lines, picked: seq<nat>, b: Boundary, turn: nat): (r: Lines)
    requires Within(picked, |l.items|)
    ensures |r.items| == |l.items| && l.log <= r.log
    decreases |picked|
  {
    if picked == [] then l
    else Take(TakeAll(l, picked[..|picked| - 1], b, turn), picked[|picked| - 1], b, turn)
  }

  function Offers(items: seq<Item>, picked: seq<nat>): (r: seq<Offer>)
    requires Within(picked, |items|)
    ensures |r| == |picked|
  {
    seq(|picked|, j requires 0 <= j < |picked| => OfferOf(items[picked[j]]))
  }

  /** min(ceil(0.8 * MaxTurns), MaxTurns - 1) */
  function Threshold(maxTurns: nat): int {
    var most := maxTurns - maxTurns / 5;
    if most < maxTurns - 1 then most else maxTurns - 1
  }

  predicate WrapUpDue(h: Hub, turn: nat) {
    !h.policy.disabled && h.policy.maxTurns > 1 && (h.warned || turn > Threshold(h.policy.maxTurns))
  }

  // ---------- the policy's own instruction ----------

  function AtLeast(ids: set<Id>, n: nat): set<Id> {
    set x | x in ids && |x| >= n
  }

  /** The first of id, id-wrap, id-wrap-wrap, ... that is not taken; there are finitely many taken. */
  function FreshId(id: Id, taken: set<Id>): (r: Id)
    ensures r !in taken && |r| >= |id|
    ensures id !in taken ==> r == id
    decreases |AtLeast(taken, |id|)|
  {
    if id !in taken then id
    else
      assert AtLeast(taken, |id + "-wrap"|) <= AtLeast(taken, |id|) - {id};
      StrictSubset(AtLeast(taken, |id + "-wrap"|), AtLeast(taken, |id|), id);
      FreshId(id + "-wrap", taken)
  }

  lemma {:induction false} SubsetSize(a: set<Id>, b: set<Id>)
    requires a <= b
    ensures |a| <= |b|
    decreases |a|
  {
    if a != {} {
      var x :| x in a;
      SubsetSize(a - {x}, b - {x});
    }
  }

  lemma StrictSubset(a: set<Id>, b: set<Id>, id: Id)
    requires a <= b - {id} && id in b
    ensures |a| < |b|
  {
    SubsetSize(a, b - {id});
  }

  /** Text and framing of the instruction come from the host's formatter, so both are parameters. */
  datatype NoticeText = NoticeText(text: Text, framed: Text)

  function NoticeItem(h: Hub, timing: Timing, notice: NoticeText): Item {
    match h.wrapUp
    case Some(i) => i
    case None => NewItem(Message(FreshId(h.limitId, h.byId.Keys + h.delivered), notice.text, timing, notice.framed), Policy)
  }

  function OfferTexts(offers: seq<Offer>): (r: seq<Text>)
    ensures |r| == |offers|
  {
    seq(|offers|, j requires 0 <= j < |offers| => offers[j].text)
  }

  /** The running sum of prependWrapUpLocked's loop, which stops at the first item that does not fit. */
  predicate FitsAhead(h: Hub, units: nat, offers: seq<Offer>)
    decreases |offers|
  {
    offers == [] ||
    (var next := Units(offers[0].text, h.cap.unit);
     next + 2 <= h.cap.maxUnits - units && FitsAhead(h, units + next + 2, offers[1..]))
  }

  predicate NoticeJoins(h: Hub, b: Boundary, i: Item, offers: seq<Offer>) {
    && i.Pending()
    && (i.turnEndOnly ==> AtEnd(b))
    && (h.cap.maxUnits > 0 ==> !Oversize(h, i.framed) && FitsAhead(h, Units(i.framed, h.cap.unit), offers))
  }

  function JoinNotice(h: Hub, b: Boundary, turn: nat, i: Item): (g: Hub)
    ensures SameRun(h, g)
  {
    var joined := if h.wrapUp.None? then [Joined(i.out.id)] else [];
    h.(wrapUp := Some(TakenItem(i, b, turn)),
       byId := if h.wrapUp.None? then h.byId[i.out.id := WrapUp] else h.byId,
       log := h.log + joined + [Handed(i.out.id, Some(b), turn, i.duplicate)])
  }

  datatype Claimed = Claimed(hub: Hub, offers: seq<Offer>)

  function Prepend(h: Hub, b: Boundary, turn: nat, offers: seq<Offer>, notice: NoticeText): (c: Claimed)
    requires offers != []
    ensures c.hub.items == h.items && c.hub.delivered == h.delivered && SameRun(h, c.hub)
  {
    var i := NoticeItem(h, offers[0].timing, notice);
    if NoticeJoins(h, b, i, offers) then Claimed(JoinNotice(h, b, turn, i), [OfferOf(i)] + offers)
    else Claimed(h, offers)
  }

  predicate ClaimOpen(h: Hub, b: Boundary) {
    !h.finished && !h.cancelled && !h.gone && h.turns < h.policy.maxTurns && Allowed(h, b)
  }

  /** A batch that needs a successor turn is handed out only if the budget still has one. */
  predicate TurnRemains(h: Hub, successor: bool) {
    successor ==> h.turn < h.policy.maxTurns
  }

  function HandOut(h: Hub, picked: seq<nat>, b: Boundary, turn: nat, notice: NoticeText): (c: Claimed)
    requires Within(picked, |h.items|)
    ensures c.hub.items == TakeAll(LinesOf(h), picked, b, turn).items && c.hub.delivered == h.delivered && SameRun(h, c.hub)
  {
    var offers := Offers(h.items, picked);
    var taken := With(h, TakeAll(LinesOf(h), picked, b, turn));
    if offers != [] && WrapUpDue(h, turn) then Prepend(taken, b, turn, offers, notice) else Claimed(taken, offers)
  }

  function ClaimWith(h: Hub, picked: seq<nat>, b: Boundary, successor: bool, notice: NoticeText): (c: Claimed)
    requires Within(picked, |h.items|)
    ensures SameRun(h, c.hub)
  {
    if TurnRemains(h, successor) then HandOut(h, picked, b, h.turn + (if successor then 1 else 0), notice)
    else Claimed(h, [])
  }

  /** What claimLocked does with the batch it has selected. */
  function ClaimBatch(h: Hub, picked: seq<nat>, b: Boundary, notice: NoticeText): (c: Claimed)
    requires Within(picked, |h.items|)
    ensures SameRun(h, c.hub)
  {
    ClaimWith(h, picked, b, NeedsSuccessor(h.items, picked, b), notice)
  }

  /** claimLocked */
  function Claim(h: Hub, b: Boundary, notice: NoticeText): (c: Claimed)
    ensures SameRun(h, c.hub)
  {
    if ClaimOpen(h, b) then
      var p := Scan(h, b, |h.items|);
      ClaimBatch(With(h, p.lines), p.picked, b, notice)
    else Claimed(h, [])
  }

  // ---------- acknowledgements ----------

  /** `maybe`: it may have been delivered all the same; `deadline`: the error is an expired deadline. */
  datatype Acknowledgement = Acknowledgement(delivered: bool, requeue: bool, maybe: bool, deadline: bool, mechanism: Mechanism)

  const DUPLICATE_WARNING: Text := Ascii("\n\nIf you already received this, ignore the duplicate.")

  function Attempted(i: Item, mechanism: Mechanism): (j: Item)
    ensures SameMessage(i, j)
  {
    i.(claimed := false, out := i.out.(boundary := i.at, mechanism := mechanism))
  }

  function DeliveredItem(i: Item): (j: Item)
    ensures SameMessage(i, j)
  {
    i.(out := i.out.(state := Delivered))
  }

  function RequeuedItem(i: Item, maybe: bool): (j: Item)
    ensures SameMessage(i, j)
  {
    var flag := maybe && !i.duplicate;
    i.(turnEndOnly := true, duplicate := i.duplicate || maybe, framed := if flag then i.framed + DUPLICATE_WARNING else i.framed)
  }

  predicate MayRequeue(h: Hub, i: Item) {
    !h.cancelled && !h.finished && !Gone(h, i) && !h.gone
  }

  function AckReason(h: Hub, i: Item, deadline: bool): Reason {
    if h.cancelled || Gone(h, i) || h.gone then Cancelled else if deadline then Timeout else ProviderRejected
  }

  function AckedItem(h: Hub, i: Item, ack: Acknowledgement): (j: Item)
    ensures SameMessage(i, j)
  {
    var i := Attempted(i, ack.mechanism);
    if ack.delivered then DeliveredItem(i)
    else if ack.requeue && MayRequeue(h, i) then RequeuedItem(i, ack.maybe)
    else FailedItem(i, AckReason(h, i, ack.deadline))
  }

  function Receive(h: Hub, id: Id, now: int): (g: Hub)
    ensures SameRun(h, g) && g.byId == h.byId
  {
    h.(delivered := h.delivered + {id}, receipts := h.receipts + [Receipt(id, now)])
  }

  function AckListed(h: Hub, k: nat, ack: Acknowledgement, now: int): (g: Hub)
    requires k < |h.items|
    ensures SameRun(h, g) && g.byId == h.byId && g.items == h.items[k := AckedItem(h, h.items[k], ack)]
    ensures g.delivered == h.delivered + if AckedItem(h, h.items[k], ack).out.state == Delivered then {h.items[k].out.id} else {}
  {
    var i := AckedItem(h, h.items[k], ack);
    if i.out.state == Accepted then Put(h, k, i, [Returned(i.out.id, ack.maybe), UpdateOf(i)])
    else if i.out.state == Failed then Put(h, k, i, [UpdateOf(i)])
    else Receive(Put(h, k, i, [UpdateOf(i)]), i.out.id, now)
  }

  /** Only a delivered instruction becomes an item and an update. */
  function AckNotice(h: Hub, w: Item, ack: Acknowledgement, now: int): (g: Hub)
    ensures SameRun(h, g)
    ensures var i := AckedItem(h, w, ack);
            if i.out.state == Delivered then g.items == h.items + [i] && g.delivered == h.delivered + {w.out.id}
            else g.items == h.items && g.delivered == h.delivered
  {
    var i := AckedItem(h, w, ack);
    match i.out.state
    case Delivered => Receive(Append(h, i, [UpdateOf(i)]).(wrapUp := Some(i)), i.out.id, now)
    case Failed => h.(wrapUp := Some(i), log := h.log + [Discarded(i.out.id)])
    case Accepted => h.(wrapUp := Some(i), log := h.log + [Returned(i.out.id, ack.maybe)])
  }

  function Ack(h: Hub, id: Id, ack: Acknowledgement, now: int): (g: Hub)
    ensures SameRun(h, g)
  {
    if id !in h.byId then h
    else
      match h.byId[id]
      case Listed(k) =>
        if k < |h.items| && h.items[k].out.state == Accepted && h.items[k].claimed then AckListed(h, k, ack, now) else h
      case WrapUp =>
        if h.wrapUp.Some? && h.wrapUp.value.out.state == Accepted && h.wrapUp.value.claimed
        then AckNotice(h, h.wrapUp.value, ack, now) else h
  }

  function AckStartAt(h: Hub, k: nat, success: bool, now: int): (g: Hub)
    requires k < |h.items|
    ensures SameRun(h, g) && g.byId == h.byId
  {
    var i := h.items[k].(claimed := false);
    if success then
      var done := i.(out := i.out.(state := Delivered, mechanism := CorePrompt));
      Receive(Put(h, k, done, [UpdateOf(done)]), done.out.id, now)
    else
      var failed := FailedItem(i, if h.gone then Cancelled else RunFailed);
      Put(h, k, failed, [UpdateOf(failed)])
  }

  function AckStart(h: Hub, success: bool, now: int): (g: Hub)
    ensures SameRun(h, g) && g.byId == h.byId
  {
    if h.start in h.byId && h.byId[h.start].Listed? && h.byId[h.start].k < |h.items| && h.items[h.byId[h.start].k].out.state == Accepted
    then AckStartAt(h, h.byId[h.start].k, success, now) else h
  }

  function PromptFailure(h: Hub, i: Item): (j: Item)
    ensures SameMessage(i, j)
  {
    FailedItem(Attempted(i, CoreResume), if h.cancelled || h.gone then Cancelled else RunFailed)
  }

  function FailPromptAt(h: Hub, k: nat): (g: Hub)
    requires k < |h.items|
    ensures SameRun(h, g) && g.byId == h.byId && g.delivered == h.delivered && g.items == h.items[k := PromptFailure(h, h.items[k])]
  {
    var i := PromptFailure(h, h.items[k]);
    Put(h, k, i, [UpdateOf(i)])
  }

  /** ackPrompt for one prompt id after a failed Run; the message need not be claimed. */
  function FailPrompt(h: Hub, id: Id): (g: Hub)
    ensures SameRun(h, g) && g.byId == h.byId && g.delivered == h.delivered && |g.items| == |h.items|
  {
    if id !in h.byId then h
    else
      match h.byId[id]
      case Listed(k) => if k < |h.items| && h.items[k].out.state == Accepted then FailPromptAt(h, k) else h
      case WrapUp =>
        if h.wrapUp.Some? && h.wrapUp.value.out.state == Accepted
        then h.(wrapUp := Some(PromptFailure(h, h.wrapUp.value)), log := h.log + [Discarded(id)]) else h
  }

  const PROMPT_DELIVERED := Acknowledgement(true, false, false, false, CoreResume)

  /** ackPrompt's loop, one locked section for each prompt id. */
  function AckPrompts(h: Hub, ids: seq<Id>, success: bool, now: int): (g: Hub)
    ensures SameRun(h, g)
    decreases |ids|
  {
    if ids == [] then h
    else
      var g := AckPrompts(h, ids[..|ids| - 1], success, now);
      var id := ids[|ids| - 1];
      if success then Ack(g, id, PROMPT_DELIVERED, now) else FailPrompt(g, id)
  }

  function AckPrompt(h: Hub, success: bool, now: int): (g: Hub)
    ensures SameRun(h, g)
  {
    var started := AckStart(h, success, now);
    AckPrompts(started, started.promptIds, success, now)
  }

  // ---------- turns ----------

  function DeliveredIn(items: seq<Item>, turn: nat): seq<Id> {
    if items == [] then []
    else
      var i := items[|items| - 1];
      DeliveredIn(items[..|items| - 1], turn) + if i.out.turn == turn && i.out.state == Delivered then [i.out.id] else []
  }

  predicate WarnsNow(h: Hub, turn: nat, ok: bool) {
    !h.policy.disabled && !h.warned && turn >= Threshold(h.policy.maxTurns) && turn < h.policy.maxTurns && ok && (h.resume || h.cap.continueInRun)
  }

  function TurnEntries(h: Hub, ok: bool): seq<Entry> {
    var turn := h.turns + 1;
    [TurnEnded(turn, DeliveredIn(h.items, turn))] + if WarnsNow(h, turn, ok) then [LimitNotice] else []
  }

  function CompleteTurn(h: Hub, ok: bool): (g: Hub)
    ensures h.log <= g.log
  {
    var turn := h.turns + 1;
    if h.finished || turn > h.policy.maxTurns then h
    else h.(turns := turn, turn := turn + 1, warned := h.warned || WarnsNow(h, turn, ok), log := h.log + TurnEntries(h, ok))
  }

  // ---------- one atomic step ----------

  datatype Step =
    | DoSend(m: Message, valid: bool, callerGone: bool)
    | DoStart(id: Id, text: Text)
    | DoCarry(prior: Outcome, framed: Text)
    | DoLoad(rs: seq<Receipt>, cutoff: int)
    | DoSetCapability(cap: Capability)
    | DoSetPrompt(ids: seq<Id>)
    | DoClaim(b: Boundary, notice: NoticeText)
    | DoAck(id: Id, ack: Acknowledgement, now: int)
    | DoAckStart(success: bool, now: int)
    | DoFailPrompt(id: Id)
    | DoCompleteTurn(ok: bool)
    | DoCancelPending
    | DoFinish(reason: Reason)
    | DoCloseIfIdle
    | LifetimeEnds(k: nat)
    | Withdraw(k: nat)
    | ExecutionCancelled

  /**
    startMessage does not look its id up, so its caller must bring one that is not in use. Prompts come in
    before the execution starts, hence before it finishes. The lifetime of a settled message is of no
    further interest.
  */
  predicate Enabled(h: Hub, s: Step) {
    match s
    case DoStart(id, text) => id !in h.byId && !h.finished
    case DoCarry(prior, framed) => !h.finished
    case LifetimeEnds(k) => k < |h.items| && h.items[k].out.state == Accepted
    case Withdraw(k) => k < |h.items| && Gone(h, h.items[k])
    case _ => true
  }

  function Do(h: Hub, s: Step): Hub
    requires Enabled(h, s)
  {
    match s
    case DoSend(m, valid, callerGone) => SendPass(h, m, valid, callerGone)
    case DoStart(id, text) => StartMessage(h, id, text)
    case DoCarry(prior, framed) => CarryPrompt(h, prior, framed)
    case DoLoad(rs, cutoff) => Load(h, rs, cutoff)
    case DoSetCapability(cap) => SetCapability(h, cap)
    case DoSetPrompt(ids) => h.(promptIds := ids)
    case DoClaim(b, notice) => Claim(h, b, notice).hub
    case DoAck(id, ack, now) => Ack(h, id, ack, now)
    case DoAckStart(success, now) => AckStart(h, success, now)
    case DoFailPrompt(id) => FailPrompt(h, id)
    case DoCompleteTurn(ok) => CompleteTurn(h, ok)
    case DoCancelPending => CancelPending(h)
    case DoFinish(reason) => Finish(h, reason)
    case DoCloseIfIdle => CloseIfIdle(h)
    case LifetimeEnds(k) => Put(h, k, h.items[k].(gone := true), [])
    case Withdraw(k) => if h.items[k].Pending() then With(h, Fail(LinesOf(h), k, Cancelled)) else h
    case ExecutionCancelled => h.(gone := true)
  }

  /** Steps that are not enabled do nothing, so every sequence of steps is a run. */
  function Run(h: Hub, steps: seq<Step>): Hub
    decreases |steps|
  {
    if steps == [] then h
    else
      var g := Run(h, steps[..|steps| - 1]);
      var s := steps[|steps| - 1];
      if Enabled(g, s) then Do(g, s) else g
  }
}
