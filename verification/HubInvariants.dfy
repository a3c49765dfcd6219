/** What every reachable state of the message hub satisfies, and why each kind of change keeps it. */
module HubInvariants {
  import opened Common
  import opened Utf8
  import opened HubModel

  // ---------- the life of one message, read off the journal ----------

  /**
    `host`: an admitted message, not the policy's instruction. `requeued`: returned at least once.
    `flagged`: possibly delivered by an attempt that was returned. `reported`: by an update.
  */
  datatype Phase =
    | Unknown
    | Waiting(host: bool, requeued: bool, flagged: bool)
    | Out(host: bool, requeued: bool, flagged: bool)
    | Settled(reported: bool)
    | Bad

  predicate About(e: Entry, id: Id) {
    match e
    case Update(out) => out.id == id
    case TurnEnded(_, _) => false
    case LimitNotice => false
    case Handed(x, _, _, _) => x == id
    case Returned(x, _) => x == id
    case Joined(x) => x == id
    case Discarded(x) => x == id
  }

  function NextUpdate(p: Phase, state: State): Phase {
    match state
    case Accepted => if p == Unknown then Waiting(true, false, false) else if p.Waiting? && p.host && p.requeued then p else Bad
    case Delivered => if p.Settled? || p.Bad? then Bad else Settled(true)
    case Failed => if (p.Waiting? || p.Out?) && p.host then Settled(true) else Bad
  }

  predicate MayHand(p: Phase, at: Option<Boundary>, flagged: bool) {
    p.Waiting? && (p.requeued ==> at == Some(Stop) || at == Some(TurnEnd)) && p.flagged == flagged
  }

  /** The only lawful order of entries about one id; anything else is `Bad` for good. */
  function Next(p: Phase, e: Entry): Phase {
    match e
    case Update(out) => NextUpdate(p, out.state)
    case Handed(_, at, _, flagged) => if MayHand(p, at, flagged) then Out(p.host, p.requeued, p.flagged) else Bad
    case Returned(_, maybe) => if p.Out? then Waiting(p.host, true, p.flagged || maybe) else Bad
    case Joined(_) => if p == Unknown then Waiting(false, false, false) else Bad
    case Discarded(_) => if (p.Waiting? || p.Out?) && !p.host then Settled(false) else Bad
    case TurnEnded(_, _) => p
    case LimitNotice => p
  }

  function Fold(p: Phase, es: seq<Entry>, id: Id): Phase {
    if es == [] then p
    else
      var q := Fold(p, es[..|es| - 1], id);
      if About(es[|es| - 1], id) then Next(q, es[|es| - 1]) else q
  }

  function PhaseIn(log: seq<Entry>, id: Id): Phase {
    Fold(Unknown, log, id)
  }

  lemma {:induction false} FoldAppend(p: Phase, a: seq<Entry>, b: seq<Entry>, id: Id)
    ensures Fold(p, a + b, id) == Fold(Fold(p, a, id), b, id)
    decreases |b|
  {
    if b == [] {
      assert a + b == a;
    } else {
      var n := |b| - 1;
      assert (a + b)[..|a + b| - 1] == a + b[..n];
      FoldAppend(p, a, b[..n], id);
    }
  }

  lemma {:induction false} FoldIgnores(p: Phase, es: seq<Entry>, id: Id)
    requires forall e | e in es :: !About(e, id)
    ensures Fold(p, es, id) == p
    decreases |es|
  {
    if es != [] {
      FoldIgnores(p, es[..|es| - 1], id);
    }
  }

  lemma FoldOne(p: Phase, e: Entry, id: Id)
    ensures Fold(p, [e], id) == if About(e, id) then Next(p, e) else p
  {
    assert [e][..0] == [];
    assert Fold(p, [], id) == p;
  }

  lemma FoldTwo(p: Phase, e: Entry, f: Entry, id: Id)
    requires About(e, id) && About(f, id)
    ensures Fold(p, [e, f], id) == Next(Next(p, e), f)
  {
    assert [e, f][..1] == [e];
    FoldOne(p, e, id);
  }

  function PhaseOf(i: Item): Phase {
    if i.out.state != Accepted then Settled(i.origin != Policy || i.out.state == Delivered)
    else if i.claimed then Out(i.origin != Policy, i.turnEndOnly, i.duplicate)
    else Waiting(i.origin != Policy, i.turnEndOnly, i.duplicate)
  }

  // ---------- the invariant ----------

  /** The index knows exactly the items and the instruction, each under its own id. */
  ghost predicate Indexed(h: Hub) {
    && (forall k | 0 <= k < |h.items| :: h.items[k].out.id in h.byId && h.byId[h.items[k].out.id] == Listed(k))
    && (forall id | id in h.byId :: Resolves(h, id))
    && (h.wrapUp.Some? ==> NoticeIndexed(h, h.wrapUp.value))
    && h.limitId != "" && (h.start != "" ==> h.start in h.byId) && (h.start in h.byId ==> h.byId[h.start].Listed?)
  }

  predicate Resolves(h: Hub, id: Id)
    requires id in h.byId
  {
    match h.byId[id]
    case Listed(k) => k < |h.items| && h.items[k].out.id == id
    case WrapUp => h.wrapUp.Some? && h.wrapUp.value.out.id == id
  }

  predicate NoticeIndexed(h: Hub, w: Item) {
    w.out.id in h.byId && w.origin == Policy && (h.byId[w.out.id] == WrapUp <==> w.out.state != Delivered)
  }

  function Expected(h: Hub, id: Id): Phase {
    if id !in h.byId then Unknown
    else
      match h.byId[id]
      case Listed(k) => if k < |h.items| then PhaseOf(h.items[k]) else Bad
      case WrapUp => if h.wrapUp.Some? then PhaseOf(h.wrapUp.value) else Bad
  }

  /** The journal tells of each id exactly what its item's fields say. */
  ghost predicate Traced(h: Hub) {
    forall id: Id :: PhaseIn(h.log, id) == Expected(h, id)
  }

  predicate NeverHanded(i: Item) {
    i.out.state == Accepted && i.out.turn == 0
  }

  predicate TurnLawful(i: Item, maxTurns: nat) {
    i.out.turn <= maxTurns && (i.out.state == Accepted ==> (i.out.turn >= 1 <==> i.claimed || i.turnEndOnly))
  }

  /** The policy's instruction is listed only once it has been delivered. */
  predicate HostOrDelivered(i: Item) {
    i.origin == Policy ==> i.out.state == Delivered
  }

  ghost predicate Budgeted(h: Hub) {
    && h.policy.maxTurns >= 1 && h.turn == h.turns + 1 && h.turns <= h.policy.maxTurns
    && (forall k | 0 <= k < |h.items| :: TurnLawful(h.items[k], h.policy.maxTurns) && HostOrDelivered(h.items[k]))
    && (h.wrapUp.Some? ==> TurnLawful(h.wrapUp.value, h.policy.maxTurns))
  }

  function TurnNumbers(log: seq<Entry>): seq<nat> {
    if log == [] then []
    else TurnNumbers(log[..|log| - 1]) + if log[|log| - 1].TurnEnded? then [log[|log| - 1].turn] else []
  }

  /** Delivered in that turn, now and for good. */
  predicate DeliveredThen(h: Hub, id: Id, turn: nat) {
    && id in h.byId && h.byId[id].Listed? && h.byId[id].k < |h.items|
    && h.items[h.byId[id].k].out.id == id && h.items[h.byId[id].k].out.state == Delivered && h.items[h.byId[id].k].out.turn == turn
  }

  ghost predicate EntryLawful(h: Hub, e: Entry) {
    match e
    case TurnEnded(turn, ids) => 1 <= turn <= h.turns && forall j | 0 <= j < |ids| :: DeliveredThen(h, ids[j], turn)
    case Handed(_, _, turn, _) => 1 <= turn <= h.policy.maxTurns
    case _ => true
  }

  ghost predicate TurnsLogged(h: Hub) {
    && |TurnNumbers(h.log)| == h.turns && (forall n | 0 <= n < h.turns :: TurnNumbers(h.log)[n] == n + 1)
    && (forall e | e in h.log :: EntryLawful(h, e))
  }

  predicate HandedAt(log: seq<Entry>, n: nat, id: Id) {
    n < |log| && log[n].Handed? && log[n].id == id
  }

  /** Handed out or settled by an update. */
  predicate Touches(e: Entry, id: Id) {
    (e.Handed? && e.id == id) || (e.Update? && e.out.id == id && e.out.state != Accepted)
  }

  predicate Touched(log: seq<Entry>, id: Id) {
    exists n | 0 <= n < |log| :: Touches(log[n], id)
  }

  /** Every hand-out of `later` comes after `earlier` was handed out or settled. */
  ghost predicate HandedAfter(log: seq<Entry>, earlier: Id, later: Id) {
    forall n: nat | HandedAt(log, n, later) :: Touched(log[..n], earlier)
  }

  predicate Rivals(i: Item, j: Item) {
    j.origin == Sent && i.out.timing == j.out.timing
  }

  /** Sent messages are handed out only after all earlier ones of the same timing. */
  ghost predicate InOrder(h: Hub) {
    && (forall i, j | 0 <= i < j < |h.items| && Rivals(h.items[i], h.items[j]) && NeverHanded(h.items[i]) :: h.items[j].out.turn == 0)
    && (forall i, j | 0 <= i < j < |h.items| && Rivals(h.items[i], h.items[j]) ::
          HandedAfter(h.log, h.items[i].out.id, h.items[j].out.id))
  }

  function NeverHandedCount(items: seq<Item>): nat {
    if items == [] then 0
    else NeverHandedCount(items[..|items| - 1]) + if NeverHanded(items[|items| - 1]) then 1 else 0
  }

  predicate Capped(h: Hub) {
    NeverHandedCount(h.items) <= h.policy.maxPending
  }

  ghost predicate Inv(h: Hub) {
    Indexed(h) && Traced(h) && Budgeted(h) && TurnsLogged(h) && InOrder(h) && Capped(h)
  }

  // ---------- changing one listed item ----------

  /** Entries a change of this item may leave behind. */
  predicate Concerns(es: seq<Entry>, id: Id, maxTurns: nat) {
    forall e | e in es :: About(e, id) && (e.Handed? ==> 1 <= e.turn <= maxTurns)
  }

  predicate FirstOfTiming(h: Hub, k: nat)
    requires k < |h.items|
  {
    forall i | 0 <= i < k :: NeverHanded(h.items[i]) ==> h.items[i].out.timing != h.items[k].out.timing
  }

  predicate LegalPut(h: Hub, k: nat, i: Item, es: seq<Entry>) {
    && k < |h.items|
    && h.items[k].out.state == Accepted && SameMessage(h.items[k], i)
    && Concerns(es, i.out.id, h.policy.maxTurns)
    && Fold(PhaseOf(h.items[k]), es, i.out.id) == PhaseOf(i)
    && TurnLawful(i, h.policy.maxTurns)
    && (NeverHanded(i) ==> NeverHanded(h.items[k]))
    && (i.origin == Sent && i.out.turn > 0 && h.items[k].out.turn == 0 ==> FirstOfTiming(h, k))
    && (forall e | e in es && e.Handed? :: es == [e] && (i.origin == Sent ==> FirstOfTiming(h, k)))
  }

  lemma PutKeepsIndexed(h: Hub, k: nat, i: Item, es: seq<Entry>)
    requires Indexed(h) && LegalPut(h, k, i, es)
    ensures Indexed(Put(h, k, i, es))
  {
    var g := Put(h, k, i, es);
    forall id | id in g.byId ensures Resolves(g, id) {
      assert Resolves(h, id);
    }
  }

  lemma LogGrows(log: seq<Entry>, es: seq<Entry>, id: Id, own: Id, maxTurns: nat)
    requires Concerns(es, own, maxTurns) && id != own
    ensures PhaseIn(log + es, id) == PhaseIn(log, id)
  {
    FoldAppend(Unknown, log, es, id);
    FoldIgnores(PhaseIn(log, id), es, id);
  }

  lemma PutKeepsTraced(h: Hub, k: nat, i: Item, es: seq<Entry>)
    requires Indexed(h) && Traced(h) && LegalPut(h, k, i, es)
    ensures Traced(Put(h, k, i, es))
  {
    var g := Put(h, k, i, es);
    forall id: Id ensures PhaseIn(g.log, id) == Expected(g, id) {
      assert PhaseIn(h.log, id) == Expected(h, id);
      if id == i.out.id {
        FoldAppend(Unknown, h.log, es, id);
      } else {
        LogGrows(h.log, es, id, i.out.id, h.policy.maxTurns);
        assert id in h.byId ==> Resolves(h, id);
      }
    }
  }

  lemma {:induction false} NumbersAppend(a: seq<Entry>, b: seq<Entry>)
    ensures TurnNumbers(a + b) == TurnNumbers(a) + TurnNumbers(b)
    decreases |b|
  {
    if b == [] {
      assert a + b == a;
    } else {
      assert (a + b)[..|a + b| - 1] == a + b[..|b| - 1];
      NumbersAppend(a, b[..|b| - 1]);
    }
  }

  lemma {:induction false} NoNumbers(es: seq<Entry>)
    requires forall e | e in es :: !e.TurnEnded?
    ensures TurnNumbers(es) == []
    decreases |es|
  {
    if es != [] {
      NoNumbers(es[..|es| - 1]);
    }
  }

  lemma NumbersKept(log: seq<Entry>, es: seq<Entry>, own: Id, maxTurns: nat)
    requires Concerns(es, own, maxTurns)
    ensures TurnNumbers(log + es) == TurnNumbers(log)
  {
    NumbersAppend(log, es);
    forall e | e in es ensures !e.TurnEnded? {
      assert About(e, own);
    }
    NoNumbers(es);
  }

  lemma EntriesKept(h: Hub, g: Hub, es: seq<Entry>)
    requires TurnsLogged(h) && g.log == h.log + es && g.turns == h.turns && g.policy == h.policy
    requires forall id, turn | DeliveredThen(h, id, turn) :: DeliveredThen(g, id, turn)
    requires forall e | e in es :: EntryLawful(g, e)
    ensures forall e | e in g.log :: EntryLawful(g, e)
  {
    forall e | e in g.log ensures EntryLawful(g, e) {
      if e in h.log {
        assert EntryLawful(h, e);
      }
    }
  }

  lemma PutKeepsTurnsLogged(h: Hub, k: nat, i: Item, es: seq<Entry>)
    requires Indexed(h) && TurnsLogged(h) && LegalPut(h, k, i, es)
    ensures TurnsLogged(Put(h, k, i, es))
  {
    var g := Put(h, k, i, es);
    NumbersKept(h.log, es, i.out.id, h.policy.maxTurns);
    forall e | e in es ensures EntryLawful(g, e) {
      assert About(e, i.out.id);
    }
    EntriesKept(h, g, es);
  }

  // ---------- the order of hand-outs ----------

  lemma TouchedGrows(log: seq<Entry>, es: seq<Entry>, id: Id)
    requires Touched(log, id)
    ensures Touched(log + es, id)
  {
    var n :| 0 <= n < |log| && Touches(log[n], id);
    assert (log + es)[n] == log[n];
  }

  lemma TouchedNow(log: seq<Entry>, e: Entry, id: Id)
    requires Touches(e, id)
    ensures Touched(log + [e], id)
  {
    assert (log + [e])[|log|] == e;
  }

  /** What a phase says about it. */
  predicate PhaseTouched(p: Phase) {
    p.Out? || (p.Waiting? && p.requeued) || p == Settled(true)
  }

  lemma {:induction false} TouchedByPhase(log: seq<Entry>, id: Id)
    ensures PhaseTouched(PhaseIn(log, id)) ==> Touched(log, id)
    decreases |log|
  {
    if log != [] {
      var front, e := log[..|log| - 1], log[|log| - 1];
      assert log == front + [e];
      TouchedByPhase(front, id);
      if Touched(front, id) {
        TouchedGrows(front, [e], id);
      }
      if Touches(e, id) {
        TouchedNow(front, e, id);
      }
    }
  }

  lemma ItemTouched(h: Hub, k: nat)
    requires Indexed(h) && Traced(h) && Budgeted(h) && k < |h.items| && !NeverHanded(h.items[k])
    ensures Touched(h.log, h.items[k].out.id)
  {
    var id := h.items[k].out.id;
    assert TurnLawful(h.items[k], h.policy.maxTurns) && HostOrDelivered(h.items[k]) && h.byId[id] == Listed(k);
    assert PhaseIn(h.log, id) == Expected(h, id);
    TouchedByPhase(h.log, id);
  }

  /** No hand-out of an id the journal does not know. */
  lemma {:induction false} UnknownIsUnhanded(log: seq<Entry>, id: Id, n: nat)
    requires PhaseIn(log, id) == Unknown
    ensures !HandedAt(log, n, id)
    decreases |log|
  {
    if log != [] && n < |log| - 1 {
      UnknownIsUnhanded(log[..|log| - 1], id, n);
    }
  }

  lemma HandedAfterKept(log: seq<Entry>, es: seq<Entry>, earlier: Id, later: Id)
    requires HandedAfter(log, earlier, later) && forall e | e in es && e.Handed? :: e.id != later
    ensures HandedAfter(log + es, earlier, later)
  {
    forall n: nat | HandedAt(log + es, n, later) ensures Touched((log + es)[..n], earlier) {
      if n < |log| {
        assert HandedAt(log, n, later);
        assert (log + es)[..n] == log[..n];
      }
    }
  }

  lemma HandedAfterNext(log: seq<Entry>, e: Entry, earlier: Id, later: Id)
    requires HandedAfter(log, earlier, later) && Touched(log, earlier)
    ensures HandedAfter(log + [e], earlier, later)
  {
    forall n: nat | HandedAt(log + [e], n, later) ensures Touched((log + [e])[..n], earlier) {
      if n < |log| {
        assert HandedAt(log, n, later);
        assert (log + [e])[..n] == log[..n];
      } else {
        assert (log + [e])[..n] == log;
      }
    }
  }

  lemma OthersUnhanded(es: seq<Entry>, own: Id, maxTurns: nat, id: Id)
    requires Concerns(es, own, maxTurns) && id != own
    ensures forall e | e in es && e.Handed? :: e.id != id
  {
    forall e | e in es && e.Handed? ensures e.id != id {
      assert About(e, own);
    }
  }

  lemma PutKeepsPair(h: Hub, k: nat, i: Item, es: seq<Entry>, x: nat, y: nat)
    requires Indexed(h) && Traced(h) && Budgeted(h) && InOrder(h) && LegalPut(h, k, i, es)
    requires x < y < |h.items| && Rivals(h.items[x], h.items[y])
    ensures HandedAfter(h.log + es, h.items[x].out.id, h.items[y].out.id)
  {
    var a, b := h.items[x].out.id, h.items[y].out.id;
    assert h.byId[b] == Listed(y) && h.byId[i.out.id] == Listed(k);
    if y != k {
      OthersUnhanded(es, i.out.id, h.policy.maxTurns, b);
      HandedAfterKept(h.log, es, a, b);
    } else if e :| e in es && e.Handed? {
      ItemTouched(h, x);
      HandedAfterNext(h.log, e, a, b);
    } else {
      HandedAfterKept(h.log, es, a, b);
    }
  }

  lemma PutKeepsInOrder(h: Hub, k: nat, i: Item, es: seq<Entry>)
    requires Indexed(h) && Traced(h) && Budgeted(h) && InOrder(h) && LegalPut(h, k, i, es)
    ensures InOrder(Put(h, k, i, es))
  {
    var g := Put(h, k, i, es);
    forall x, y | 0 <= x < y < |g.items| && Rivals(g.items[x], g.items[y])
      ensures HandedAfter(g.log, g.items[x].out.id, g.items[y].out.id)
    {
      PutKeepsPair(h, k, i, es, x, y);
    }
  }

  lemma {:induction false} CountPut(items: seq<Item>, k: nat, i: Item)
    requires k < |items| && (NeverHanded(i) ==> NeverHanded(items[k]))
    ensures NeverHandedCount(items[k := i]) <= NeverHandedCount(items)
    decreases |items|
  {
    var n := |items| - 1;
    if k == n {
      assert items[k := i][..n] == items[..n];
    } else {
      assert items[k := i][..n] == items[..n][k := i];
      CountPut(items[..n], k, i);
    }
  }

  lemma PutKeepsInv(h: Hub, k: nat, i: Item, es: seq<Entry>)
    requires Inv(h) && LegalPut(h, k, i, es)
    ensures Inv(Put(h, k, i, es))
  {
    PutKeepsIndexed(h, k, i, es);
    PutKeepsTraced(h, k, i, es);
    PutKeepsTurnsLogged(h, k, i, es);
    PutKeepsInOrder(h, k, i, es);
    CountPut(h.items, k, i);
  }

  /** The same for a loop that has got as far as `l`. */
  lemma EditKeepsInv(h: Hub, l: Lines, k: nat, i: Item, es: seq<Entry>)
    requires Inv(With(h, l)) && LegalPut(With(h, l), k, i, es)
    ensures Inv(With(h, Edit(l, k, i, es)))
  {
    PutKeepsInv(With(h, l), k, i, es);
  }

  // ---------- appending one item ----------

  /** `from`: what the journal already says of the id; only the instruction has any history here. */
  predicate LegalAppend(h: Hub, i: Item, es: seq<Entry>) {
    && Concerns(es, i.out.id, h.policy.maxTurns)
    && Fold(Expected(h, i.out.id), es, i.out.id) == PhaseOf(i)
    && TurnLawful(i, h.policy.maxTurns) && HostOrDelivered(i)
    && (i.origin == Sent ==> i.out.turn == 0 && forall e | e in es :: !e.Handed?)
    && (NeverHanded(i) ==> NeverHandedCount(h.items) < h.policy.maxPending)
  }

  lemma AppendKeepsIndexed(h: Hub, i: Item, es: seq<Entry>)
    requires Indexed(h) && i.out.id !in h.byId
    ensures Indexed(Append(h, i, es))
  {
    var g := Append(h, i, es);
    forall id | id in g.byId ensures Resolves(g, id) {
      assert id in h.byId ==> Resolves(h, id);
    }
    assert h.wrapUp.Some? ==> NoticeIndexed(h, h.wrapUp.value);
  }

  lemma AppendKeepsTraced(h: Hub, i: Item, es: seq<Entry>)
    requires Indexed(h) && Traced(h) && LegalAppend(h, i, es)
    ensures Traced(Append(h, i, es))
  {
    var g := Append(h, i, es);
    forall id: Id ensures PhaseIn(g.log, id) == Expected(g, id) {
      assert PhaseIn(h.log, id) == Expected(h, id);
      if id == i.out.id {
        FoldAppend(Unknown, h.log, es, id);
      } else {
        LogGrows(h.log, es, id, i.out.id, h.policy.maxTurns);
        assert id in h.byId ==> Resolves(h, id);
      }
    }
  }

  predicate NotListed(h: Hub, id: Id) {
    id in h.byId ==> h.byId[id] == WrapUp
  }

  lemma AppendKeepsDelivered(h: Hub, i: Item, es: seq<Entry>, id: Id, turn: nat)
    requires NotListed(h, i.out.id) && DeliveredThen(h, id, turn)
    ensures DeliveredThen(Append(h, i, es), id, turn)
  {
  }

  lemma AppendKeepsTurnsLogged(h: Hub, i: Item, es: seq<Entry>)
    requires NotListed(h, i.out.id) && TurnsLogged(h) && LegalAppend(h, i, es)
    ensures TurnsLogged(Append(h, i, es))
  {
    var g := Append(h, i, es);
    NumbersKept(h.log, es, i.out.id, h.policy.maxTurns);
    forall e | e in es ensures EntryLawful(g, e) {
      assert About(e, i.out.id);
    }
    forall id, turn | DeliveredThen(h, id, turn) ensures DeliveredThen(g, id, turn) {
      AppendKeepsDelivered(h, i, es, id, turn);
    }
    EntriesKept(h, g, es);
  }

  lemma AppendKeepsPair(h: Hub, i: Item, es: seq<Entry>, x: nat, y: nat)
    requires Indexed(h) && Traced(h) && InOrder(h) && LegalAppend(h, i, es) && NotListed(h, i.out.id)
    requires i.origin == Sent ==> i.out.id !in h.byId
    requires x < y <= |h.items| && Rivals(h.items[x], if y < |h.items| then h.items[y] else i)
    ensures HandedAfter(h.log + es, h.items[x].out.id, if y < |h.items| then h.items[y].out.id else i.out.id)
  {
    if y < |h.items| {
      assert h.byId[h.items[y].out.id] == Listed(y);
      OthersUnhanded(es, i.out.id, h.policy.maxTurns, h.items[y].out.id);
      HandedAfterKept(h.log, es, h.items[x].out.id, h.items[y].out.id);
    } else {
      assert PhaseIn(h.log, i.out.id) == Expected(h, i.out.id);
      forall n: nat ensures !HandedAt(h.log, n, i.out.id) {
        UnknownIsUnhanded(h.log, i.out.id, n);
      }
      HandedAfterKept(h.log, es, h.items[x].out.id, i.out.id);
    }
  }

  lemma AppendKeepsInOrder(h: Hub, i: Item, es: seq<Entry>)
    requires Indexed(h) && Traced(h) && InOrder(h) && LegalAppend(h, i, es) && NotListed(h, i.out.id)
    requires i.origin == Sent ==> i.out.id !in h.byId
    ensures InOrder(Append(h, i, es))
  {
    var g := Append(h, i, es);
    forall x, y | 0 <= x < y < |g.items| && Rivals(g.items[x], g.items[y])
      ensures HandedAfter(g.log, g.items[x].out.id, g.items[y].out.id)
    {
      AppendKeepsPair(h, i, es, x, y);
    }
  }

  /** Entries about the instruction, or about nothing, do not hand out a listed message. */
  lemma ElsewhereKeepsInOrder(h: Hub, g: Hub, es: seq<Entry>)
    requires InOrder(h) && g.items == h.items && g.log == h.log + es
    requires forall e, k | e in es && e.Handed? && 0 <= k < |h.items| :: e.id != h.items[k].out.id
    ensures InOrder(g)
  {
    forall x, y | 0 <= x < y < |g.items| && Rivals(g.items[x], g.items[y])
      ensures HandedAfter(g.log, g.items[x].out.id, g.items[y].out.id)
    {
      HandedAfterKept(h.log, es, h.items[x].out.id, h.items[y].out.id);
    }
  }

  lemma NoticeElsewhere(h: Hub, es: seq<Entry>, id: Id)
    requires Indexed(h) && NotListed(h, id) && Concerns(es, id, h.policy.maxTurns)
    ensures forall e, k | e in es && e.Handed? && 0 <= k < |h.items| :: e.id != h.items[k].out.id
  {
    forall e, k | e in es && e.Handed? && 0 <= k < |h.items| ensures e.id != h.items[k].out.id {
      assert About(e, id) && h.byId[h.items[k].out.id] == Listed(k);
    }
  }

  lemma AppendKeepsCapped(h: Hub, i: Item, es: seq<Entry>)
    requires Capped(h) && LegalAppend(h, i, es)
    ensures Capped(Append(h, i, es))
  {
    assert (h.items + [i])[..|h.items|] == h.items;
  }

  lemma AppendKeepsInv(h: Hub, i: Item, es: seq<Entry>)
    requires Inv(h) && LegalAppend(h, i, es) && i.out.id !in h.byId
    ensures Inv(Append(h, i, es))
  {
    AppendKeepsIndexed(h, i, es);
    AppendKeepsTraced(h, i, es);
    AppendKeepsTurnsLogged(h, i, es);
    AppendKeepsInOrder(h, i, es);
    AppendKeepsCapped(h, i, es);
  }

  // ---------- the instruction ----------

  /** A change of the registered instruction that leaves it outside the items. */
  predicate LegalNotice(h: Hub, w: Item, es: seq<Entry>) {
    && h.wrapUp.Some? && h.wrapUp.value.out.id == w.out.id && w.origin == Policy && w.out.state != Delivered
    && h.wrapUp.value.out.state == Accepted
    && Concerns(es, w.out.id, h.policy.maxTurns)
    && Fold(PhaseOf(h.wrapUp.value), es, w.out.id) == PhaseOf(w)
    && TurnLawful(w, h.policy.maxTurns)
  }

  function PutNotice(h: Hub, w: Item, es: seq<Entry>): Hub {
    h.(wrapUp := Some(w), log := h.log + es)
  }

  lemma PutNoticeKeepsTraced(h: Hub, w: Item, es: seq<Entry>)
    requires Indexed(h) && Traced(h) && LegalNotice(h, w, es)
    ensures Indexed(PutNotice(h, w, es)) && Traced(PutNotice(h, w, es))
  {
    var g := PutNotice(h, w, es);
    assert NoticeIndexed(h, h.wrapUp.value);
    forall id | id in g.byId ensures Resolves(g, id) {
      assert Resolves(h, id);
    }
    forall id: Id ensures PhaseIn(g.log, id) == Expected(g, id) {
      assert PhaseIn(h.log, id) == Expected(h, id);
      if id == w.out.id {
        FoldAppend(Unknown, h.log, es, id);
      } else {
        LogGrows(h.log, es, id, w.out.id, h.policy.maxTurns);
        assert id in h.byId ==> Resolves(h, id);
      }
    }
  }

  lemma PutNoticeKeepsInv(h: Hub, w: Item, es: seq<Entry>)
    requires Inv(h) && LegalNotice(h, w, es)
    ensures Inv(PutNotice(h, w, es))
  {
    var g := PutNotice(h, w, es);
    assert NoticeIndexed(h, h.wrapUp.value);
    NoticeElsewhere(h, es, w.out.id);
    ElsewhereKeepsInOrder(h, g, es);
    PutNoticeKeepsTraced(h, w, es);
    NumbersKept(h.log, es, w.out.id, h.policy.maxTurns);
    forall e | e in es ensures EntryLawful(g, e) {
      assert About(e, w.out.id);
    }
    EntriesKept(h, g, es);
  }

  function Register(h: Hub, w: Item, es: seq<Entry>): Hub {
    h.(wrapUp := Some(w), byId := h.byId[w.out.id := WrapUp], log := h.log + es)
  }

  predicate LegalRegister(h: Hub, w: Item, es: seq<Entry>) {
    && h.wrapUp.None? && w.out.id !in h.byId && w.origin == Policy && w.out.state == Accepted && w.out.id != ""
    && w.out.id != h.start
    && Concerns(es, w.out.id, h.policy.maxTurns)
    && Fold(Unknown, es, w.out.id) == PhaseOf(w)
    && TurnLawful(w, h.policy.maxTurns)
  }

  lemma RegisterKeepsTraced(h: Hub, w: Item, es: seq<Entry>)
    requires Indexed(h) && Traced(h) && LegalRegister(h, w, es)
    ensures Indexed(Register(h, w, es)) && Traced(Register(h, w, es))
  {
    var g := Register(h, w, es);
    forall id | id in g.byId ensures Resolves(g, id) {
      assert id in h.byId ==> Resolves(h, id);
    }
    forall id: Id ensures PhaseIn(g.log, id) == Expected(g, id) {
      assert PhaseIn(h.log, id) == Expected(h, id);
      if id == w.out.id {
        FoldAppend(Unknown, h.log, es, id);
      } else {
        LogGrows(h.log, es, id, w.out.id, h.policy.maxTurns);
        assert id in h.byId ==> Resolves(h, id);
      }
    }
  }

  lemma RegisterKeepsInv(h: Hub, w: Item, es: seq<Entry>)
    requires Inv(h) && LegalRegister(h, w, es)
    ensures Inv(Register(h, w, es))
  {
    var g := Register(h, w, es);
    RegisterKeepsTraced(h, w, es);
    NoticeElsewhere(h, es, w.out.id);
    ElsewhereKeepsInOrder(h, g, es);
    NumbersKept(h.log, es, w.out.id, h.policy.maxTurns);
    forall e | e in es ensures EntryLawful(g, e) {
      assert About(e, w.out.id);
    }
    EntriesKept(h, g, es);
  }

  function ListNotice(h: Hub, w: Item, es: seq<Entry>): Hub {
    Append(h, w, es).(wrapUp := Some(w))
  }

  predicate LegalListing(h: Hub, w: Item, es: seq<Entry>) {
    && h.wrapUp.Some? && h.wrapUp.value.out.id == w.out.id && w.origin == Policy && w.out.state == Delivered
    && h.wrapUp.value.out.state == Accepted
  }

  lemma ListNoticeKeepsIndexed(h: Hub, w: Item, es: seq<Entry>)
    requires Indexed(h) && LegalListing(h, w, es)
    ensures Indexed(ListNotice(h, w, es))
    ensures h.byId[w.out.id] == WrapUp
  {
    var g := ListNotice(h, w, es);
    assert NoticeIndexed(h, h.wrapUp.value);
    forall id | id in g.byId ensures Resolves(g, id) {
      assert id in h.byId ==> Resolves(h, id);
    }
  }

  lemma ListNoticeKeepsTraced(h: Hub, w: Item, es: seq<Entry>)
    requires Indexed(h) && Traced(h) && LegalListing(h, w, es) && LegalAppend(h, w, es)
    ensures Traced(ListNotice(h, w, es))
  {
    var a, g := Append(h, w, es), ListNotice(h, w, es);
    AppendKeepsTraced(h, w, es);
    ListNoticeKeepsIndexed(h, w, es);
    forall id: Id ensures PhaseIn(g.log, id) == Expected(g, id) {
      assert PhaseIn(a.log, id) == Expected(a, id);
      assert id in h.byId ==> Resolves(h, id);
    }
  }

  lemma ListNoticeKeepsTurnsLogged(h: Hub, w: Item, es: seq<Entry>)
    requires NotListed(h, w.out.id) && TurnsLogged(h) && LegalAppend(h, w, es)
    ensures TurnsLogged(ListNotice(h, w, es))
  {
    var a, g := Append(h, w, es), ListNotice(h, w, es);
    AppendKeepsTurnsLogged(h, w, es);
    assert a.log + [] == g.log;
    EntriesKept(a, g, []);
  }

  lemma ListNoticeKeepsRest(h: Hub, w: Item, es: seq<Entry>)
    requires Indexed(h) && Traced(h) && Budgeted(h) && InOrder(h) && Capped(h) && LegalListing(h, w, es) && LegalAppend(h, w, es)
    ensures Budgeted(ListNotice(h, w, es)) && InOrder(ListNotice(h, w, es)) && Capped(ListNotice(h, w, es))
  {
    ListNoticeKeepsIndexed(h, w, es);
    AppendKeepsInOrder(h, w, es);
    AppendKeepsCapped(h, w, es);
  }

  lemma ListNoticeKeepsInv(h: Hub, w: Item, es: seq<Entry>)
    requires Inv(h) && LegalListing(h, w, es) && LegalAppend(h, w, es)
    ensures Inv(ListNotice(h, w, es))
  {
    ListNoticeKeepsIndexed(h, w, es);
    ListNoticeKeepsTraced(h, w, es);
    ListNoticeKeepsTurnsLogged(h, w, es);
    ListNoticeKeepsRest(h, w, es);
  }

  // ---------- fields outside the invariant ----------

  predicate SameCore(h: Hub, g: Hub) {
    && g.policy == h.policy && g.items == h.items && g.byId == h.byId && g.turn == h.turn && g.turns == h.turns
    && g.wrapUp == h.wrapUp && g.limitId == h.limitId && g.start == h.start && g.log == h.log
  }

  lemma SameCoreKeepsInv(h: Hub, g: Hub)
    requires Inv(h) && SameCore(h, g)
    ensures Inv(g)
  {
    forall id | id in g.byId ensures Resolves(g, id) {
      assert Resolves(h, id);
    }
    assert h.wrapUp.Some? ==> NoticeIndexed(h, h.wrapUp.value);
    forall id: Id ensures PhaseIn(g.log, id) == Expected(g, id) {
      assert PhaseIn(h.log, id) == Expected(h, id);
    }
    assert h.log + [] == g.log;
    EntriesKept(h, g, []);
  }
}
