/**
  claude/usage.go: token accounting of one streamed run. Assistant snapshots are cumulative within a
  message and may repeat or omit fields; the terminal result reports the whole loop.
*/
module ClaudeUsage {
  import opened Common
  import opened Compose

  const ZERO := Usage(0, 0, 0, 0)

  function Minus(a: Usage, b: Usage): Usage {
    Usage(a.input - b.input, a.output - b.output, a.cached - b.cached, a.cost - b.cost)
  }

  /** One assistant block: its message id, possibly empty, and the counters it reports. */
  datatype Snapshot = Snapshot(id: string, input: Option<int>, output: Option<int>, cached: Option<int>)

  predicate Observes(s: Snapshot) {
    s.input.Some? || s.output.Some? || s.cached.Some?
  }

  function Overlay(u: Usage, s: Snapshot): Usage {
    Usage(if s.input.Some? then s.input.value else u.input, if s.output.Some? then s.output.value else u.output,
          if s.cached.Some? then s.cached.value else u.cached, u.cost)
  }

  // ---------- reference: the latest value of each message, plus the anonymous blocks ----------

  /** A history, latest last. */
  datatype List<T> = Nil | Snoc(front: List<T>, last: T)

  function Latest(snaps: List<Snapshot>, id: string): Usage {
    match snaps
    case Nil => ZERO
    case Snoc(front, s) => if s.id == id then Overlay(Latest(front, id), s) else Latest(front, id)
  }

  predicate Has(ids: List<string>, id: string) {
    match ids
    case Nil => false
    case Snoc(front, x) => x == id || Has(front, id)
  }

  /** The ids of observed messages, each once, by first appearance. */
  function Ids(snaps: List<Snapshot>): List<string> {
    match snaps
    case Nil => Nil
    case Snoc(front, s) => if s.id == "" || !Observes(s) || Has(Ids(front), s.id) then Ids(front) else Snoc(Ids(front), s.id)
  }

  function SumLatest(snaps: List<Snapshot>, ids: List<string>): Usage {
    match ids
    case Nil => ZERO
    case Snoc(front, id) => Sum(SumLatest(snaps, front), Latest(snaps, id))
  }

  function SumAnonymous(snaps: List<Snapshot>): Usage {
    match snaps
    case Nil => ZERO
    case Snoc(front, s) => if s.id == "" then Sum(SumAnonymous(front), Overlay(ZERO, s)) else SumAnonymous(front)
  }

  predicate AnyObserved(snaps: List<Snapshot>) {
    match snaps
    case Nil => false
    case Snoc(front, s) => Observes(s) || AnyObserved(front)
  }

  function Everything(snaps: List<Snapshot>): Usage {
    Sum(SumLatest(snaps, Ids(snaps)), SumAnonymous(snaps))
  }

  /** Nil exactly if nothing was observed. */
  function TurnTotal(snaps: List<Snapshot>): Option<Usage> {
    if AnyObserved(snaps) then Some(Everything(snaps)) else None
  }

  // ---------- the running delta agrees with it ----------

  predicate Distinct(ids: List<string>) {
    match ids
    case Nil => true
    case Snoc(front, id) => !Has(front, id) && Distinct(front)
  }

  lemma {:induction false} IdsDistinct(snaps: List<Snapshot>)
    ensures Distinct(Ids(snaps)) && !Has(Ids(snaps), "")
  {
    if snaps.Snoc? {
      IdsDistinct(snaps.front);
    }
  }

  lemma {:induction false} LatestUnseen(snaps: List<Snapshot>, id: string)
    requires id != "" && !Has(Ids(snaps), id)
    ensures Latest(snaps, id) == ZERO
  {
    if snaps.Snoc? {
      LatestUnseen(snaps.front, id);
    }
  }

  lemma SumMinus(a: Usage, x: Usage, y: Usage)
    ensures Sum(a, x) == Sum(Sum(a, y), Minus(x, y))
  {
  }

  lemma SumShift(a: Usage, gain: Usage, x: Usage)
    ensures Sum(Sum(a, gain), x) == Sum(Sum(a, x), gain)
  {
  }

  lemma LatestAfter(snaps: List<Snapshot>, s: Snapshot, id: string)
    ensures Latest(Snoc(snaps, s), id) == if s.id == id then Overlay(Latest(snaps, id), s) else Latest(snaps, id)
  {
  }

  /** One more snapshot of `s.id` moves the sum by what that message gained, wherever it stands. */
  lemma {:induction false} SumMoves(snaps: List<Snapshot>, s: Snapshot, ids: List<string>, gain: Usage)
    requires Distinct(ids) && gain == Minus(Overlay(Latest(snaps, s.id), s), Latest(snaps, s.id))
    ensures SumLatest(Snoc(snaps, s), ids) == if Has(ids, s.id) then Sum(SumLatest(snaps, ids), gain) else SumLatest(snaps, ids)
    decreases ids
  {
    match ids
    case Nil =>
    case Snoc(front, id) =>
      SumMoves(snaps, s, front, gain);
      LatestAfter(snaps, s, id);
      var before := SumLatest(snaps, front);
      if id == s.id {
        SumMinus(before, Overlay(Latest(snaps, id), s), Latest(snaps, id));
      } else {
        SumShift(before, gain, Latest(snaps, id));
      }
  }

  function Moved(snaps: List<Snapshot>, s: Snapshot): Usage {
    Minus(Overlay(Latest(snaps, s.id), s), Latest(snaps, s.id))
  }

  /** What one snapshot adds to the turn. */
  function Gain(snaps: List<Snapshot>, s: Snapshot): Usage {
    var previous := if s.id == "" then ZERO else Latest(snaps, s.id);
    Minus(Overlay(previous, s), previous)
  }

  lemma NamedGain(snaps: List<Snapshot>, s: Snapshot)
    requires Observes(s) && s.id != ""
    ensures SumLatest(Snoc(snaps, s), Ids(Snoc(snaps, s))) == Sum(SumLatest(snaps, Ids(snaps)), Gain(snaps, s))
    ensures SumAnonymous(Snoc(snaps, s)) == SumAnonymous(snaps)
  {
    IdsDistinct(snaps);
    SumMoves(snaps, s, Ids(snaps), Moved(snaps, s));
    if !Has(Ids(snaps), s.id) {
      LatestUnseen(snaps, s.id);
    }
  }

  lemma AnonymousGain(snaps: List<Snapshot>, s: Snapshot)
    requires s.id == ""
    ensures SumLatest(Snoc(snaps, s), Ids(Snoc(snaps, s))) == SumLatest(snaps, Ids(snaps))
    ensures SumAnonymous(Snoc(snaps, s)) == Sum(SumAnonymous(snaps), Gain(snaps, s))
  {
    IdsDistinct(snaps);
    SumMoves(snaps, s, Ids(snaps), Moved(snaps, s));
  }

  lemma Shuffle(a: Usage, b: Usage, gain: Usage)
    ensures Sum(Sum(a, gain), b) == Sum(Sum(a, b), gain) && Sum(a, Sum(b, gain)) == Sum(Sum(a, b), gain)
  {
  }

  lemma EverythingGains(snaps: List<Snapshot>, s: Snapshot)
    requires Observes(s)
    ensures Everything(Snoc(snaps, s)) == Sum(Everything(snaps), Gain(snaps, s))
  {
    Shuffle(SumLatest(snaps, Ids(snaps)), SumAnonymous(snaps), Gain(snaps, s));
    if s.id == "" {
      AnonymousGain(snaps, s);
    } else {
      NamedGain(snaps, s);
    }
  }

  lemma {:induction false} NothingObserved(snaps: List<Snapshot>)
    requires !AnyObserved(snaps)
    ensures Ids(snaps) == Nil && SumAnonymous(snaps) == ZERO
  {
    if snaps.Snoc? {
      NothingObserved(snaps.front);
    }
  }

  lemma SumOfNone(snaps: List<Snapshot>, ids: List<string>)
    requires ids == Nil
    ensures SumLatest(snaps, ids) == ZERO
  {
  }

  lemma NothingIsZero(snaps: List<Snapshot>)
    requires !AnyObserved(snaps)
    ensures Everything(snaps) == ZERO
  {
    NothingObserved(snaps);
    SumOfNone(snaps, Ids(snaps));
  }

  lemma NilCountsAsZero(total: Option<Usage>, u: Usage, gain: Usage)
    requires total == Some(u) || (total == None && u == ZERO)
    ensures AddUsage(total, Some(gain)) == Some(Sum(u, gain))
  {
  }

  lemma TotalOrZero(snaps: List<Snapshot>)
    ensures TurnTotal(snaps) == Some(Everything(snaps)) || (TurnTotal(snaps) == None && Everything(snaps) == ZERO)
  {
    if !AnyObserved(snaps) {
      NothingIsZero(snaps);
    }
  }

  lemma TotalAfter(snaps: List<Snapshot>, s: Snapshot)
    requires Observes(s)
    ensures TurnTotal(Snoc(snaps, s)) == Some(Everything(Snoc(snaps, s)))
  {
  }

  /** The turn's total after one more observation: the old one, nil counting as zero, plus the gain. */
  lemma TurnTotalGains(snaps: List<Snapshot>, s: Snapshot)
    requires Observes(s)
    ensures TurnTotal(Snoc(snaps, s)) == AddUsage(TurnTotal(snaps), Some(Gain(snaps, s)))
  {
    TotalOrZero(snaps);
    TotalAfter(snaps, s);
    EverythingGains(snaps, s);
    NilCountsAsZero(TurnTotal(snaps), Everything(snaps), Gain(snaps, s));
  }

  lemma SilentSnapshot(snaps: List<Snapshot>, s: Snapshot)
    requires !Observes(s)
    ensures TurnTotal(Snoc(snaps, s)) == TurnTotal(snaps)
  {
    IdsDistinct(snaps);
    SumMoves(snaps, s, Ids(snaps), Moved(snaps, s));
  }

  // ---------- turns and the terminal aggregate ----------

  function SumEmitted(emitted: seq<Option<Usage>>): Option<Usage> {
    if emitted == [] then None else AddUsage(SumEmitted(emitted[..|emitted| - 1]), emitted[|emitted| - 1])
  }

  predicate Dominates(total: Usage, completed: Option<Usage>) {
    completed.Some? ==>
      var d := Minus(total, completed.value);
      d.input >= 0 && d.output >= 0 && d.cached >= 0 && d.cost >= 0
  }

  function FinalUsage(usage: Option<Usage>, completed: Option<Usage>, turn: Option<Usage>): Option<Usage> {
    if usage.None? then turn
    else if completed.None? then usage
    else if Dominates(usage.value, completed) then Some(Minus(usage.value, completed.value))
    else turn
  }

  /**
    The turns sum exactly to the reported aggregate if it dominates what was completed before; if it
    does not, they do only if the last turn's own observations happen to bring them there.
  */
  lemma TurnsTelescope(emitted: seq<Option<Usage>>, usage: Usage, turn: Option<Usage>)
    ensures var completed := SumEmitted(emitted);
            SumEmitted(emitted + [FinalUsage(Some(usage), completed, turn)]) == Some(usage) <==>
            Dominates(usage, completed) || AddUsage(completed, turn) == Some(usage)
  {
    var last := FinalUsage(Some(usage), SumEmitted(emitted), turn);
    assert (emitted + [last])[..|emitted|] == emitted;
  }

  predicate IsNatural(u: Usage) {
    u.input >= 0 && u.output >= 0 && u.cached >= 0 && u.cost >= 0
  }

  /** Every counter that a snapshot reports is a count. */
  predicate CountsOnly(snaps: List<Snapshot>) {
    match snaps
    case Nil => true
    case Snoc(front, s) => IsNatural(Overlay(ZERO, s)) && CountsOnly(front)
  }

  lemma {:induction false} LatestIsNatural(snaps: List<Snapshot>, id: string)
    requires CountsOnly(snaps)
    ensures IsNatural(Latest(snaps, id))
  {
    if snaps.Snoc? {
      LatestIsNatural(snaps.front, id);
    }
  }

  lemma {:induction false} SumIsNatural(snaps: List<Snapshot>, ids: List<string>)
    requires CountsOnly(snaps)
    ensures IsNatural(SumLatest(snaps, ids))
    decreases ids
  {
    if ids.Snoc? {
      SumIsNatural(snaps, ids.front);
      LatestIsNatural(snaps, ids.last);
    }
  }

  lemma {:induction false} AnonymousIsNatural(snaps: List<Snapshot>)
    requires CountsOnly(snaps)
    ensures IsNatural(SumAnonymous(snaps))
  {
    if snaps.Snoc? {
      AnonymousIsNatural(snaps.front);
    }
  }

  /** If the last turn's snapshots report counts, the turns sum to the aggregate exactly if it dominates. */
  lemma TurnsSumExactly(emitted: seq<Option<Usage>>, usage: Usage, snaps: List<Snapshot>)
    requires CountsOnly(snaps)
    ensures var completed := SumEmitted(emitted);
            SumEmitted(emitted + [FinalUsage(Some(usage), completed, TurnTotal(snaps))]) == Some(usage) <==> Dominates(usage, completed)
  {
    TurnsTelescope(emitted, usage, TurnTotal(snaps));
    SumIsNatural(snaps, Ids(snaps));
    AnonymousIsNatural(snaps);
  }

  /** The map holds the latest value of every message observed in this turn. */
  ghost predicate Remembers(m: map<string, Usage>, snaps: List<Snapshot>) {
    && "" !in m && (forall id | id in m :: m[id] == Latest(snaps, id))
    && (forall id | id != "" && id !in m :: !Has(Ids(snaps), id))
  }

  /** The value found for a snapshot's message, zero if there is none. */
  function Previous(m: map<string, Usage>, id: string): Usage {
    if id != "" && id in m then m[id] else ZERO
  }

  lemma PreviousIsLatest(m: map<string, Usage>, snaps: List<Snapshot>, s: Snapshot)
    requires Remembers(m, snaps)
    ensures Minus(Overlay(Previous(m, s.id), s), Previous(m, s.id)) == Gain(snaps, s)
    ensures s.id != "" ==> Previous(m, s.id) == Latest(snaps, s.id)
  {
    if s.id != "" && s.id !in m {
      LatestUnseen(snaps, s.id);
    }
  }

  lemma RemembersNext(m: map<string, Usage>, snaps: List<Snapshot>, s: Snapshot)
    requires Remembers(m, snaps)
    ensures Remembers(if s.id == "" || !Observes(s) then m else m[s.id := Overlay(Previous(m, s.id), s)], Snoc(snaps, s))
  {
    PreviousIsLatest(m, snaps, s);
  }

  /** What a terminal result reports, field by field. */
  datatype Terminal = Terminal(input: Option<int>, output: Option<int>, cached: Option<int>)

  predicate ReportsUsage(t: Terminal) {
    t.input.Some? || t.output.Some? || t.cached.Some?
  }

  /** A reported field is the terminal's, any other the known value, and without either nothing is known. */
  predicate Reconciles(known: Option<Usage>, t: Terminal, u: Option<Usage>) {
    && (u.None? <==> known.None? && !ReportsUsage(t))
    && (u.Some? ==>
          var base := if known.Some? then known.value else ZERO;
          && u.value.input == (if t.input.Some? then t.input.value else base.input)
          && u.value.output == (if t.output.Some? then t.output.value else base.output)
          && u.value.cached == (if t.cached.Some? then t.cached.value else base.cached)
          && u.value.cost == base.cost)
  }

  class UsageTracker {
    var turnMessageUsage: map<string, Usage>
    var turnUsage: Option<Usage>
    var completedUsage: Option<Usage>
    var usage: Option<Usage>
    var turnComplete: bool
    var turnIndex: nat
    ghost var snaps: List<Snapshot>
    ghost var emitted: seq<Option<Usage>>

    ghost predicate Valid()
      reads this
    {
      && turnUsage == TurnTotal(snaps)
      && completedUsage == SumEmitted(emitted) && turnIndex == |emitted|
      && Remembers(turnMessageUsage, snaps)
    }

    constructor ()
      ensures Valid() && snaps == Nil && emitted == [] && usage == None && !turnComplete
    {
      turnMessageUsage, turnUsage, completedUsage, usage := map[], None, None, None;
      turnComplete, turnIndex, snaps, emitted := false, 0, Nil, [];
    }

    method ObserveAssistantUsage(s: Snapshot)
      requires Valid()
      modifies this`turnMessageUsage, this`turnUsage, this`snaps
      ensures Valid() && snaps == Snoc(old(snaps), s) && turnUsage == TurnTotal(snaps)
    {
      RemembersNext(turnMessageUsage, snaps, s);
      if !Observes(s) {
        SilentSnapshot(snaps, s);
        snaps := Snoc(snaps, s);
        return;
      }
      PreviousIsLatest(turnMessageUsage, snaps, s);
      TurnTotalGains(snaps, s);
      var previous := Previous(turnMessageUsage, s.id);
      var current := Overlay(previous, s);
      if s.id != "" {
        turnMessageUsage := turnMessageUsage[s.id := current];
      }
      turnUsage := AddUsage(turnUsage, Some(Minus(current, previous)));
      snaps := Snoc(snaps, s);
    }

    method EnsureAggregateUsage()
      modifies this`usage
      ensures usage == if old(usage).Some? then old(usage) else AddUsage(completedUsage, turnUsage)
    {
      if usage.None? {
        usage := AddUsage(completedUsage, turnUsage);
      }
    }

    method EmitTurnCompleted(u: Option<Usage>)
      requires Valid()
      modifies this`turnComplete, this`turnIndex, this`completedUsage, this`turnUsage, this`turnMessageUsage, this`snaps, this`emitted
      ensures Valid() && turnComplete
      ensures old(turnComplete) ==> emitted == old(emitted) && snaps == old(snaps)
      ensures !old(turnComplete) ==> emitted == old(emitted) + [u] && snaps == Nil
    {
      if turnComplete {
        return;
      }
      turnComplete, turnIndex := true, turnIndex + 1;
      completedUsage := AddUsage(completedUsage, u);
      assert (emitted + [u])[..|emitted|] == emitted;
      emitted := emitted + [u];
      turnUsage, turnMessageUsage, snaps := None, map[], Nil;
    }

    /** The terminal result overrides the fields it reports and closes the last turn. */
    method HandleTerminal(t: Terminal)
      requires Valid()
      modifies this
      ensures Valid() && turnComplete && |emitted| == |old(emitted)| + 1 && emitted[..|old(emitted)|] == old(emitted)
      ensures Reconciles(if old(usage).Some? then old(usage) else AddUsage(SumEmitted(old(emitted)), TurnTotal(old(snaps))), t, usage)
      ensures usage.Some? ==>
                (SumEmitted(emitted) == usage <==>
                 Dominates(usage.value, SumEmitted(old(emitted))) || AddUsage(SumEmitted(old(emitted)), TurnTotal(old(snaps))) == usage)
      ensures usage.Some? && CountsOnly(old(snaps)) ==> (SumEmitted(emitted) == usage <==> Dominates(usage.value, SumEmitted(old(emitted))))
      ensures usage.None? ==> SumEmitted(emitted) == None
    {
      EnsureAggregateUsage();
      if ReportsUsage(t) {
        var u := if usage.Some? then usage.value else ZERO;
        usage := Some(Overlay(u, Snapshot("", t.input, t.output, t.cached)));
      }
      var last := FinalUsage(usage, completedUsage, turnUsage);
      if usage.Some? {
        TurnsTelescope(emitted, usage.value, turnUsage);
        if CountsOnly(snaps) {
          TurnsSumExactly(emitted, usage.value, snaps);
        }
      }
      turnComplete := false;
      assert (emitted + [last])[..|emitted|] == emitted;
      EmitTurnCompleted(last);
    }
  }
}
