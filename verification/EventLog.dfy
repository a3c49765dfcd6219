/**
  event_broker.go, the loss accounting: what a sequence of stamped events, the events published so
  far and the aggregate of pending drops have to do with one another. Nothing here knows about
  channels, queues or the pump; EventBroker.dfy shows that they amount to one such sequence.
*/
module EventLog {
  import opened Common

  type Kind = string

  /** events.go: eventCritical, else eventMayDrop, else neither. */
  datatype Weight = Critical | Reliable | Delta

  datatype DropReport = DropReport(count: nat, byKind: multiset<Kind>, first: nat, last: nat, source: string)

  /** `body` says which of its publisher's payloads the event carries. */
  datatype Event = Event(number: nat, kind: Kind, weight: Weight, report: Option<DropReport>, body: nat)

  const SDK_SOURCE := "sdk.event_broker"

  /** The broker's own drop marker; a provider's loss report keeps its own source. */
  predicate IsMarker(e: Event) {
    e.report.Some? && e.report.value.source == SDK_SOURCE
  }

  datatype Aggregate = Aggregate(count: nat, byKind: multiset<Kind>, first: nat, last: nat)

  const NO_DROPS := Aggregate(0, multiset{}, 0, 0)

  function RecordDrop(d: Aggregate, e: Event): Aggregate {
    Aggregate(d.count + 1, d.byKind + multiset{e.kind},
              if d.count == 0 || e.number < d.first then e.number else d.first,
              if e.number > d.last then e.number else d.last)
  }

  function MergeDrops(d: Aggregate, r: DropReport): Aggregate {
    if r.count == 0 then d
    else Aggregate(d.count + r.count, d.byKind + r.byKind,
                   if d.count == 0 || r.first < d.first then r.first else d.first,
                   if r.last > d.last then r.last else d.last)
  }

  function Marker(d: Aggregate, number: nat): (e: Event)
    ensures IsMarker(e) && e.number == number
  {
    Event(number, "dropped", Critical, Some(DropReport(d.count, d.byKind, d.first, d.last, SDK_SOURCE)), 0)
  }

  // ---------- pruneUnobservedLocked ----------

  datatype Sift = Sift(queue: seq<Event>, dropped: Aggregate, kept: nat)

  function SiftOne(s: Sift, e: Event, keepOrdinary: bool, capacity: nat): Sift {
    if IsMarker(e) then s.(dropped := MergeDrops(s.dropped, e.report.value))
    else if e.weight == Critical then s.(queue := s.queue + [e])
    else if keepOrdinary && s.kept < capacity then s.(queue := s.queue + [e], kept := s.kept + 1)
    else s.(dropped := RecordDrop(s.dropped, e))
  }

  function SiftAll(pending: seq<Event>, dropped: Aggregate, keepOrdinary: bool, capacity: nat): Sift {
    if pending == [] then Sift([], dropped, 0)
    else
      var n := |pending| - 1;
      SiftOne(SiftAll(pending[..n], dropped, keepOrdinary, capacity), pending[n], keepOrdinary, capacity)
  }

  // ---------- the accounts ----------

  function HostKinds(s: seq<Event>): multiset<Kind> {
    if s == [] then multiset{}
    else
      var n := |s| - 1;
      HostKinds(s[..n]) + (if IsMarker(s[n]) then multiset{} else multiset{s[n].kind})
  }

  function MarkerKinds(s: seq<Event>): multiset<Kind> {
    if s == [] then multiset{}
    else
      var n := |s| - 1;
      MarkerKinds(s[..n]) + (if IsMarker(s[n]) then s[n].report.value.byKind else multiset{})
  }

  function Criticals(s: seq<Event>): seq<Event> {
    if s == [] then []
    else
      var n := |s| - 1;
      Criticals(s[..n]) + (if s[n].weight == Critical && !IsMarker(s[n]) then [s[n]] else [])
  }

  predicate Increasing(s: seq<Event>) {
    forall i, j | 0 <= i < j < |s| :: s[i].number < s[j].number
  }

  predicate Within(d: Aggregate, number: nat) {
    d.count > 0 && d.first <= number <= d.last
  }

  predicate Covers(e: Event, number: nat) {
    IsMarker(e) && e.report.value.first <= number <= e.report.value.last
  }

  /** A dropped sequence number lies in the range of the pending aggregate or of a marker in the log. */
  predicate Covered(log: seq<Event>, d: Aggregate, number: nat) {
    Within(d, number) || exists i :: 0 <= i < |log| && Covers(log[i], number)
  }

  predicate Sound(d: Aggregate) {
    d.count == |d.byKind| && (d.count > 0 ==> d.first <= d.last)
  }

  predicate SoundMarkers(s: seq<Event>) {
    forall e | e in s && IsMarker(e) ::
      e.report.value.count == |e.report.value.byKind| && e.report.value.count > 0 && e.report.value.first <= e.report.value.last
  }

  predicate Ordered(log: seq<Event>, published: seq<Event>, last: nat) {
    && Increasing(log) && (forall e | e in log :: 0 < e.number <= last)
    && Increasing(published) && (forall e | e in published :: 0 < e.number <= last && !IsMarker(e))
    && (forall e | e in log && !IsMarker(e) :: e in published)
  }

  predicate Balanced(log: seq<Event>, published: seq<Event>, d: Aggregate) {
    && Sound(d) && SoundMarkers(log)
    && HostKinds(published) == HostKinds(log) + MarkerKinds(log) + d.byKind
    && Criticals(published) == Criticals(log)
  }

  predicate Located(log: seq<Event>, published: seq<Event>, d: Aggregate) {
    forall e | e in published && e !in log :: Covered(log, d, e.number)
  }

  /**
    The log is in stamping order; per kind, every published event is in the log or counted by exactly
    one marker or by the pending aggregate; critical events are all in the log, in their order; and
    each missing event's number is covered.
  */
  predicate Accounts(log: seq<Event>, published: seq<Event>, d: Aggregate, last: nat) {
    Ordered(log, published, last) && Balanced(log, published, d) && Located(log, published, d)
  }

  lemma SnocMeasures(s: seq<Event>, e: Event)
    ensures HostKinds(s + [e]) == HostKinds(s) + (if IsMarker(e) then multiset{} else multiset{e.kind})
    ensures MarkerKinds(s + [e]) == MarkerKinds(s) + (if IsMarker(e) then e.report.value.byKind else multiset{})
    ensures Criticals(s + [e]) == Criticals(s) + (if e.weight == Critical && !IsMarker(e) then [e] else [])
  {
    assert (s + [e])[..|s|] == s;
  }

  lemma SnocOrdered(log: seq<Event>, published: seq<Event>, last: nat, e: Event)
    requires Ordered(log, published, last) && e.number == last + 1
    ensures IsMarker(e) ==> Ordered(log + [e], published, last + 1)
    ensures !IsMarker(e) ==> Ordered(log + [e], published + [e], last + 1) && Ordered(log, published + [e], last + 1)
  {
    assert forall x | x in log + [e] :: x in log || x == e;
    assert forall x | x in published + [e] :: x in published || x == e;
    SnocIncreasing(log, e);
    SnocIncreasing(published, e);
  }

  lemma SnocIncreasing(s: seq<Event>, e: Event)
    requires Increasing(s) && forall x | x in s :: x.number < e.number
    ensures Increasing(s + [e])
  {
  }

  lemma SnocCovered(log: seq<Event>, e: Event, d: Aggregate, d': Aggregate, number: nat)
    requires Covered(log, d, number)
    requires Within(d, number) ==> Within(d', number) || Covers(e, number)
    ensures Covered(log + [e], d', number)
  {
    if Within(d, number) {
      assert (log + [e])[|log|] == e;
    } else {
      var i :| 0 <= i < |log| && Covers(log[i], number);
      assert (log + [e])[i] == log[i];
    }
  }

  lemma SnocLocated(log: seq<Event>, published: seq<Event>, d: Aggregate, e: Event)
    requires Located(log, published, d)
    ensures Located(log + [e], published + [e], d)
  {
    forall p | p in published + [e] && p !in log + [e]
      ensures Covered(log + [e], d, p.number)
    {
      assert e in log + [e];
      assert p in published && p !in log;
      SnocCovered(log, e, d, d, p.number);
    }
  }

  lemma SnocSoundMarkers(log: seq<Event>, e: Event)
    requires SoundMarkers(log)
    requires IsMarker(e) ==> SoundMarkers([e])
    ensures SoundMarkers(log + [e])
  {
    assert e in [e];
  }

  lemma PublishBalanced(log: seq<Event>, published: seq<Event>, d: Aggregate, e: Event)
    requires Balanced(log, published, d) && !IsMarker(e)
    ensures Balanced(log + [e], published + [e], d)
  {
    SnocSoundMarkers(log, e);
    SnocMeasures(log, e);
    SnocMeasures(published, e);
    calc {
      HostKinds(published + [e]);
      HostKinds(log) + MarkerKinds(log) + d.byKind + multiset{e.kind};
      HostKinds(log + [e]) + MarkerKinds(log + [e]) + d.byKind;
    }
  }

  lemma MarkerBalanced(log: seq<Event>, published: seq<Event>, d: Aggregate, number: nat)
    requires Balanced(log, published, d) && d.count > 0
    ensures Balanced(log + [Marker(d, number)], published, NO_DROPS)
  {
    var m := Marker(d, number);
    SnocSoundMarkers(log, m);
    SnocMeasures(log, m);
    assert HostKinds(log + [m]) + MarkerKinds(log + [m]) + multiset{} == HostKinds(log) + MarkerKinds(log) + d.byKind;
  }

  lemma PublishAccounts(log: seq<Event>, published: seq<Event>, d: Aggregate, last: nat, e: Event)
    requires Accounts(log, published, d, last) && !IsMarker(e) && e.number == last + 1
    ensures Accounts(log + [e], published + [e], d, last + 1)
  {
    SnocOrdered(log, published, last, e);
    PublishBalanced(log, published, d, e);
    SnocLocated(log, published, d, e);
  }

  lemma DropLocated(log: seq<Event>, published: seq<Event>, d: Aggregate, e: Event)
    requires Located(log, published, d)
    ensures Located(log, published + [e], RecordDrop(d, e))
  {
    forall p | p in published + [e] && p !in log
      ensures Covered(log, RecordDrop(d, e), p.number)
    {
      if p != e {
        assert Covered(log, d, p.number);
      }
    }
  }

  lemma DropAccounts(log: seq<Event>, published: seq<Event>, d: Aggregate, last: nat, e: Event)
    requires Accounts(log, published, d, last) && !IsMarker(e) && e.weight != Critical && e.number == last + 1
    ensures Accounts(log, published + [e], RecordDrop(d, e), last + 1)
  {
    SnocOrdered(log, published, last, e);
    SnocMeasures(published, e);
    DropLocated(log, published, d, e);
  }

  lemma MarkerLocated(log: seq<Event>, published: seq<Event>, d: Aggregate, number: nat)
    requires Located(log, published, d)
    ensures Located(log + [Marker(d, number)], published, NO_DROPS)
  {
    var m := Marker(d, number);
    forall p | p in published && p !in log + [m]
      ensures Covered(log + [m], NO_DROPS, p.number)
    {
      assert p !in log;
      SnocCovered(log, m, d, NO_DROPS, p.number);
    }
  }

  lemma MarkerAccounts(log: seq<Event>, published: seq<Event>, d: Aggregate, last: nat)
    requires Accounts(log, published, d, last) && d.count > 0
    ensures Accounts(log + [Marker(d, last + 1)], published, NO_DROPS, last + 1)
  {
    var m := Marker(d, last + 1);
    assert Ordered(log + [m], published, last + 1) by { SnocOrdered(log, published, last, m); }
    assert Balanced(log + [m], published, NO_DROPS) by { MarkerBalanced(log, published, d, last + 1); }
    assert Located(log + [m], published, NO_DROPS) by { MarkerLocated(log, published, d, last + 1); }
  }

  // ---------- pruning keeps the accounts ----------

  /** Whatever the sifted queue lacks is within the aggregate's range. */
  ghost predicate SiftLocates(pending: seq<Event>, d: Aggregate, s: Sift) {
    && (forall number | Within(d, number) :: Within(s.dropped, number))
    && (forall e, number | e in pending && Covers(e, number) :: Within(s.dropped, number))
    && (forall e | e in pending && !IsMarker(e) && e !in s.queue :: Within(s.dropped, e.number))
  }

  predicate SiftBalances(pending: seq<Event>, d: Aggregate, s: Sift) {
    && Sound(s.dropped)
    && Total(pending) + d.byKind == Total(s.queue) + s.dropped.byKind
    && MarkerKinds(s.queue) == multiset{}
    && Criticals(pending) == Criticals(s.queue)
  }

  /** Every kind the events stand for: their own, and those a marker reports. */
  function Total(s: seq<Event>): multiset<Kind> {
    HostKinds(s) + MarkerKinds(s)
  }

  function Share(e: Event): multiset<Kind> {
    if IsMarker(e) then e.report.value.byKind else multiset{e.kind}
  }

  lemma SnocTotal(s: seq<Event>, e: Event)
    ensures Total(s + [e]) == Total(s) + Share(e)
  {
    SnocMeasures(s, e);
  }

  /** The queue is an ordered part of the pending events, without markers. */
  predicate SiftSelects(pending: seq<Event>, s: Sift) {
    Increasing(s.queue) && forall e | e in s.queue :: e in pending && !IsMarker(e)
  }

  lemma SiftOneLocates(pending: seq<Event>, d: Aggregate, s: Sift, e: Event, keepOrdinary: bool, capacity: nat)
    requires SiftLocates(pending, d, s)
    requires IsMarker(e) ==> e.report.value.count > 0
    ensures SiftLocates(pending + [e], d, SiftOne(s, e, keepOrdinary, capacity))
  {
    var s' := SiftOne(s, e, keepOrdinary, capacity);
    assert forall number | Within(s.dropped, number) :: Within(s'.dropped, number);
    assert forall x | x in s.queue :: x in s'.queue;
    forall x, number | x in pending + [e] && Covers(x, number)
      ensures Within(s'.dropped, number)
    {
      if x in pending {
        assert Within(s.dropped, number);
      }
    }
    forall x | x in pending + [e] && !IsMarker(x) && x !in s'.queue
      ensures Within(s'.dropped, x.number)
    {
      if x in pending {
        assert Within(s.dropped, x.number);
      }
    }
  }

  lemma SiftOneBalances(pending: seq<Event>, d: Aggregate, s: Sift, e: Event, keepOrdinary: bool, capacity: nat)
    requires SiftBalances(pending, d, s)
    requires IsMarker(e) ==> e.report.value.count == |e.report.value.byKind| && e.report.value.first <= e.report.value.last
    ensures SiftBalances(pending + [e], d, SiftOne(s, e, keepOrdinary, capacity))
  {
    var s' := SiftOne(s, e, keepOrdinary, capacity);
    assert s'.queue == s.queue || s'.queue == s.queue + [e];
    SnocMeasures(pending, e);
    SnocMeasures(s.queue, e);
    SnocTotal(pending, e);
    SnocTotal(s.queue, e);
    SiftShares(s, e, keepOrdinary, capacity);
    calc {
      Total(pending + [e]) + d.byKind;
      (Total(pending) + d.byKind) + Share(e);
      (Total(s.queue) + s.dropped.byKind) + Share(e);
      Total(s'.queue) + s'.dropped.byKind;
    }
  }

  lemma SiftShares(s: Sift, e: Event, keepOrdinary: bool, capacity: nat)
    requires Sound(s.dropped)
    requires IsMarker(e) ==> e.report.value.count == |e.report.value.byKind| && e.report.value.first <= e.report.value.last
    ensures var s' := SiftOne(s, e, keepOrdinary, capacity);
            && Sound(s'.dropped)
            && (s'.queue == s.queue ==> s'.dropped.byKind == s.dropped.byKind + Share(e))
            && (s'.queue != s.queue ==> s'.queue == s.queue + [e] && !IsMarker(e) && s'.dropped == s.dropped)
            && (s'.queue == s.queue ==> IsMarker(e) || e.weight != Critical)
  {
    assert s.queue + [e] != s.queue;
    if IsMarker(e) && e.report.value.count == 0 {
      assert e.report.value.byKind == multiset{};
    }
  }

  lemma SiftOneSelects(pending: seq<Event>, s: Sift, e: Event, keepOrdinary: bool, capacity: nat)
    requires SiftSelects(pending, s) && Increasing(pending + [e])
    ensures SiftSelects(pending + [e], SiftOne(s, e, keepOrdinary, capacity))
  {
    forall x | x in pending
      ensures x.number < e.number
    {
      var i :| 0 <= i < |pending| && pending[i] == x;
      assert (pending + [e])[i].number < (pending + [e])[|pending|].number;
    }
    SnocIncreasing(s.queue, e);
  }

  lemma {:induction false} SiftAllKeeps(pending: seq<Event>, d: Aggregate, keepOrdinary: bool, capacity: nat)
    requires Sound(d) && SoundMarkers(pending) && Increasing(pending)
    ensures var s := SiftAll(pending, d, keepOrdinary, capacity);
            SiftLocates(pending, d, s) && SiftBalances(pending, d, s) && SiftSelects(pending, s)
  {
    if pending != [] {
      var n := |pending| - 1;
      var front, e := pending[..n], pending[n];
      assert pending == front + [e];
      SiftAllKeeps(front, d, keepOrdinary, capacity);
      var s := SiftAll(front, d, keepOrdinary, capacity);
      assert e in pending;
      SiftOneLocates(front, d, s, e, keepOrdinary, capacity);
      SiftOneBalances(front, d, s, e, keepOrdinary, capacity);
      SiftOneSelects(front, s, e, keepOrdinary, capacity);
    }
  }

  lemma SiftAccounts(log: seq<Event>, published: seq<Event>, d: Aggregate, last: nat, keepOrdinary: bool, capacity: nat)
    requires Accounts(log, published, d, last)
    ensures var s := SiftAll(log, d, keepOrdinary, capacity); Accounts(s.queue, published, s.dropped, last)
  {
    SiftAllKeeps(log, d, keepOrdinary, capacity);
    var s := SiftAll(log, d, keepOrdinary, capacity);
    forall p | p in published && p !in s.queue
      ensures Covered(s.queue, s.dropped, p.number)
    {
      if p !in log && !Within(d, p.number) {
        var i :| 0 <= i < |log| && Covers(log[i], p.number);
        assert log[i] in log;
      }
    }
  }

  // ---------- what pruning retains, and the counts ----------

  function Ordinaries(s: seq<Event>): seq<Event> {
    if s == [] then []
    else
      var n := |s| - 1;
      Ordinaries(s[..n]) + (if s[n].weight == Critical || IsMarker(s[n]) then [] else [s[n]])
  }

  function Min(a: nat, b: nat): nat { if a <= b then a else b }

  /** A late subscriber still gets the first `capacity` ordinary events; a Result-only caller gets none. */
  lemma {:induction false} SiftRetainsFirst(pending: seq<Event>, d: Aggregate, keepOrdinary: bool, capacity: nat)
    ensures var s := SiftAll(pending, d, keepOrdinary, capacity);
            && s.kept == |Ordinaries(s.queue)|
            && Ordinaries(s.queue) == Ordinaries(pending)[..if keepOrdinary then Min(capacity, |Ordinaries(pending)|) else 0]
  {
    if pending != [] {
      var n := |pending| - 1;
      var front, e := pending[..n], pending[n];
      SiftRetainsFirst(front, d, keepOrdinary, capacity);
      var s := SiftAll(front, d, keepOrdinary, capacity);
      assert (s.queue + [e])[..|s.queue|] == s.queue;
    }
  }

  function HostCount(s: seq<Event>): nat {
    if s == [] then 0 else HostCount(s[..|s| - 1]) + (if IsMarker(s[|s| - 1]) then 0 else 1)
  }

  function ReportedCount(s: seq<Event>): nat {
    if s == [] then 0
    else ReportedCount(s[..|s| - 1]) + (if IsMarker(s[|s| - 1]) then s[|s| - 1].report.value.count else 0)
  }

  lemma {:induction false} CountsAreCardinalities(s: seq<Event>)
    requires SoundMarkers(s)
    ensures HostCount(s) == |HostKinds(s)| && ReportedCount(s) == |MarkerKinds(s)|
  {
    if s != [] {
      var n := |s| - 1;
      assert s[n] in s;
      CountsAreCardinalities(s[..n]);
    }
  }

  /** With nothing pending, the published events are exactly those in the log plus those the markers report. */
  lemma SettledCounts(log: seq<Event>, published: seq<Event>, d: Aggregate, last: nat)
    requires Accounts(log, published, d, last) && d.count == 0
    ensures HostKinds(published) == HostKinds(log) + MarkerKinds(log)
    ensures |published| == HostCount(log) + ReportedCount(log)
  {
    assert d.byKind == multiset{};
    CountsAreCardinalities(log);
    CountsAreCardinalities(published);
    AllHosts(published);
  }

  lemma {:induction false} AllHosts(s: seq<Event>)
    requires forall e | e in s :: !IsMarker(e)
    ensures HostCount(s) == |s|
  {
    if s != [] {
      AllHosts(s[..|s| - 1]);
    }
  }
}
