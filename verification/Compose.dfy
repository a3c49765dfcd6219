/** result.go: composing child results into one, and when composing in groups makes no difference. */
module Compose {
  import opened Common

  datatype Usage = Usage(input: int, output: int, cached: int, cost: int)

  /** What is simply taken from the last part. */
  datatype Head = Head(
    text: string, summary: string, model: string, provider: string,
    metadata: Option<map<string, string>>, structured: Option<string>)

  const NO_HEAD := Head("", "", "", "", None, None)

  datatype Message = Message(id: string, text: string, turn: int)

  datatype Value = Value(
    runId: string, head: Head, stdout: string, stderr: string, terminal: Option<string>,
    transcript: seq<string>, services: seq<string>, messages: seq<Message>, subagents: seq<string>,
    usage: Option<Usage>, turns: int)

  function Empty(runId: string): Value {
    Value(runId, NO_HEAD, "", "", None, [], [], [], [], None, 0)
  }

  // ---------- specification ----------

  function Sum(a: Usage, b: Usage): Usage {
    Usage(a.input + b.input, a.output + b.output, a.cached + b.cached, a.cost + b.cost)
  }

  /** Nil is "not observed" and stays distinct from zero. */
  function AddUsage(a: Option<Usage>, b: Option<Usage>): Option<Usage> {
    if b.None? then a else if a.None? then b else Some(Sum(a.value, b.value))
  }

  function Rebase(m: Message, turns: int): Message {
    if m.turn > 0 then m.(turn := m.turn + turns) else m
  }

  function RebaseAll(ms: seq<Message>, turns: int): (r: seq<Message>)
    ensures |r| == |ms| && forall k | 0 <= k < |ms| :: r[k] == Rebase(ms[k], turns)
  {
    seq(|ms|, k requires 0 <= k < |ms| => Rebase(ms[k], turns))
  }

  function Append(total: Value, part: Value): Value {
    Value(total.runId, part.head, total.stdout + part.stdout, total.stderr + part.stderr,
          if part.terminal.Some? then part.terminal else total.terminal,
          total.transcript + part.transcript, total.services + part.services,
          total.messages + RebaseAll(part.messages, total.turns), total.subagents + part.subagents,
          AddUsage(total.usage, part.usage), total.turns + part.turns)
  }

  function Fold(total: Value, parts: seq<Option<Value>>): Value
    decreases |parts|
  {
    if parts == [] then total
    else
      var t := Fold(total, parts[..|parts| - 1]);
      var p := parts[|parts| - 1];
      if p.Some? then Append(t, p.value) else t
  }

  function Composed(runId: string, parts: seq<Option<Value>>): Value {
    Fold(Empty(runId), parts)
  }

  // ---------- grouping ----------

  predicate HasPart(parts: seq<Option<Value>>) {
    exists k | 0 <= k < |parts| :: parts[k].Some?
  }

  function TurnsOf(parts: seq<Option<Value>>): int {
    if parts == [] then 0
    else TurnsOf(parts[..|parts| - 1]) + if parts[|parts| - 1].Some? then parts[|parts| - 1].value.turns else 0
  }

  /** Every assigned message is still assigned after its rebasing within the group, or the group comes first. */
  predicate TurnsAgree(turns: int, parts: seq<Option<Value>>)
    decreases |parts|
  {
    parts == [] ||
    (var p := parts[|parts| - 1];
     && TurnsAgree(turns, parts[..|parts| - 1])
     && (p.Some? ==> Survives(p.value.messages, TurnsOf(parts[..|parts| - 1]), turns)))
  }

  lemma {:induction false} FoldTurns(total: Value, parts: seq<Option<Value>>)
    ensures Fold(total, parts).turns == total.turns + TurnsOf(parts) && Fold(total, parts).runId == total.runId
    decreases |parts|
  {
    if parts != [] {
      FoldTurns(total, parts[..|parts| - 1]);
    }
  }

  lemma UsageAssociates(a: Option<Usage>, b: Option<Usage>, c: Option<Usage>)
    ensures AddUsage(AddUsage(a, b), c) == AddUsage(a, AddUsage(b, c))
  {
  }

  /** Two ways to bring one part into a running total: through the group's own total, or directly. */
  lemma RebaseTwice(m: Message, inner: int, outer: int)
    ensures Rebase(Rebase(m, inner), outer) == Rebase(m, outer + inner) <==> (m.turn > 0 ==> outer == 0 || m.turn + inner > 0)
  {
  }

  lemma RebaseAllAppend(a: seq<Message>, b: seq<Message>, turns: int)
    ensures RebaseAll(a + b, turns) == RebaseAll(a, turns) + RebaseAll(b, turns)
  {
  }

  lemma {:induction false} FoldHead(total: Value, parts: seq<Option<Value>>)
    ensures Fold(total, parts).head == if HasPart(parts) then Fold(Empty(""), parts).head else total.head
    decreases |parts|
  {
    if parts != [] {
      var front, p := parts[..|parts| - 1], parts[|parts| - 1];
      FoldHead(total, front);
      FoldHead(Empty(""), front);
      assert HasPart(parts) <==> HasPart(front) || p.Some? by {
        if HasPart(front) {
          var k :| 0 <= k < |front| && front[k].Some?;
          assert parts[k].Some?;
        }
        if HasPart(parts) {
          var k :| 0 <= k < |parts| && parts[k].Some?;
          assert k < |front| ==> front[k].Some?;
        }
      }
    }
  }

  /** Everything but the head and the messages composes associatively without conditions. */
  predicate SameRest(a: Value, b: Value) {
    && a.runId == b.runId && a.stdout == b.stdout && a.stderr == b.stderr && a.terminal == b.terminal
    && a.transcript == b.transcript && a.services == b.services && a.subagents == b.subagents
    && a.usage == b.usage && a.turns == b.turns
  }

  lemma {:induction false} RestAssociates(total: Value, runId: string, parts: seq<Option<Value>>)
    ensures SameRest(Append(total, Composed(runId, parts)), Fold(total, parts))
    decreases |parts|
  {
    if parts != [] {
      var front, p := parts[..|parts| - 1], parts[|parts| - 1];
      RestAssociates(total, runId, front);
      if p.Some? {
        var group := Composed(runId, front);
        UsageAssociates(total.usage, group.usage, p.value.usage);
        assert total.stdout + (group.stdout + p.value.stdout) == total.stdout + group.stdout + p.value.stdout;
        assert total.stderr + (group.stderr + p.value.stderr) == total.stderr + group.stderr + p.value.stderr;
        assert total.transcript + (group.transcript + p.value.transcript) == total.transcript + group.transcript + p.value.transcript;
        assert total.services + (group.services + p.value.services) == total.services + group.services + p.value.services;
        assert total.subagents + (group.subagents + p.value.subagents) == total.subagents + group.subagents + p.value.subagents;
      }
    }
  }

  lemma RebaseTwiceAll(ms: seq<Message>, inner: int, outer: int)
    ensures RebaseAll(RebaseAll(ms, inner), outer) == RebaseAll(ms, outer + inner) <==>
            Survives(ms, inner, outer)
  {
    var twice, once := RebaseAll(RebaseAll(ms, inner), outer), RebaseAll(ms, outer + inner);
    forall k | 0 <= k < |ms| ensures twice[k] == once[k] <==> (ms[k].turn > 0 ==> outer == 0 || ms[k].turn + inner > 0) {
      RebaseTwice(ms[k], inner, outer);
    }
    if Survives(ms, inner, outer) {
      assert twice == once;
    }
  }

  lemma PairsEqual(a: seq<Message>, b: seq<Message>, c: seq<Message>, d: seq<Message>)
    requires |a| == |c| && |b| == |d|
    ensures a + b == c + d <==> a == c && b == d
  {
    if a + b == c + d {
      assert a == (a + b)[..|a|] && b == (a + b)[|a|..];
    }
  }

  lemma {:induction false} MessagesAssociate(total: Value, runId: string, parts: seq<Option<Value>>)
    ensures |Append(total, Composed(runId, parts)).messages| == |Fold(total, parts).messages|
    ensures Append(total, Composed(runId, parts)).messages == Fold(total, parts).messages <==> TurnsAgree(total.turns, parts)
    decreases |parts|
  {
    if parts == [] {
      assert RebaseAll([], total.turns) == [];
    } else {
      var front, p := parts[..|parts| - 1], parts[|parts| - 1];
      MessagesAssociate(total, runId, front);
      if p.Some? {
        var group, flat := Composed(runId, front), Fold(total, front);
        FoldTurns(Empty(runId), front);
        FoldTurns(total, front);
        MessagesOfOne(total.messages, group.messages, flat.messages, p.value.messages, TurnsOf(front), total.turns);
      }
    }
  }

  lemma Regrouped(a: seq<Message>, b: seq<Message>, c: seq<Message>)
    ensures a + (b + c) == (a + b) + c
  {
  }

  predicate Survives(ms: seq<Message>, inner: int, outer: int) {
    forall k | 0 <= k < |ms| :: ms[k].turn > 0 ==> outer == 0 || ms[k].turn + inner > 0
  }

  lemma MessagesOfOne(total: seq<Message>, group: seq<Message>, flat: seq<Message>, part: seq<Message>, inner: int, outer: int)
    requires |total| + |group| == |flat|
    ensures total + RebaseAll(group + RebaseAll(part, inner), outer) == flat + RebaseAll(part, outer + inner) <==>
            total + RebaseAll(group, outer) == flat && Survives(part, inner, outer)
  {
    var own := RebaseAll(part, inner);
    RebaseAllAppend(group, own, outer);
    Regrouped(total, RebaseAll(group, outer), RebaseAll(own, outer));
    RebaseTwiceAll(part, inner, outer);
    PairsEqual(total + RebaseAll(group, outer), RebaseAll(own, outer), flat, RebaseAll(part, outer + inner));
  }

  /** A composed group contributes what its parts would, exactly under these two conditions. */
  predicate Groupable(total: Value, parts: seq<Option<Value>>) {
    (HasPart(parts) || total.head == NO_HEAD) && TurnsAgree(total.turns, parts)
  }

  lemma SameValue(a: Value, b: Value)
    ensures a == b <==> SameRest(a, b) && a.head == b.head && a.messages == b.messages
  {
  }

  lemma {:induction false} ComposedHead(runId: string, parts: seq<Option<Value>>)
    ensures Composed(runId, parts).head == if HasPart(parts) then Fold(Empty(""), parts).head else NO_HEAD
  {
    FoldHead(Empty(runId), parts);
  }

  lemma GroupingIsExact(total: Value, runId: string, parts: seq<Option<Value>>)
    ensures Append(total, Composed(runId, parts)) == Fold(total, parts) <==> Groupable(total, parts)
  {
    var nested, flat := Append(total, Composed(runId, parts)), Fold(total, parts);
    RestAssociates(total, runId, parts);
    MessagesAssociate(total, runId, parts);
    FoldHead(total, parts);
    ComposedHead(runId, parts);
    SameValue(nested, flat);
  }

  // ---------- any number of groups ----------

  predicate NaturalTurns(parts: seq<Option<Value>>) {
    forall k | 0 <= k < |parts| && parts[k].Some? :: parts[k].value.turns >= 0
  }

  lemma {:induction false} NaturalTurnsAgree(turns: int, parts: seq<Option<Value>>)
    requires NaturalTurns(parts)
    ensures TurnsAgree(turns, parts) && TurnsOf(parts) >= 0
    decreases |parts|
  {
    if parts != [] {
      NaturalTurnsAgree(turns, parts[..|parts| - 1]);
    }
  }

  function Flatten(groups: seq<seq<Option<Value>>>): seq<Option<Value>> {
    if groups == [] then [] else Flatten(groups[..|groups| - 1]) + groups[|groups| - 1]
  }

  function ComposeEach(runId: string, groups: seq<seq<Option<Value>>>): (r: seq<Option<Value>>)
    ensures |r| == |groups|
  {
    seq(|groups|, k requires 0 <= k < |groups| => Some(Composed(runId, groups[k])))
  }

  lemma {:induction false} FoldAppend(total: Value, a: seq<Option<Value>>, b: seq<Option<Value>>)
    ensures Fold(total, a + b) == Fold(Fold(total, a), b)
    decreases |b|
  {
    if b == [] {
      assert a + b == a;
    } else {
      assert (a + b)[..|a + b| - 1] == a + b[..|b| - 1];
      FoldAppend(total, a, b[..|b| - 1]);
    }
  }

  /** Composing groups that each have a part, with natural turn counts, equals one flat composition. */
  lemma {:induction false} GroupsCompose(runId: string, inner: string, groups: seq<seq<Option<Value>>>)
    requires forall k | 0 <= k < |groups| :: HasPart(groups[k]) && NaturalTurns(groups[k])
    ensures Composed(runId, ComposeEach(inner, groups)) == Composed(runId, Flatten(groups))
    decreases |groups|
  {
    if groups != [] {
      var front, last := groups[..|groups| - 1], groups[|groups| - 1];
      GroupsCompose(runId, inner, front);
      assert ComposeEach(inner, groups)[..|groups| - 1] == ComposeEach(inner, front);
      FoldAppend(Empty(runId), Flatten(front), last);
      var total := Composed(runId, Flatten(front));
      NaturalTurnsAgree(total.turns, last);
      GroupingIsExact(total, inner, last);
    }
  }

  /** A trailing group without a part wipes the head that the flat composition keeps. */
  lemma EmptyGroupLosesText(part: Value)
    requires part.head != NO_HEAD
    ensures Composed("r", [Some(Composed("r", [Some(part)])), Some(Composed("r", []))]).head == NO_HEAD
    ensures Composed("r", [Some(part)]).head == part.head
  {
    var g := [Some(Composed("r", [Some(part)])), Some(Composed("r", []))];
    assert g[..1] == [g[0]] && [g[0]][..0] == [] && [Some(part)][..0] == [];
  }

  /** A negative turn count inside a later group leaves a message unassigned there, so it is not moved along. */
  lemma NegativeTurnsMisplaceMessages(total: Value, a: Value, b: Value)
    requires total.turns > 0 && a.turns == -5 && b.messages == [Message("m", "", 2)]
    ensures Append(total, Composed("r", [Some(a), Some(b)])) != Fold(total, [Some(a), Some(b)])
  {
    var parts := [Some(a), Some(b)];
    var front := parts[..1];
    assert front == [Some(a)] && front[..0] == [] && TurnsOf([]) == 0;
    assert TurnsOf(front) == -5;
    assert b.messages[0].turn == 2;
    assert !Survives(b.messages, -5, total.turns);
    assert !TurnsAgree(total.turns, parts);
    GroupingIsExact(total, "r", parts);
  }

  // ---------- the objects ----------

  class UsageCell {
    var input: int
    var output: int
    var cached: int
    var cost: int

    function Value(): Usage
      reads this
    {
      Usage(input, output, cached, cost)
    }

    constructor (u: Usage)
      ensures Value() == u
    {
      input, output, cached, cost := u.input, u.output, u.cached, u.cost;
    }
  }

  function Observed(u: UsageCell?): Option<Usage>
    reads u
  {
    if u == null then None else Some(u.Value())
  }

  /** addUsage: adds in place to `a`, or clones `b`; `b` itself is never touched or shared. */
  method AccumulateUsage(a: UsageCell?, b: UsageCell?) returns (r: UsageCell?)
    requires a == b ==> a == null
    modifies a
    ensures Observed(r) == AddUsage(old(Observed(a)), old(Observed(b))) && Observed(b) == old(Observed(b))
    ensures r == a || fresh(r)
  {
    if b == null {
      return a;
    }
    if a == null {
      r := new UsageCell(b.Value());
      return;
    }
    a.input, a.output := a.input + b.input, a.output + b.output;
    a.cached, a.cost := a.cached + b.cached, a.cost + b.cost;
    return a;
  }

  class Result {
    var runId: string
    var head: Head
    var stdout: string
    var stderr: string
    var terminal: Option<string>
    var transcript: seq<string>
    var services: seq<string>
    var messages: seq<Message>
    var subagents: seq<string>
    var usage: UsageCell?
    var turns: int

    function Contents(): Value
      reads this, usage
    {
      Value(runId, head, stdout, stderr, terminal, transcript, services, messages, subagents, Observed(usage), turns)
    }

    constructor (runId: string)
      ensures Contents() == Empty(runId) && usage == null
    {
      this.runId, head, stdout, stderr, terminal := runId, NO_HEAD, "", "", None;
      transcript, services, messages, subagents, usage, turns := [], [], [], [], null, 0;
    }

    method AppendMessages(part: seq<Message>)
      modifies this`messages
      ensures messages == old(messages) + RebaseAll(part, turns)
    {
      for k := 0 to |part|
        invariant messages == old(messages) + RebaseAll(part, turns)[..k]
      {
        var m := part[k];
        if m.turn > 0 {
          m := m.(turn := m.turn + turns);
        }
        messages := messages + [m];
        assert RebaseAll(part, turns)[..k + 1] == RebaseAll(part, turns)[..k] + [m];
      }
      assert RebaseAll(part, turns)[..|part|] == RebaseAll(part, turns);
    }

    method AppendOutput(part: Result)
      requires part != this
      modifies this`head, this`stdout, this`stderr, this`terminal, this`transcript, this`services, this`subagents
      ensures head == part.head && stdout == old(stdout) + part.stdout && stderr == old(stderr) + part.stderr
      ensures terminal == if part.terminal.Some? then part.terminal else old(terminal)
      ensures transcript == old(transcript) + part.transcript && services == old(services) + part.services
      ensures subagents == old(subagents) + part.subagents
    {
      head := part.head;
      stdout, stderr := stdout + part.stdout, stderr + part.stderr;
      if part.terminal.Some? {
        terminal := part.terminal;
      }
      transcript, services := transcript + part.transcript, services + part.services;
      subagents := subagents + part.subagents;
    }

    /** appendResult: the total changes, the part does not, and they share no usage cell. */
    method AppendResult(part: Result)
      requires part != this && (usage != null ==> usage != part.usage)
      modifies this, usage
      ensures Contents() == Append(old(Contents()), old(part.Contents())) && part.Contents() == old(part.Contents())
      ensures usage == old(usage) || fresh(usage)
      ensures part.usage == old(part.usage)
    {
      AppendOutput(part);
      AppendMessages(part.messages);
      usage := AccumulateUsage(usage, part.usage);
      turns := turns + part.turns;
    }
  }

  /** The parts as values; a nil part is none. */
  function Contents(parts: seq<Result?>): (r: seq<Option<Value>>)
    reads set p | p in parts && p != null
    reads set p | p in parts && p != null && p.usage != null :: p.usage
    ensures |r| == |parts|
  {
    if parts == [] then []
    else
      var p := parts[|parts| - 1];
      Contents(parts[..|parts| - 1]) + [if p == null then None else Some(p.Contents())]
  }

  function ContentsOf(p: Result?): Option<Value>
    reads p, if p == null then null else p.usage
  {
    if p == null then None else Some(p.Contents())
  }

  lemma {:induction false} ContentsAt(parts: seq<Result?>, k: nat)
    requires k < |parts|
    ensures Contents(parts)[k] == ContentsOf(parts[k])
    decreases |parts|
  {
    if k < |parts| - 1 {
      ContentsAt(parts[..|parts| - 1], k);
    }
  }

  lemma FoldNext(total: Value, parts: seq<Option<Value>>, k: nat)
    requires k < |parts|
    ensures Fold(total, parts[..k + 1]) ==
            if parts[k].Some? then Append(Fold(total, parts[..k]), parts[k].value) else Fold(total, parts[..k])
  {
    assert parts[..k + 1][..k] == parts[..k];
  }

  /**
    ComposeResults: a new object that owns its own usage. There is no `modifies` clause, so nothing that
    existed before the call is changed, in particular none of the parts.
  */
  method ComposeResults(runId: string, parts: seq<Result?>) returns (total: Result)
    ensures fresh(total) && (total.usage == null || fresh(total.usage))
    ensures total.Contents() == Composed(runId, old(Contents(parts)))
  {
    ghost var values := Contents(parts);
    forall k | 0 <= k < |parts| ensures values[k] == ContentsOf(parts[k]) {
      ContentsAt(parts, k);
    }
    total := new Result(runId);
    for k := 0 to |parts|
      invariant fresh(total) && (total.usage == null || fresh(total.usage))
      invariant total.Contents() == Fold(Empty(runId), values[..k])
    {
      FoldNext(Empty(runId), values, k);
      assert ContentsOf(parts[k]) == old(ContentsOf(parts[k]));
      if parts[k] != null {
        total.AppendResult(parts[k]);
      }
    }
    assert values[..|parts|] == values;
  }
}
