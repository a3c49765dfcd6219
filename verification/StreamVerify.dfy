/**
  adaptertest/verify.go: VerifyStreamSequence walks a Driver's stream payloads once, keeping open and
  closed lifecycles, and lists violations. It is compared with rules that speak of the whole trace.
*/
module StreamVerify {
  import opened Common

  datatype Kind =
    | RunStarted | RunFinished | RunError
    | StepStarted | StepFinished
    | TextStart | TextContent | TextEnd
    | ToolStart | ToolArgs | ToolEnd | ToolResult
    | ReasoningStart | ReasoningContent | ReasoningEnd
    | HitlRequested | HitlResolved
    | Dropped
    | Vendor(name: string)

  /** `stamped`: Sequence, Seq or Timestamp is set. `otherRole`: Role is not the zero value. */
  datatype Payload = Payload(
    kind: Kind, stamped: bool, otherRole: bool, messageId: string, toolCallId: string, name: string, delta: string,
    hasError: bool, hasRequested: bool, hasResolved: bool)

  datatype Clause = EVT01 | EVT02 | EVT03 | EVT04 | EVT05 | EVT06 | EVT07 | EVT08 | EVT09 | EVT10 | EVT11 | EVT13

  datatype Violation = Violation(clause: Clause, at: nat)

  predicate IsTerminal(k: Kind) {
    k == RunFinished || k == RunError
  }

  predicate IsRunFrame(k: Kind) {
    k == RunStarted || IsTerminal(k)
  }

  // ---------- the rules ----------

  datatype Lane = Text | Tool | Reasoning
  datatype Mark = Begin | More | Finish

  function MarkOf(k: Kind, lane: Lane): Option<Mark> {
    match k
    case TextStart => if lane == Text then Some(Begin) else None
    case TextContent => if lane == Text then Some(More) else None
    case TextEnd => if lane == Text then Some(Finish) else None
    case ToolStart => if lane == Tool then Some(Begin) else None
    case ToolArgs => if lane == Tool then Some(More) else None
    case ToolEnd => if lane == Tool then Some(Finish) else None
    case ReasoningStart => if lane == Reasoning then Some(Begin) else None
    case ReasoningContent => if lane == Reasoning then Some(More) else None
    case ReasoningEnd => if lane == Reasoning then Some(Finish) else None
    case _ => None
  }

  function IdOf(p: Payload, lane: Lane): string {
    if lane == Tool then p.toolCallId else p.messageId
  }

  /** What one lane shows of one id. */
  function Marks(t: seq<Payload>, lane: Lane, id: string): seq<Mark> {
    if t == [] then []
    else
      var p := t[|t| - 1];
      var m := MarkOf(p.kind, lane);
      Marks(t[..|t| - 1], lane, id) + if m.Some? && IdOf(p, lane) == id then [m.value] else []
  }

  /** Nothing, or a start, any number of contents, and an end. */
  predicate WholeLife(ms: seq<Mark>) {
    ms == [] ||
    (|ms| >= 2 && ms[0] == Begin && ms[|ms| - 1] == Finish && forall k | 0 < k < |ms| - 1 :: ms[k] == More)
  }

  function Count(t: seq<Payload>, kind: Kind, name: string): nat {
    if t == [] then 0
    else Count(t[..|t| - 1], kind, name) + if t[|t| - 1].kind == kind && t[|t| - 1].name == name then 1 else 0
  }

  /** EVT-01 and EVT-02: it opens with the only run.started and closes with the only terminal frame. */
  ghost predicate Framed(t: seq<Payload>) {
    && t != [] && t[0].kind == RunStarted && (forall i | 0 < i < |t| :: t[i].kind != RunStarted)
    && IsTerminal(t[|t| - 1].kind) && (forall i | 0 <= i < |t| - 1 :: !IsTerminal(t[i].kind))
  }

  /** What a payload must carry by itself: EVT-03 to EVT-10 and EVT-13. */
  predicate Plain(p: Payload) {
    && !p.stamped
    && (!p.kind.Vendor? ==> !p.otherRole)
    && (IsRunFrame(p.kind) ==> p.messageId == "" && p.toolCallId == "")
    && (p.kind == RunError ==> p.hasError)
    && (p.kind == StepStarted || p.kind == StepFinished ==> p.name != "")
    && (p.kind == TextContent || p.kind == ToolArgs || p.kind == ReasoningContent ==> p.delta != "")
    && (p.kind == ToolStart ==> p.name != "")
    && (p.kind == ToolResult ==> p.toolCallId != "")
    && (p.kind == HitlRequested ==> p.hasRequested) && (p.kind == HitlResolved ==> p.hasResolved)
    && (MarkOf(p.kind, Text).Some? || MarkOf(p.kind, Reasoning).Some? ==> p.messageId != "")
    && (MarkOf(p.kind, Tool).Some? ==> p.toolCallId != "")
  }

  ghost predicate Conforms(t: seq<Payload>) {
    && Framed(t)
    && (forall i | 0 <= i < |t| :: Plain(t[i]))
    && (forall lane, id :: WholeLife(Marks(t, lane, id)))
    && (forall i | 0 <= i < |t| && t[i].kind == ToolResult :: StartedBefore(t, i, t[i].toolCallId))
    && (forall n, name | 0 <= n <= |t| :: Count(t[..n], StepFinished, name) <= Count(t[..n], StepStarted, name))
    && (forall name :: Count(t, StepFinished, name) == Count(t, StepStarted, name))
  }

  predicate StartedBefore(t: seq<Payload>, i: nat, id: string)
    requires i <= |t|
  {
    exists j | 0 <= j < i :: t[j].kind == ToolStart && t[j].toolCallId == id
  }

  // ---------- the checker ----------

  datatype Lives = Lives(open: set<string>, closed: set<string>)

  datatype Check = Check(
    started: nat, terminals: nat, terminal: bool, text: Lives, reasoning: Lives, tool: Lives, steps: map<string, nat>)

  const START := Check(0, 0, false, Lives({}, {}), Lives({}, {}), Lives({}, {}), map[])

  function LivesOf(c: Check, lane: Lane): Lives {
    match lane case Text => c.text case Tool => c.tool case Reasoning => c.reasoning
  }

  function WithLives(c: Check, lane: Lane, l: Lives): Check {
    match lane case Text => c.(text := l) case Tool => c.(tool := l) case Reasoning => c.(reasoning := l)
  }

  function When(cond: bool, clause: Clause, i: nat): (vs: seq<Violation>)
    ensures vs == [] <==> !cond
  {
    if cond then [Violation(clause, i)] else []
  }

  function LaneClause(lane: Lane): Clause {
    match lane case Text => EVT03 case Tool => EVT05 case Reasoning => EVT06
  }

  function OpenSteps(steps: map<string, nat>): set<string> {
    set name | name in steps && steps[name] > 0
  }

  function OpenCount(steps: map<string, nat>, name: string): nat {
    if name in steps then steps[name] else 0
  }

  predicate MarkFits(l: Lives, m: Mark, id: string) {
    match m
    case Begin => id !in l.open && id !in l.closed
    case More => id in l.open
    case Finish => id in l.open
  }

  /** The lifecycle part of a start, content or end. A tool start reports missing fields separately. */
  function ExamineMark(c: Check, i: nat, p: Payload, lane: Lane, m: Mark): seq<Violation> {
    var id := IdOf(p, lane);
    var toolStart := lane == Tool && m == Begin;
    When(m != Finish && c.terminal, EVT02, i)
    + When(toolStart && (id == "" || p.name == ""), EVT05, i)
    + When((id == "" && !toolStart) || (id != "" && !MarkFits(LivesOf(c, lane), m, id)), LaneClause(lane), i)
    + When(m == More && p.delta == "", if lane == Text then EVT04 else LaneClause(lane), i)
  }

  function AdvanceMark(l: Lives, m: Mark, id: string): Lives {
    if id == "" || !MarkFits(l, m, id) then l
    else
      match m
      case Begin => l.(open := l.open + {id})
      case More => l
      case Finish => Lives(l.open - {id}, l.closed + {id})
  }

  /** One report for each lifecycle that a terminal frame leaves open; their order is immaterial. */
  function LeftOpen(c: Check, i: nat): seq<Violation> {
    seq(|c.text.open| + |c.reasoning.open| + |c.tool.open| + |OpenSteps(c.steps)|, _ => Violation(EVT11, i))
  }

  function ExamineStart(c: Check, i: nat, p: Payload): seq<Violation> {
    When(c.started > 0, EVT01, i) + When(p.messageId != "" || p.toolCallId != "", EVT13, i) + When(c.terminal, EVT02, i)
  }

  function ExamineTerminal(c: Check, i: nat, p: Payload): seq<Violation> {
    When(c.terminal, EVT02, i)
    + When(p.kind == RunError && !p.hasError, EVT02, i)
    + When(p.messageId != "" || p.toolCallId != "", EVT13, i)
    + LeftOpen(c, i)
  }

  function ExamineKind(c: Check, i: nat, p: Payload): seq<Violation> {
    match p.kind
    case RunStarted => ExamineStart(c, i, p)
    case RunFinished => ExamineTerminal(c, i, p)
    case RunError => ExamineTerminal(c, i, p)
    case StepStarted => When(p.name == "", EVT07, i) + When(c.terminal, EVT02, i)
    case StepFinished => When(p.name == "" || OpenCount(c.steps, p.name) == 0, EVT07, i) + When(c.terminal, EVT02, i)
    case TextStart => ExamineMark(c, i, p, Text, Begin)
    case TextContent => ExamineMark(c, i, p, Text, More)
    case TextEnd => ExamineMark(c, i, p, Text, Finish)
    case ToolStart => ExamineMark(c, i, p, Tool, Begin)
    case ToolArgs => ExamineMark(c, i, p, Tool, More)
    case ToolEnd => ExamineMark(c, i, p, Tool, Finish)
    case ToolResult =>
      When(c.terminal, EVT02, i)
      + When(p.toolCallId == "" || (p.toolCallId !in c.tool.open && p.toolCallId !in c.tool.closed), EVT05, i)
    case ReasoningStart => ExamineMark(c, i, p, Reasoning, Begin)
    case ReasoningContent => ExamineMark(c, i, p, Reasoning, More)
    case ReasoningEnd => ExamineMark(c, i, p, Reasoning, Finish)
    case HitlRequested => When(c.terminal, EVT02, i) + When(!p.hasRequested, EVT08, i)
    case HitlResolved => When(c.terminal, EVT02, i) + When(!p.hasResolved, EVT08, i)
    case Dropped => []
    case Vendor(_) => When(c.terminal, EVT02, i)
  }

  function Examine(c: Check, i: nat, p: Payload): seq<Violation> {
    When(p.stamped, EVT10, i)
    + When(c.terminal && p.kind == Dropped, EVT02, i)
    + When(!p.kind.Vendor? && p.otherRole, EVT09, i)
    + ExamineKind(c, i, p)
  }

  function AdvanceLane(c: Check, p: Payload, lane: Lane, m: Mark): Check {
    WithLives(c, lane, AdvanceMark(LivesOf(c, lane), m, IdOf(p, lane)))
  }

  function Advance(c: Check, p: Payload): Check {
    match p.kind
    case RunStarted => c.(started := c.started + 1)
    case RunFinished => c.(terminals := c.terminals + 1, terminal := true)
    case RunError => c.(terminals := c.terminals + 1, terminal := true)
    case StepStarted => if p.name == "" then c else c.(steps := c.steps[p.name := OpenCount(c.steps, p.name) + 1])
    case StepFinished =>
      if p.name == "" || OpenCount(c.steps, p.name) == 0 then c else c.(steps := c.steps[p.name := OpenCount(c.steps, p.name) - 1])
    case TextStart => AdvanceLane(c, p, Text, Begin)
    case TextContent => AdvanceLane(c, p, Text, More)
    case TextEnd => AdvanceLane(c, p, Text, Finish)
    case ToolStart => AdvanceLane(c, p, Tool, Begin)
    case ToolArgs => AdvanceLane(c, p, Tool, More)
    case ToolEnd => AdvanceLane(c, p, Tool, Finish)
    case ReasoningStart => AdvanceLane(c, p, Reasoning, Begin)
    case ReasoningContent => AdvanceLane(c, p, Reasoning, More)
    case ReasoningEnd => AdvanceLane(c, p, Reasoning, Finish)
    case _ => c
  }

  // ---------- lifecycles ----------

  datatype Life = Fresh | Open | Closed | Broken

  function NextLife(l: Life, m: Mark): Life {
    match m
    case Begin => if l == Fresh then Open else Broken
    case More => if l == Open then Open else Broken
    case Finish => if l == Open then Closed else Broken
  }

  function LifeOf(ms: seq<Mark>): Life {
    if ms == [] then Fresh else NextLife(LifeOf(ms[..|ms| - 1]), ms[|ms| - 1])
  }

  /** A start followed by contents only. */
  predicate HalfLife(ms: seq<Mark>) {
    |ms| >= 1 && ms[0] == Begin && forall k | 0 < k < |ms| :: ms[k] == More
  }

  lemma {:induction false} LifeShapes(ms: seq<Mark>)
    ensures (LifeOf(ms) == Fresh <==> ms == []) && (LifeOf(ms) == Open <==> HalfLife(ms))
    ensures LifeOf(ms) == Closed <==> (ms != [] && WholeLife(ms))
    decreases |ms|
  {
    if ms != [] {
      var front, last := ms[..|ms| - 1], ms[|ms| - 1];
      LifeShapes(front);
      assert ms == front + [last];
      match last
      case Begin =>
      case More =>
        assert HalfLife(ms) <==> HalfLife(front);
      case Finish =>
        assert WholeLife(ms) <==> HalfLife(front);
    }
  }

  function LifeAt(t: seq<Payload>, lane: Lane, id: string): Life {
    LifeOf(Marks(t, lane, id))
  }

  lemma LifeSnoc(t: seq<Payload>, p: Payload, lane: Lane, id: string)
    ensures var m := MarkOf(p.kind, lane);
            LifeAt(t + [p], lane, id) == if m.Some? && IdOf(p, lane) == id then NextLife(LifeAt(t, lane, id), m.value) else LifeAt(t, lane, id)
  {
    assert (t + [p])[..|t|] == t;
    var m := MarkOf(p.kind, lane);
    if m.Some? && IdOf(p, lane) == id {
      var ms := Marks(t, lane, id);
      assert (ms + [m.value])[..|ms|] == ms;
    } else {
      assert Marks(t, lane, id) + [] == Marks(t, lane, id);
    }
  }

  // ---------- what the checker's state stands for ----------

  function Starts(t: seq<Payload>): nat {
    if t == [] then 0 else Starts(t[..|t| - 1]) + if t[|t| - 1].kind == RunStarted then 1 else 0
  }

  function Ends(t: seq<Payload>): nat {
    if t == [] then 0 else Ends(t[..|t| - 1]) + if IsTerminal(t[|t| - 1].kind) then 1 else 0
  }

  function Shown(l: Lives, id: string): Life {
    if id in l.open then Open else if id in l.closed then Closed else Fresh
  }

  ghost predicate TracksLane(t: seq<Payload>, l: Lives, lane: Lane) {
    forall id :: LifeAt(t, lane, id) == Shown(l, id)
  }

  ghost predicate TracksSteps(t: seq<Payload>, steps: map<string, nat>) {
    forall name :: Count(t, StepStarted, name) == Count(t, StepFinished, name) + OpenCount(steps, name)
  }

  ghost predicate Tracks(t: seq<Payload>, c: Check) {
    && c.started == Starts(t) && c.terminals == Ends(t) && (c.terminal <==> Ends(t) > 0)
    && TracksLane(t, c.text, Text) && TracksLane(t, c.tool, Tool) && TracksLane(t, c.reasoning, Reasoning)
    && TracksSteps(t, c.steps)
  }

  ghost predicate LaneShut(t: seq<Payload>, lane: Lane) {
    forall id :: LifeAt(t, lane, id) != Open
  }

  ghost predicate StepsEven(t: seq<Payload>) {
    forall name :: Count(t, StepStarted, name) == Count(t, StepFinished, name)
  }

  ghost predicate NothingOpen(t: seq<Payload>) {
    LaneShut(t, Text) && LaneShut(t, Tool) && LaneShut(t, Reasoning) && StepsEven(t)
  }

  predicate IsEnd(k: Kind) {
    k == TextEnd || k == ToolEnd || k == ReasoningEnd
  }

  ghost predicate MarkOk(t: seq<Payload>, p: Payload, lane: Lane) {
    var m := MarkOf(p.kind, lane);
    m.Some? ==> NextLife(LifeAt(t, lane, IdOf(p, lane)), m.value) != Broken
  }

  /** The payload may follow that prefix; an end frame after the terminal one is not refused by name. */
  ghost predicate StepOk(t: seq<Payload>, p: Payload) {
    && Plain(p)
    && (Ends(t) > 0 ==> IsEnd(p.kind))
    && (p.kind == RunStarted ==> Starts(t) == 0)
    && MarkOk(t, p, Text) && MarkOk(t, p, Tool) && MarkOk(t, p, Reasoning)
    && (p.kind == ToolResult ==> LifeAt(t, Tool, p.toolCallId) == Open || LifeAt(t, Tool, p.toolCallId) == Closed)
    && (p.kind == StepFinished ==> Count(t, StepFinished, p.name) < Count(t, StepStarted, p.name))
    && (IsTerminal(p.kind) ==> NothingOpen(t))
  }

  lemma MarkExact(t: seq<Payload>, c: Check, i: nat, p: Payload, lane: Lane, m: Mark)
    requires Tracks(t, c) && MarkOf(p.kind, lane) == Some(m)
    ensures ExamineMark(c, i, p, lane, m) == [] <==>
            && (c.terminal ==> m == Finish) && IdOf(p, lane) != "" && MarkOk(t, p, lane)
            && (m == More ==> p.delta != "") && (lane == Tool && m == Begin ==> p.name != "")
  {
    TrackedLife(t, c, lane, IdOf(p, lane));
  }

  lemma FrameExact(t: seq<Payload>, c: Check, i: nat, p: Payload)
    requires Tracks(t, c) && IsTerminal(p.kind)
    ensures ExamineTerminal(c, i, p) == [] <==>
            !c.terminal && (p.kind == RunError ==> p.hasError) && p.messageId == "" && p.toolCallId == "" && NothingOpen(t)
  {
    NothingLeftOpen(t, c, i);
  }

  lemma TrackedLife(t: seq<Payload>, c: Check, lane: Lane, id: string)
    requires Tracks(t, c)
    ensures LifeAt(t, lane, id) == Shown(LivesOf(c, lane), id)
  {
    assert TracksLane(t, LivesOf(c, lane), lane);
  }

  lemma LaneEmpty(t: seq<Payload>, l: Lives, lane: Lane)
    requires TracksLane(t, l, lane)
    ensures l.open == {} <==> LaneShut(t, lane)
  {
    if l.open != {} {
      var id :| id in l.open;
      assert LifeAt(t, lane, id) == Shown(l, id) == Open;
    }
  }

  lemma StepsEmpty(t: seq<Payload>, steps: map<string, nat>)
    requires TracksSteps(t, steps)
    ensures OpenSteps(steps) == {} <==> StepsEven(t)
  {
    if OpenSteps(steps) != {} {
      var name :| name in OpenSteps(steps);
      assert Count(t, StepStarted, name) == Count(t, StepFinished, name) + OpenCount(steps, name);
    } else {
      forall name ensures Count(t, StepStarted, name) == Count(t, StepFinished, name) {
        assert name !in OpenSteps(steps);
      }
    }
  }

  lemma NothingLeftOpen(t: seq<Payload>, c: Check, i: nat)
    requires Tracks(t, c)
    ensures LeftOpen(c, i) == [] <==> NothingOpen(t)
  {
    LaneEmpty(t, c.text, Text);
    LaneEmpty(t, c.tool, Tool);
    LaneEmpty(t, c.reasoning, Reasoning);
    StepsEmpty(t, c.steps);
  }

  predicate HasMark(k: Kind, lane: Lane, m: Mark) {
    MarkOf(k, lane) == Some(m)
  }

  lemma ExamineSplits(c: Check, i: nat, p: Payload)
    ensures Examine(c, i, p) == [] <==>
            !p.stamped && !(c.terminal && p.kind == Dropped) && (!p.kind.Vendor? ==> !p.otherRole) && ExamineKind(c, i, p) == []
  {
  }

  /** What is asked of a payload that belongs to a lifecycle. */
  ghost predicate LaneOk(t: seq<Payload>, p: Payload, lane: Lane, m: Mark) {
    && !p.stamped && !p.otherRole && IdOf(p, lane) != "" && (m == More ==> p.delta != "")
    && (lane == Tool && m == Begin ==> p.name != "") && (Ends(t) > 0 ==> m == Finish) && MarkOk(t, p, lane)
  }

  lemma LaneStep(t: seq<Payload>, p: Payload, lane: Lane, m: Mark)
    requires HasMark(p.kind, lane, m)
    ensures StepOk(t, p) <==> LaneOk(t, p, lane, m)
  {
    match p.kind
    case _ =>
  }

  lemma KindOfMark(c: Check, i: nat, p: Payload, lane: Lane, m: Mark)
    requires HasMark(p.kind, lane, m)
    ensures ExamineKind(c, i, p) == ExamineMark(c, i, p, lane, m) && !p.kind.Vendor? && p.kind != Dropped
  {
    match p.kind
    case _ =>
  }

  lemma LaneExamined(t: seq<Payload>, c: Check, i: nat, p: Payload, lane: Lane, m: Mark)
    requires Tracks(t, c) && HasMark(p.kind, lane, m)
    ensures Examine(c, i, p) == [] <==> LaneOk(t, p, lane, m)
  {
    ExamineSplits(c, i, p);
    KindOfMark(c, i, p, lane, m);
    MarkExact(t, c, i, p, lane, m);
  }

  lemma LaneKindExact(t: seq<Payload>, c: Check, i: nat, p: Payload, lane: Lane, m: Mark)
    requires Tracks(t, c) && HasMark(p.kind, lane, m)
    ensures Examine(c, i, p) == [] <==> StepOk(t, p)
  {
    LaneExamined(t, c, i, p, lane, m);
    LaneStep(t, p, lane, m);
  }

  predicate Unmarked(k: Kind) {
    MarkOf(k, Text) == None && MarkOf(k, Tool) == None && MarkOf(k, Reasoning) == None
  }

  lemma UnmarkedStep(t: seq<Payload>, p: Payload)
    requires Unmarked(p.kind)
    ensures StepOk(t, p) <==>
            && Plain(p) && Ends(t) == 0 && (p.kind == RunStarted ==> Starts(t) == 0)
            && (p.kind == ToolResult ==> LifeAt(t, Tool, p.toolCallId) == Open || LifeAt(t, Tool, p.toolCallId) == Closed)
            && (p.kind == StepFinished ==> Count(t, StepFinished, p.name) < Count(t, StepStarted, p.name))
            && (IsTerminal(p.kind) ==> NothingOpen(t))
  {
  }

  lemma ToolKnown(t: seq<Payload>, c: Check, id: string)
    requires Tracks(t, c)
    ensures id in c.tool.open || id in c.tool.closed <==> LifeAt(t, Tool, id) == Open || LifeAt(t, Tool, id) == Closed
  {
    TrackedLife(t, c, Tool, id);
  }

  lemma StepKnown(t: seq<Payload>, c: Check, name: string)
    requires Tracks(t, c)
    ensures OpenCount(c.steps, name) == 0 <==> Count(t, StepFinished, name) >= Count(t, StepStarted, name)
  {
    assert Count(t, StepStarted, name) == Count(t, StepFinished, name) + OpenCount(c.steps, name);
  }

  lemma OtherKindExact(t: seq<Payload>, c: Check, i: nat, p: Payload)
    requires Tracks(t, c) && Unmarked(p.kind)
    ensures Examine(c, i, p) == [] <==> StepOk(t, p)
  {
    ExamineSplits(c, i, p);
    UnmarkedStep(t, p);
    match p.kind
    case RunFinished => FrameExact(t, c, i, p);
    case RunError => FrameExact(t, c, i, p);
    case ToolResult => ToolKnown(t, c, p.toolCallId);
    case StepFinished => StepKnown(t, c, p.name);
    case _ =>
  }

  /** One payload adds no violation exactly if it may follow what was seen before it. */
  lemma ExamineExact(t: seq<Payload>, c: Check, i: nat, p: Payload)
    requires Tracks(t, c)
    ensures Examine(c, i, p) == [] <==> StepOk(t, p)
  {
    match p.kind
    case TextStart => LaneKindExact(t, c, i, p, Text, Begin);
    case TextContent => LaneKindExact(t, c, i, p, Text, More);
    case TextEnd => LaneKindExact(t, c, i, p, Text, Finish);
    case ToolStart => LaneKindExact(t, c, i, p, Tool, Begin);
    case ToolArgs => LaneKindExact(t, c, i, p, Tool, More);
    case ToolEnd => LaneKindExact(t, c, i, p, Tool, Finish);
    case ReasoningStart => LaneKindExact(t, c, i, p, Reasoning, Begin);
    case ReasoningContent => LaneKindExact(t, c, i, p, Reasoning, More);
    case ReasoningEnd => LaneKindExact(t, c, i, p, Reasoning, Finish);
    case _ => OtherKindExact(t, c, i, p);
  }

  // ---------- the state follows ----------

  lemma ShownAfter(l: Lives, m: Mark, own: string, id: string)
    requires own != "" && NextLife(Shown(l, own), m) != Broken
    ensures Shown(AdvanceMark(l, m, own), id) == if id == own then NextLife(Shown(l, id), m) else Shown(l, id)
  {
  }

  lemma LaneAdvances(t: seq<Payload>, l: Lives, p: Payload, lane: Lane)
    requires TracksLane(t, l, lane) && MarkOk(t, p, lane)
    requires MarkOf(p.kind, lane).Some? ==> IdOf(p, lane) != ""
    ensures var m := MarkOf(p.kind, lane); TracksLane(t + [p], if m.Some? then AdvanceMark(l, m.value, IdOf(p, lane)) else l, lane)
  {
    var m := MarkOf(p.kind, lane);
    var l' := if m.Some? then AdvanceMark(l, m.value, IdOf(p, lane)) else l;
    forall id ensures LifeAt(t + [p], lane, id) == Shown(l', id) {
      LifeSnoc(t, p, lane, id);
      assert LifeAt(t, lane, id) == Shown(l, id);
      if m.Some? {
        ShownAfter(l, m.value, IdOf(p, lane), id);
      }
    }
  }

  lemma StepsAdvance(t: seq<Payload>, c: Check, p: Payload)
    requires TracksSteps(t, c.steps) && (p.kind == StepStarted || p.kind == StepFinished ==> p.name != "")
    requires p.kind == StepFinished ==> Count(t, StepFinished, p.name) < Count(t, StepStarted, p.name)
    ensures TracksSteps(t + [p], Advance(c, p).steps)
  {
    assert (t + [p])[..|t|] == t;
    var steps := Advance(c, p).steps;
    forall name ensures Count(t + [p], StepStarted, name) == Count(t + [p], StepFinished, name) + OpenCount(steps, name) {
      assert Count(t, StepStarted, name) == Count(t, StepFinished, name) + OpenCount(c.steps, name);
    }
  }

  lemma AdvanceLives(c: Check, p: Payload, lane: Lane)
    ensures var m := MarkOf(p.kind, lane);
            LivesOf(Advance(c, p), lane) == if m.Some? then AdvanceMark(LivesOf(c, lane), m.value, IdOf(p, lane)) else LivesOf(c, lane)
  {
  }

  lemma LaneFollows(t: seq<Payload>, c: Check, p: Payload, lane: Lane)
    requires Tracks(t, c) && StepOk(t, p)
    ensures TracksLane(t + [p], LivesOf(Advance(c, p), lane), lane)
  {
    assert TracksLane(t, LivesOf(c, lane), lane) && MarkOk(t, p, lane);
    LaneAdvances(t, LivesOf(c, lane), p, lane);
    AdvanceLives(c, p, lane);
  }

  lemma CountsSnoc(t: seq<Payload>, p: Payload)
    ensures Starts(t + [p]) == Starts(t) + (if p.kind == RunStarted then 1 else 0)
    ensures Ends(t + [p]) == Ends(t) + (if IsTerminal(p.kind) then 1 else 0)
  {
    assert (t + [p])[..|t|] == t;
  }

  lemma AdvanceCounts(c: Check, p: Payload)
    ensures var d := Advance(c, p);
            && d.started == c.started + (if p.kind == RunStarted then 1 else 0)
            && d.terminals == c.terminals + (if IsTerminal(p.kind) then 1 else 0)
            && (d.terminal <==> c.terminal || IsTerminal(p.kind))
  {
    match p.kind
    case _ =>
  }

  lemma CountersFollow(t: seq<Payload>, c: Check, p: Payload)
    requires c.started == Starts(t) && c.terminals == Ends(t) && (c.terminal <==> Ends(t) > 0)
    ensures var d := Advance(c, p); d.started == Starts(t + [p]) && d.terminals == Ends(t + [p]) && (d.terminal <==> Ends(t + [p]) > 0)
  {
    CountsSnoc(t, p);
    AdvanceCounts(c, p);
  }

  lemma AdvanceTracks(t: seq<Payload>, c: Check, p: Payload)
    requires Tracks(t, c) && StepOk(t, p)
    ensures Tracks(t + [p], Advance(c, p))
  {
    CountersFollow(t, c, p);
    LaneFollows(t, c, p, Text);
    LaneFollows(t, c, p, Tool);
    LaneFollows(t, c, p, Reasoning);
    StepsAdvance(t, c, p);
  }

  // ---------- the walk ----------

  ghost predicate Clean(t: seq<Payload>) {
    t == [] || (Clean(t[..|t| - 1]) && StepOk(t[..|t| - 1], t[|t| - 1]))
  }

  predicate Normalized(k: Kind) {
    !k.Vendor? && k != Dropped
  }

  /** The last payload of a normalized kind, if any, is a terminal one. */
  ghost predicate LastIsTerminal(t: seq<Payload>) {
    forall i | 0 <= i < |t| && Normalized(t[i].kind) && (forall j | i < j < |t| :: !Normalized(t[j].kind)) :: IsTerminal(t[i].kind)
  }

  method CheckLast(t: seq<Payload>) returns (vs: seq<Violation>)
    ensures vs == [] <==> LastIsTerminal(t)
  {
    var i := |t| - 1;
    while i >= 0
      invariant -1 <= i < |t| && forall j | i < j < |t| :: !Normalized(t[j].kind)
    {
      if Normalized(t[i].kind) {
        return When(!IsTerminal(t[i].kind), EVT02, i);
      }
      i := i - 1;
    }
    return [];
  }

  method Walk(t: seq<Payload>) returns (out: seq<Violation>, c: Check)
    ensures out == [] <==> (t != [] ==> t[0].kind == RunStarted) && Clean(t)
    ensures out == [] ==> Tracks(t, c)
  {
    out, c := When(t != [] && t[0].kind != RunStarted, EVT01, 0), START;
    ghost var firstOk := t != [] ==> t[0].kind == RunStarted;
    for i := 0 to |t|
      invariant out == [] <==> firstOk && Clean(t[..i])
      invariant out == [] ==> Tracks(t[..i], c)
    {
      var p := t[i];
      assert t[..i + 1] == t[..i] + [p];
      if out == [] {
        ExamineExact(t[..i], c, i, p);
        if StepOk(t[..i], p) {
          AdvanceTracks(t[..i], c, p);
        }
      }
      out := out + Examine(c, i, p);
      c := Advance(c, p);
    }
    assert t[..|t|] == t;
  }

  // ---------- the rules of the whole trace ----------

  function After(t: seq<Payload>): Check {
    if t == [] then START else Advance(After(t[..|t| - 1]), t[|t| - 1])
  }

  lemma {:induction false} CleanTracks(t: seq<Payload>)
    requires Clean(t)
    ensures Tracks(t, After(t))
    decreases |t|
  {
    if t != [] {
      var front := t[..|t| - 1];
      CleanTracks(front);
      AdvanceTracks(front, After(front), t[|t| - 1]);
      assert front + [t[|t| - 1]] == t;
    }
  }

  lemma {:induction false} CleanAt(t: seq<Payload>, i: nat)
    requires Clean(t) && i < |t|
    ensures Clean(t[..i]) && StepOk(t[..i], t[i])
    decreases |t|
  {
    if i < |t| - 1 {
      CleanAt(t[..|t| - 1], i);
      assert t[..|t| - 1][..i] == t[..i];
    }
  }

  lemma {:induction false} CleanFrom(t: seq<Payload>, n: nat)
    requires n <= |t| && forall i | 0 <= i < |t| :: StepOk(t[..i], t[i])
    ensures Clean(t[..n])
  {
    if n > 0 {
      CleanFrom(t, n - 1);
      assert t[..n][..n - 1] == t[..n - 1];
    }
  }

  lemma {:induction false} StartsZero(t: seq<Payload>)
    ensures Starts(t) == 0 <==> forall i | 0 <= i < |t| :: t[i].kind != RunStarted
    decreases |t|
  {
    if t != [] {
      StartsZero(t[..|t| - 1]);
      assert t == t[..|t| - 1] + [t[|t| - 1]];
    }
  }

  lemma {:induction false} EndsZero(t: seq<Payload>)
    ensures Ends(t) == 0 <==> forall i | 0 <= i < |t| :: !IsTerminal(t[i].kind)
    decreases |t|
  {
    if t != [] {
      EndsZero(t[..|t| - 1]);
      assert t == t[..|t| - 1] + [t[|t| - 1]];
    }
  }

  lemma FrameHasNoLife(t: seq<Payload>, p: Payload, lane: Lane, id: string)
    requires IsRunFrame(p.kind)
    ensures LifeAt(t + [p], lane, id) == LifeAt(t, lane, id)
  {
    LifeSnoc(t, p, lane, id);
  }

  ghost predicate AllShut(t: seq<Payload>) {
    LaneShut(t, Text) && LaneShut(t, Tool) && LaneShut(t, Reasoning)
  }

  lemma ShutRefusesEnd(u: seq<Payload>, p: Payload, lane: Lane)
    requires LaneShut(u, lane) && MarkOf(p.kind, lane) == Some(Finish)
    ensures !MarkOk(u, p, lane)
  {
    assert LifeAt(u, lane, IdOf(p, lane)) != Open;
  }

  /** An end frame cannot follow the terminal one either: nothing is open for it to end. */
  lemma NoStepAfterClosing(u: seq<Payload>, p: Payload)
    requires Ends(u) > 0 && AllShut(u)
    ensures !StepOk(u, p)
  {
    if IsEnd(p.kind) {
      ShutRefusesEnd(u, p, if p.kind == TextEnd then Text else if p.kind == ToolEnd then Tool else Reasoning);
    }
  }

  lemma FrameShuts(u: seq<Payload>, p: Payload, lane: Lane)
    requires IsTerminal(p.kind) && LaneShut(u, lane)
    ensures LaneShut(u + [p], lane)
  {
    forall id ensures LifeAt(u + [p], lane, id) != Open {
      FrameHasNoLife(u, p, lane, id);
      assert LifeAt(u, lane, id) != Open;
    }
  }

  lemma TerminalCloses(u: seq<Payload>, p: Payload)
    requires IsTerminal(p.kind) && StepOk(u, p)
    ensures Ends(u + [p]) > 0 && AllShut(u + [p])
  {
    assert (u + [p])[..|u|] == u;
    FrameShuts(u, p, Text);
    FrameShuts(u, p, Tool);
    FrameShuts(u, p, Reasoning);
  }

  lemma NothingAfterTerminal(t: seq<Payload>, e: nat)
    requires Clean(t) && e < |t| && IsTerminal(t[e].kind)
    ensures e == |t| - 1
  {
    CleanAt(t, e);
    TerminalCloses(t[..e], t[e]);
    assert t[..e + 1] == t[..e] + [t[e]];
    if e < |t| - 1 {
      CleanAt(t, e + 1);
      NoStepAfterClosing(t[..e + 1], t[e + 1]);
    }
  }

  lemma WalkFrames(t: seq<Payload>)
    requires Clean(t) && t != [] && t[0].kind == RunStarted && Ends(t) > 0
    ensures Framed(t)
  {
    EndsZero(t);
    var e :| 0 <= e < |t| && IsTerminal(t[e].kind);
    NothingAfterTerminal(t, e);
    forall i | 0 <= i < |t| - 1 ensures !IsTerminal(t[i].kind) {
      if IsTerminal(t[i].kind) {
        NothingAfterTerminal(t, i);
      }
    }
    forall i | 0 < i < |t| ensures t[i].kind != RunStarted {
      CleanAt(t, i);
      StartsZero(t[..i]);
      assert t[..i][0] == t[0];
    }
  }

  lemma ShutLife(u: seq<Payload>, lane: Lane, id: string)
    requires Clean(u) && NothingOpen(u)
    ensures LifeAt(u, lane, id) == Fresh || LifeAt(u, lane, id) == Closed
  {
    CleanTracks(u);
    TrackedLife(u, After(u), lane, id);
    assert LaneShut(u, lane);
  }

  lemma WholeAfterFrame(u: seq<Payload>, p: Payload, lane: Lane, id: string)
    requires IsTerminal(p.kind) && (LifeAt(u, lane, id) == Fresh || LifeAt(u, lane, id) == Closed)
    ensures WholeLife(Marks(u + [p], lane, id))
  {
    FrameHasNoLife(u, p, lane, id);
    LifeShapes(Marks(u + [p], lane, id));
  }

  lemma LifeBeforeLast(t: seq<Payload>, lane: Lane, id: string)
    requires Clean(t) && t != [] && IsTerminal(t[|t| - 1].kind)
    ensures LifeAt(t[..|t| - 1], lane, id) == Fresh || LifeAt(t[..|t| - 1], lane, id) == Closed
  {
    CleanAt(t, |t| - 1);
    ShutLife(t[..|t| - 1], lane, id);
  }

  lemma WalkClosesLives(t: seq<Payload>, u: seq<Payload>, p: Payload, lane: Lane, id: string)
    requires Clean(t) && t == u + [p] && IsTerminal(p.kind)
    ensures WholeLife(Marks(t, lane, id))
  {
    assert t[..|t| - 1] == u;
    LifeBeforeLast(t, lane, id);
    WholeAfterFrame(u, p, lane, id);
  }

  lemma StartedSnoc(t: seq<Payload>, p: Payload, id: string)
    ensures StartedBefore(t + [p], |t| + 1, id) <==> StartedBefore(t, |t|, id) || (p.kind == ToolStart && p.toolCallId == id)
  {
    var u := t + [p];
    assert u[|t|] == p;
    if StartedBefore(u, |u|, id) {
      var j :| 0 <= j < |u| && u[j].kind == ToolStart && u[j].toolCallId == id;
      assert j < |t| ==> t[j] == u[j];
    }
    if StartedBefore(t, |t|, id) {
      var j :| 0 <= j < |t| && t[j].kind == ToolStart && t[j].toolCallId == id;
      assert u[j] == t[j];
    }
  }

  lemma BeginSnoc(t: seq<Payload>, p: Payload, id: string)
    ensures Begin in Marks(t + [p], Tool, id) <==> Begin in Marks(t, Tool, id) || (p.kind == ToolStart && p.toolCallId == id)
  {
    assert (t + [p])[..|t|] == t;
  }

  lemma {:induction false} BeginFound(t: seq<Payload>, id: string)
    ensures Begin in Marks(t, Tool, id) <==> StartedBefore(t, |t|, id)
    decreases |t|
  {
    if t != [] {
      var front, p := t[..|t| - 1], t[|t| - 1];
      assert t == front + [p];
      BeginFound(front, id);
      BeginSnoc(front, p, id);
      StartedSnoc(front, p, id);
    }
  }

  lemma StartedPrefix(t: seq<Payload>, i: nat, id: string)
    requires i <= |t|
    ensures StartedBefore(t[..i], |t[..i]|, id) <==> StartedBefore(t, i, id)
  {
    var u := t[..i];
    if StartedBefore(t, i, id) {
      var j :| 0 <= j < i && t[j].kind == ToolStart && t[j].toolCallId == id;
      assert u[j] == t[j];
    }
    if StartedBefore(u, |u|, id) {
      var j :| 0 <= j < |u| && u[j].kind == ToolStart && u[j].toolCallId == id;
      assert t[j] == u[j];
    }
  }

  /** Known to the checker and started before are the same. */
  lemma KnownIsStarted(t: seq<Payload>, i: nat, id: string)
    requires i <= |t| && LifeAt(t[..i], Tool, id) != Broken
    ensures LifeAt(t[..i], Tool, id) != Fresh <==> StartedBefore(t, i, id)
  {
    var ms := Marks(t[..i], Tool, id);
    LifeShapes(ms);
    BeginFound(t[..i], id);
    StartedPrefix(t, i, id);
    if ms != [] {
      assert ms[0] == Begin;
    }
  }

  lemma StepsWithin(t: seq<Payload>, n: nat, name: string)
    requires Clean(t) && n <= |t|
    ensures Count(t[..n], StepFinished, name) <= Count(t[..n], StepStarted, name)
  {
    if n < |t| {
      CleanAt(t, n);
    } else {
      assert t[..n] == t;
    }
    CleanTracks(t[..n]);
    assert TracksSteps(t[..n], After(t[..n]).steps);
  }

  lemma StepsBalance(t: seq<Payload>, name: string)
    requires Clean(t) && Framed(t)
    ensures Count(t, StepFinished, name) == Count(t, StepStarted, name)
  {
    CleanAt(t, |t| - 1);
    assert NothingOpen(t[..|t| - 1]);
    assert Count(t[..|t| - 1], StepStarted, name) == Count(t[..|t| - 1], StepFinished, name);
  }

  lemma ResultsStarted(t: seq<Payload>, i: nat)
    requires Clean(t) && i < |t| && t[i].kind == ToolResult
    ensures StartedBefore(t, i, t[i].toolCallId)
  {
    CleanAt(t, i);
    KnownIsStarted(t, i, t[i].toolCallId);
  }

  lemma WalkIsSound(t: seq<Payload>)
    requires Clean(t) && t != [] && t[0].kind == RunStarted && Ends(t) > 0
    ensures Conforms(t)
  {
    WalkFrames(t);
    forall i | 0 <= i < |t| ensures Plain(t[i]) {
      CleanAt(t, i);
    }
    forall lane, id ensures WholeLife(Marks(t, lane, id)) {
      WalkClosesLives(t, t[..|t| - 1], t[|t| - 1], lane, id);
    }
    forall i | 0 <= i < |t| && t[i].kind == ToolResult ensures StartedBefore(t, i, t[i].toolCallId) {
      ResultsStarted(t, i);
    }
    forall n, name | 0 <= n <= |t| ensures Count(t[..n], StepFinished, name) <= Count(t[..n], StepStarted, name) {
      StepsWithin(t, n, name);
    }
    forall name ensures Count(t, StepFinished, name) == Count(t, StepStarted, name) {
      StepsBalance(t, name);
    }
  }

  // ---------- and back ----------

  lemma {:induction false} BrokenStays(t: seq<Payload>, n: nat, lane: Lane, id: string)
    requires n <= |t| && LifeAt(t[..n], lane, id) == Broken
    ensures LifeAt(t, lane, id) == Broken
    decreases |t| - n
  {
    if n < |t| {
      assert t[..n + 1] == t[..n] + [t[n]];
      LifeSnoc(t[..n], t[n], lane, id);
      BrokenStays(t, n + 1, lane, id);
    } else {
      assert t[..n] == t;
    }
  }

  lemma NeverBroken(t: seq<Payload>, n: nat, lane: Lane, id: string)
    requires WholeLife(Marks(t, lane, id)) && n <= |t|
    ensures LifeAt(t[..n], lane, id) != Broken
  {
    LifeShapes(Marks(t, lane, id));
    if LifeAt(t[..n], lane, id) == Broken {
      BrokenStays(t, n, lane, id);
    }
  }

  lemma MarksFit(t: seq<Payload>, i: nat, lane: Lane)
    requires i < |t| && WholeLife(Marks(t, lane, IdOf(t[i], lane)))
    ensures MarkOk(t[..i], t[i], lane)
  {
    assert t[..i + 1] == t[..i] + [t[i]];
    LifeSnoc(t[..i], t[i], lane, IdOf(t[i], lane));
    NeverBroken(t, i + 1, lane, IdOf(t[i], lane));
  }

  lemma LaneShutBefore(u: seq<Payload>, p: Payload, lane: Lane)
    requires IsTerminal(p.kind) && forall id :: WholeLife(Marks(u + [p], lane, id))
    ensures LaneShut(u, lane)
  {
    forall id ensures LifeAt(u, lane, id) != Open {
      FrameHasNoLife(u, p, lane, id);
      assert WholeLife(Marks(u + [p], lane, id));
      LifeShapes(Marks(u + [p], lane, id));
    }
  }

  lemma StepsEvenBefore(u: seq<Payload>, p: Payload)
    requires IsTerminal(p.kind) && StepsEven(u + [p])
    ensures StepsEven(u)
  {
    assert (u + [p])[..|u|] == u;
    forall name ensures Count(u, StepStarted, name) == Count(u, StepFinished, name) {
      assert Count(u + [p], StepStarted, name) == Count(u + [p], StepFinished, name);
    }
  }

  lemma ClosedAtTerminal(t: seq<Payload>)
    requires t != [] && IsTerminal(t[|t| - 1].kind) && (forall lane, id :: WholeLife(Marks(t, lane, id))) && StepsEven(t)
    ensures NothingOpen(t[..|t| - 1])
  {
    var u, p := t[..|t| - 1], t[|t| - 1];
    assert t == u + [p];
    LaneShutBefore(u, p, Text);
    LaneShutBefore(u, p, Tool);
    LaneShutBefore(u, p, Reasoning);
    StepsEvenBefore(u, p);
  }

  lemma StepsLeft(t: seq<Payload>, i: nat)
    requires Conforms(t) && i < |t| && t[i].kind == StepFinished
    ensures Count(t[..i], StepFinished, t[i].name) < Count(t[..i], StepStarted, t[i].name)
  {
    assert t[..i + 1][..i] == t[..i];
    assert Count(t[..i + 1], StepFinished, t[i].name) <= Count(t[..i + 1], StepStarted, t[i].name);
  }

  lemma ResultsKnown(t: seq<Payload>, i: nat)
    requires Conforms(t) && i < |t| && t[i].kind == ToolResult
    ensures LifeAt(t[..i], Tool, t[i].toolCallId) == Open || LifeAt(t[..i], Tool, t[i].toolCallId) == Closed
  {
    var id := t[i].toolCallId;
    assert WholeLife(Marks(t, Tool, id));
    NeverBroken(t, i, Tool, id);
    KnownIsStarted(t, i, id);
  }

  lemma FramesFit(t: seq<Payload>, i: nat)
    requires Framed(t) && i < |t|
    ensures Ends(t[..i]) == 0 && (t[i].kind == RunStarted ==> Starts(t[..i]) == 0)
  {
    EndsZero(t[..i]);
    StartsZero(t[..i]);
  }

  lemma ConformingStep(t: seq<Payload>, i: nat)
    requires Conforms(t) && i < |t|
    ensures StepOk(t[..i], t[i])
  {
    FramesFit(t, i);
    assert WholeLife(Marks(t, Text, IdOf(t[i], Text))) && WholeLife(Marks(t, Tool, IdOf(t[i], Tool))) && WholeLife(Marks(t, Reasoning, IdOf(t[i], Reasoning)));
    MarksFit(t, i, Text);
    MarksFit(t, i, Tool);
    MarksFit(t, i, Reasoning);
    if t[i].kind == ToolResult {
      ResultsKnown(t, i);
    }
    if t[i].kind == StepFinished {
      StepsLeft(t, i);
    }
    if IsTerminal(t[i].kind) {
      ClosedAtTerminal(t);
    }
  }

  lemma {:induction false} CountsOfFramed(t: seq<Payload>)
    requires Framed(t)
    ensures Starts(t) == 1 && Ends(t) == 1 && LastIsTerminal(t)
  {
    var n := |t| - 1;
    EndsZero(t[..n]);
    StartsOfRest(t, |t|);
  }

  lemma {:induction false} StartsOfRest(t: seq<Payload>, n: nat)
    requires 1 <= n <= |t| && t[0].kind == RunStarted && forall i | 0 < i < |t| :: t[i].kind != RunStarted
    ensures Starts(t[..n]) == 1
    ensures n == |t| ==> Starts(t) == 1
  {
    assert t[..n][..n - 1] == t[..n - 1];
    if n > 1 {
      StartsOfRest(t, n - 1);
    }
    assert n == |t| ==> t[..n] == t;
  }

  lemma WalkIsComplete(t: seq<Payload>)
    requires Conforms(t)
    ensures Clean(t) && t[0].kind == RunStarted && Starts(t) == 1 && Ends(t) == 1 && LastIsTerminal(t)
  {
    forall i | 0 <= i < |t| ensures StepOk(t[..i], t[i]) {
      ConformingStep(t, i);
    }
    CleanFrom(t, |t|);
    assert t[..|t|] == t;
    CountsOfFramed(t);
  }

  /** VerifyStreamSequence reports nothing exactly if the trace obeys the rules. */
  method VerifyStreamSequence(t: seq<Payload>) returns (out: seq<Violation>)
    ensures out == [] <==> Conforms(t)
  {
    var c;
    out, c := Walk(t);
    ghost var clean := out == [];
    if clean && t != [] && Ends(t) > 0 {
      WalkIsSound(t);
    }
    if Conforms(t) {
      WalkIsComplete(t);
    }
    out := out + When(c.started != 1, EVT01, |t|) + When(c.terminals != 1, EVT02, |t|);
    if c.terminals == 1 {
      var last := CheckLast(t);
      out := out + last;
    }
  }
}
