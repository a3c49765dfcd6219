/**
  structured.go, lines 226-330: the two searches over Go types that run before a JSON schema is
  reflected. A program's types form a finite graph: a node is one reflect.Type.
*/
module TypeGraph {
  import opened Common

  datatype Kind = Pointer | Map | Array | Slice | Struct | String | Unsupported | Other

  /** A field is followed unless it is unexported or tagged `json:"-"`. */
  datatype Field = Field(target: nat, exported: bool, omitted: bool)

  datatype Node = Node(kind: Kind, elem: nat, key: nat, fields: seq<Field>)

  type Graph = seq<Node>

  predicate WellFormed(g: Graph) {
    forall n | n in g ::
      n.elem < |g| && n.key < |g| && forall f | f in n.fields :: f.target < |g|
  }

  predicate IsType(g: Graph, t: nat) {
    t < |g|
  }

  function AllTypes(g: Graph): set<nat> {
    set t | 0 <= t < |g| && IsType(g, t)
  }

  predicate Followed(f: Field) {
    f.exported && !f.omitted
  }

  predicate Composite(n: Node) {
    n.kind == Map || n.kind == Array || n.kind == Slice || n.kind == Struct
  }

  /** The type graph's edges: pointees, elements and followed fields. */
  ghost predicate Edge(g: Graph, a: nat, b: nat)
    requires a < |g|
  {
    var n := g[a];
    || ((n.kind == Pointer || n.kind == Map || n.kind == Array || n.kind == Slice) && b == n.elem)
    || (n.kind == Struct && exists f | f in n.fields :: Followed(f) && f.target == b)
  }

  ghost predicate Path(g: Graph, p: seq<nat>) {
    && |p| > 0
    && (forall k | 0 <= k < |p| :: p[k] < |g|)
    && (forall k | 0 <= k < |p| - 1 :: Edge(g, p[k], p[k + 1]))
  }

  ghost predicate Repeats(p: seq<nat>) {
    exists i, j :: 0 <= i < j < |p| && p[i] == p[j]
  }

  /** A walk from `t` comes back to a type it has visited. */
  ghost predicate CycleFrom(g: Graph, t: nat) {
    exists p :: Path(g, p) && p[0] == t && Repeats(p)
  }

  ghost predicate Connects(g: Graph, p: seq<nat>, a: nat, b: nat) {
    Path(g, p) && p[0] == a && p[|p| - 1] == b
  }

  /** A walk of at least one edge. */
  ghost predicate Leads(g: Graph, a: nat, b: nat) {
    exists p :: Connects(g, p, a, b) && |p| > 1
  }

  // ---------- paths ----------

  lemma JoinPaths(g: Graph, p: seq<nat>, q: seq<nat>)
    requires Path(g, p) && Path(g, q) && Edge(g, p[|p| - 1], q[0])
    ensures Path(g, p + q)
  {
    var r := p + q;
    forall k | 0 <= k < |r| - 1
      ensures Edge(g, r[k], r[k + 1])
    {
      if k < |p| - 1 {
        assert r[k] == p[k] && r[k + 1] == p[k + 1];
      } else if k == |p| - 1 {
        assert r[k] == p[|p| - 1] && r[k + 1] == q[0];
      } else {
        assert r[k] == q[k - |p|] && r[k + 1] == q[k - |p| + 1];
      }
    }
  }

  lemma SlicePath(g: Graph, p: seq<nat>, i: nat, j: nat)
    requires Path(g, p) && i < j <= |p|
    ensures Path(g, p[i..j])
  {
    var q := p[i..j];
    forall k | 0 <= k < |q| - 1
      ensures Edge(g, q[k], q[k + 1])
    {
      assert Edge(g, p[i + k], p[i + k + 1]);
    }
  }

  lemma CycleViaEdge(g: Graph, a: nat, b: nat)
    requires a < |g| && b < |g| && Edge(g, a, b) && CycleFrom(g, b)
    ensures CycleFrom(g, a)
  {
    var p :| Path(g, p) && p[0] == b && Repeats(p);
    JoinPaths(g, [a], p);
    var i, j :| 0 <= i < j < |p| && p[i] == p[j];
    assert ([a] + p)[i + 1] == ([a] + p)[j + 1];
    assert Repeats([a] + p);
  }

  lemma CycleViaLoop(g: Graph, t: nat)
    requires Leads(g, t, t)
    ensures CycleFrom(g, t)
  {
    var p :| Connects(g, p, t, t) && |p| > 1;
    assert p[0] == p[|p| - 1];
    assert Repeats(p);
  }

  lemma LeadsViaEdge(g: Graph, a: nat, b: nat, c: nat)
    requires b < |g| && c < |g| && Edge(g, b, c)
    requires a == b || Leads(g, a, b)
    ensures Leads(g, a, c)
  {
    if a == b {
      assert Connects(g, [a, c], a, c);
    } else {
      var p :| Connects(g, p, a, b) && |p| > 1;
      JoinPaths(g, p, [c]);
      assert Connects(g, p + [c], a, c);
    }
  }

  lemma CycleFromSecond(g: Graph, p: seq<nat>, j: nat)
    requires Path(g, p) && 0 < j < |p| && p[0] == p[j]
    ensures CycleFrom(g, p[1])
  {
    var loop := p[1..j + 1];
    SlicePath(g, p, 1, j + 1);
    assert loop[|loop| - 1] == p[j] && Edge(g, p[0], p[1]);
    JoinPaths(g, loop, [p[1]]);
    var q := loop + [p[1]];
    assert q[0] == q[|loop|];
    assert Repeats(q);
  }

  /** A cycle from `t` is a cycle from one of its successors. */
  lemma CycleHasSuccessor(g: Graph, t: nat) returns (c: nat)
    requires t < |g| && CycleFrom(g, t)
    ensures c < |g| && Edge(g, t, c) && CycleFrom(g, c)
  {
    var p :| Path(g, p) && p[0] == t && Repeats(p);
    var i, j :| 0 <= i < j < |p| && p[i] == p[j];
    c := p[1];
    assert Edge(g, p[0], p[1]);
    if i > 0 {
      SlicePath(g, p, 1, |p|);
      assert p[1..|p|][i - 1] == p[1..|p|][j - 1];
      assert Repeats(p[1..|p|]);
    } else {
      CycleFromSecond(g, p, j);
    }
  }

  // ---------- pointer chains ----------

  /** Every node but the last is a pointer to its successor. */
  ghost predicate Chain(g: Graph, p: seq<nat>) {
    && |p| > 0
    && (forall k | 0 <= k < |p| :: p[k] < |g|)
    && (forall k | 0 <= k < |p| - 1 :: g[p[k]].kind == Pointer && p[k + 1] == g[p[k]].elem)
  }

  lemma ChainIsPath(g: Graph, p: seq<nat>)
    requires Chain(g, p)
    ensures Path(g, p)
  {
  }

  /** Strips pointers the way both searches do: a set of the pointers seen, until a non-pointer or a repeat. */
  method StripPointers(g: Graph, t: nat) returns (cyclic: bool, base: nat, ghost p: seq<nat>)
    requires WellFormed(g) && t < |g|
    ensures Chain(g, p) && p[0] == t && p[|p| - 1] == base
    ensures cyclic ==> Repeats(p) && g[base].kind == Pointer
    ensures !cyclic ==> g[base].kind != Pointer
  {
    var pointers: set<nat> := {};
    ghost var all := AllTypes(g);
    base := t;
    p := [t];
    while g[base].kind == Pointer
      invariant base < |g| && Chain(g, p) && p[0] == t && p[|p| - 1] == base
      invariant pointers <= all
      invariant forall x | x in pointers :: exists k :: 0 <= k < |p| - 1 && p[k] == x
      decreases all - pointers
    {
      if base in pointers {
        ghost var k :| 0 <= k < |p| - 1 && p[k] == base;
        assert p[k] == p[|p| - 1];
        return true, base, p;
      }
      assert IsType(g, base);
      assert g[base] in g;
      var next := g[base].elem;
      ghost var q := p + [next];
      forall x | x in pointers + {base}
        ensures exists k :: 0 <= k < |q| - 1 && q[k] == x
      {
        if x == base {
          assert q[|p| - 1] == x;
        } else {
          var k :| 0 <= k < |p| - 1 && p[k] == x;
          assert q[k] == x;
        }
      }
      pointers := pointers + {base};
      base := next;
      p := q;
    }
    cyclic := false;
  }

  lemma {:induction false} CycleThroughChain(g: Graph, p: seq<nat>)
    requires Chain(g, p)
    ensures CycleFrom(g, p[|p| - 1]) ==> CycleFrom(g, p[0])
    ensures g[p[|p| - 1]].kind != Pointer ==> CycleFrom(g, p[0]) ==> CycleFrom(g, p[|p| - 1])
    decreases |p|
  {
    if |p| > 1 {
      var rest := p[1..];
      assert Chain(g, rest);
      CycleThroughChain(g, rest);
      assert Edge(g, p[0], p[1]);
      if CycleFrom(g, rest[|rest| - 1]) {
        CycleViaEdge(g, p[0], p[1]);
      }
      if CycleFrom(g, p[0]) {
        var c := CycleHasSuccessor(g, p[0]);
        assert c == p[1];
      }
    }
  }

  lemma {:induction false} LeadsThroughChain(g: Graph, a: nat, p: seq<nat>)
    requires Chain(g, p) && Leads(g, a, p[0])
    ensures Leads(g, a, p[|p| - 1])
    decreases |p|
  {
    if |p| > 1 {
      LeadsViaEdge(g, a, p[0], p[1]);
      assert Chain(g, p[1..]);
      LeadsThroughChain(g, a, p[1..]);
    }
  }

  // ---------- schemaTypeHasCycle ----------

  class CycleSearch {
    const g: Graph
    var active: set<nat>
    var visited: set<nat>

    constructor (g: Graph)
      ensures this.g == g && active == {} && visited == {}
    {
      this.g := g;
      active, visited := {}, {};
    }

    ghost predicate Valid()
      reads this
    {
      && WellFormed(g)
      && (forall x | x in active :: x < |g|)
      && (forall x | x in visited :: x < |g| && !CycleFrom(g, x))
    }

    /** Every active type leads to `t`. */
    ghost predicate On(t: nat)
      reads this
    {
      forall x | x in active :: Leads(g, x, t)
    }

    /** Exact: the answer is whether a cycle can be reached, pure pointer cycles included. */
    method HasCycle(t: nat) returns (found: bool)
      requires Valid() && t < |g| && On(t)
      modifies this
      ensures Valid() && active == old(active)
      ensures found <==> CycleFrom(g, t)
      decreases AllTypes(g) - active, 1
    {
      var cyclic, base, p := StripPointers(g, t);
      CycleThroughChain(g, p);
      if cyclic {
        ChainIsPath(g, p);
        return true;
      }
      if !Composite(g[base]) {
        if CycleFrom(g, base) {
          var c := CycleHasSuccessor(g, base);
        }
        return false;
      }
      if base in active {
        LeadsThroughChain(g, base, p);
        CycleViaLoop(g, base);
        return true;
      }
      if base in visited {
        return false;
      }
      forall x | x in active
        ensures Leads(g, x, base)
      {
        LeadsThroughChain(g, x, p);
      }
      found := AnySuccessorHasCycle(base);
    }

    method AnySuccessorHasCycle(t: nat) returns (found: bool)
      requires Valid() && t < |g| && On(t) && Composite(g[t]) && t !in active
      modifies this
      ensures Valid() && active == old(active)
      ensures found <==> CycleFrom(g, t)
      decreases AllTypes(g) - active, 0
    {
      assert g[t] in g;
      assert IsType(g, t);
      active := active + {t};
      found := false;
      if g[t].kind == Struct {
        var i := 0;
        while i < |g[t].fields| && !found
          invariant 0 <= i <= |g[t].fields|
          invariant Valid() && active == old(active) + {t}
          invariant found ==> CycleFrom(g, t)
          invariant !found ==> forall k | 0 <= k < i && Followed(g[t].fields[k]) :: !CycleFrom(g, g[t].fields[k].target)
        {
          var field := g[t].fields[i];
          if Followed(field) {
            assert field in g[t].fields;
            Extend(t, field.target);
            found := HasCycle(field.target);
            if found {
              CycleViaEdge(g, t, field.target);
            }
          }
          i := i + 1;
        }
      } else {
        Extend(t, g[t].elem);
        found := HasCycle(g[t].elem);
        if found {
          CycleViaEdge(g, t, g[t].elem);
        }
      }
      if !found {
        if CycleFrom(g, t) {
          var c := CycleHasSuccessor(g, t);
          assert false;
        }
        visited := visited + {t};
      }
      active := active - {t};
    }

    lemma Extend(t: nat, c: nat)
      requires WellFormed(g) && t < |g| && c < |g| && Edge(g, t, c)
      requires forall x | x in active :: x == t || Leads(g, x, t)
      ensures On(c)
    {
      forall x | x in active
        ensures Leads(g, x, c)
      {
        LeadsViaEdge(g, x, t, c);
      }
    }
  }

  /** A nil type has no cycle. */
  method SchemaTypeHasCycle(g: Graph, t: Option<nat>) returns (found: bool)
    requires WellFormed(g) && (t.Some? ==> t.value < |g|)
    ensures found <==> t.Some? && CycleFrom(g, t.value)
  {
    if t.None? {
      return false;
    }
    var search := new CycleSearch(g);
    found := search.HasCycle(t.value);
  }

  // ---------- validateSchemaType ----------

  /** The pointer chain from `t` ends, in a type of the given kind. */
  ghost predicate ChainEnds(g: Graph, t: nat, kind: Kind) {
    exists p :: Chain(g, p) && p[0] == t && g[p[|p| - 1]].kind == kind
  }

  ghost predicate Endless(g: Graph, t: nat) {
    exists p :: Chain(g, p) && p[0] == t && Repeats(p) && g[p[|p| - 1]].kind == Pointer
  }

  /** A type the reflector cannot describe. */
  ghost predicate Bad(g: Graph, t: nat)
    requires t < |g|
  {
    || g[t].kind == Unsupported
    || Endless(g, t)
    || (g[t].kind == Map && !ChainEnds(g, g[t].key, String))
  }

  /** A bad type is reached by a walk from `t` that enters no type of `stack`. */
  ghost predicate BadReachable(g: Graph, t: nat, stack: set<nat>) {
    exists p :: Path(g, p) && p[0] == t && (forall k | 0 <= k < |p| :: p[k] !in stack) && Bad(g, p[|p| - 1])
  }

  lemma {:induction false} ChainsAgree(g: Graph, p: seq<nat>, q: seq<nat>)
    requires Chain(g, p) && Chain(g, q) && p[0] == q[0]
    requires g[p[|p| - 1]].kind != Pointer && g[q[|q| - 1]].kind != Pointer
    ensures p == q
    decreases |p|
  {
    if |p| > 1 && |q| > 1 {
      assert Chain(g, p[1..]) && Chain(g, q[1..]);
      ChainsAgree(g, p[1..], q[1..]);
      assert p == [p[0]] + p[1..] && q == [q[0]] + q[1..];
    }
  }

  lemma SplitChain(g: Graph, p: seq<nat>, i: nat)
    requires Chain(g, p) && i < |p|
    ensures Chain(g, p[i..])
  {
    assert forall k | 0 <= k < |p| - i :: p[i..][k] == p[i + k];
  }

  lemma {:induction false} PointersPrefixChain(g: Graph, p: seq<nat>, q: seq<nat>)
    requires Chain(g, p) && g[p[|p| - 1]].kind != Pointer
    requires Chain(g, q) && q[0] == p[0] && g[q[|q| - 1]].kind == Pointer
    ensures |q| < |p| && q == p[..|q|]
    decreases |q|
  {
    if |q| > 1 {
      SplitChain(g, p, 1);
      SplitChain(g, q, 1);
      PointersPrefixChain(g, p[1..], q[1..]);
      assert q == [q[0]] + q[1..] && p[..|q|] == [p[0]] + p[1..][..|q| - 1];
    }
  }

  /** A chain that ends cannot be endless: it would have to repeat its own end. */
  lemma EndedIsNotEndless(g: Graph, p: seq<nat>, q: seq<nat>)
    requires Chain(g, p) && g[p[|p| - 1]].kind != Pointer
    requires Chain(g, q) && q[0] == p[0] && g[q[|q| - 1]].kind == Pointer
    ensures !Repeats(q)
  {
    PointersPrefixChain(g, p, q);
    if Repeats(q) {
      var i, j :| 0 <= i < j < |q| && q[i] == q[j];
      SplitChain(g, p, i);
      SplitChain(g, p, j);
      assert p[i..][|p| - i - 1] == p[|p| - 1] && p[j..][|p| - j - 1] == p[|p| - 1];
      ChainsAgree(g, p[i..], p[j..]);
    }
  }

  lemma EndlessIsExact(g: Graph, t: nat, p: seq<nat>, cyclic: bool)
    requires Chain(g, p) && p[0] == t
    requires cyclic ==> Repeats(p) && g[p[|p| - 1]].kind == Pointer
    requires !cyclic ==> g[p[|p| - 1]].kind != Pointer
    ensures Endless(g, t) <==> cyclic
    ensures ChainEnds(g, t, String) <==> !cyclic && g[p[|p| - 1]].kind == String
  {
    if !cyclic && Endless(g, t) {
      var q :| Chain(g, q) && q[0] == t && Repeats(q) && g[q[|q| - 1]].kind == Pointer;
      EndedIsNotEndless(g, p, q);
    }
    if ChainEnds(g, t, String) {
      var q :| Chain(g, q) && q[0] == t && g[q[|q| - 1]].kind == String;
      if cyclic {
        EndedIsNotEndless(g, q, p);
      } else {
        ChainsAgree(g, p, q);
      }
    }
  }

  lemma OnlyPointersAreEndless(g: Graph, t: nat)
    requires t < |g| && g[t].kind != Pointer
    ensures !Endless(g, t)
  {
    EndlessIsExact(g, t, [t], false);
  }

  lemma BadViaEdge(g: Graph, a: nat, b: nat, stack: set<nat>, deeper: set<nat>)
    requires a < |g| && b < |g| && Edge(g, a, b) && a !in stack && stack <= deeper
    requires BadReachable(g, b, deeper)
    ensures BadReachable(g, a, stack)
  {
    var p :| Path(g, p) && p[0] == b && (forall k | 0 <= k < |p| :: p[k] !in deeper) && Bad(g, p[|p| - 1]);
    JoinPaths(g, [a], p);
    var q := [a] + p;
    assert forall k | 0 <= k < |q| :: q[k] !in stack;
    assert q[|q| - 1] == p[|p| - 1];
  }

  /** The index of the last visit to `t`. */
  lemma {:induction false} LastVisit(p: seq<nat>, t: nat) returns (i: nat)
    requires |p| > 0 && p[0] == t
    ensures i < |p| && p[i] == t && forall k | i < k < |p| :: p[k] != t
    decreases |p|
  {
    if p[|p| - 1] == t {
      i := |p| - 1;
    } else {
      i := LastVisit(p[..|p| - 1], t);
    }
  }

  /** Ignoring what is on the stack loses nothing: a walk that comes back to `t` can start from its last visit. */
  lemma BadHasSuccessor(g: Graph, t: nat, stack: set<nat>) returns (c: nat)
    requires t < |g| && BadReachable(g, t, stack) && !Bad(g, t)
    ensures c < |g| && Edge(g, t, c) && BadReachable(g, c, stack + {t})
  {
    var p :| Path(g, p) && p[0] == t && (forall k | 0 <= k < |p| :: p[k] !in stack) && Bad(g, p[|p| - 1]);
    var i := LastVisit(p, t);
    c := p[i + 1];
    var q := p[i + 1..];
    assert Edge(g, p[i], p[i + 1]);
    SlicePath(g, p, i + 1, |p|);
    forall k | 0 <= k < |q|
      ensures q[k] !in stack + {t}
    {
      assert q[k] == p[i + 1 + k];
    }
    assert q[|q| - 1] == p[|p| - 1];
  }

  predicate OnlyComposites(g: Graph, stack: set<nat>) {
    forall x | x in stack :: x < |g| && Composite(g[x])
  }

  lemma {:induction false} BadThroughChain(g: Graph, p: seq<nat>, stack: set<nat>)
    requires Chain(g, p) && g[p[|p| - 1]].kind != Pointer && OnlyComposites(g, stack)
    ensures BadReachable(g, p[0], stack) <==> BadReachable(g, p[|p| - 1], stack)
    decreases |p|
  {
    if |p| > 1 {
      SplitChain(g, p, 1);
      BadThroughChain(g, p[1..], stack);
      assert Edge(g, p[0], p[1]);
      if BadReachable(g, p[1], stack) {
        BadViaEdge(g, p[0], p[1], stack, stack);
      }
      EndlessIsExact(g, p[0], p, false);
      if BadReachable(g, p[0], stack) {
        var c := BadHasSuccessor(g, p[0], stack);
        BadWithSmallerStack(g, c, stack, stack + {p[0]});
      }
    }
  }

  lemma BadWithSmallerStack(g: Graph, t: nat, stack: set<nat>, larger: set<nat>)
    requires stack <= larger && BadReachable(g, t, larger)
    ensures BadReachable(g, t, stack)
  {
    var p :| Path(g, p) && p[0] == t && (forall k | 0 <= k < |p| :: p[k] !in larger) && Bad(g, p[|p| - 1]);
    assert forall k | 0 <= k < |p| :: p[k] !in stack;
  }

  lemma BadAtOnce(g: Graph, t: nat, stack: set<nat>)
    requires t < |g| && t !in stack && Bad(g, t)
    ensures BadReachable(g, t, stack)
  {
    assert Path(g, [t]);
  }

  class SchemaValidator {
    const g: Graph
    var stack: set<nat>

    constructor (g: Graph)
      ensures this.g == g && stack == {}
    {
      this.g := g;
      stack := {};
    }

    /** Exact: accepted unless a bad type is reachable without entering the types being validated. */
    method Validate(t: nat) returns (ok: bool)
      requires WellFormed(g) && t < |g| && OnlyComposites(g, stack)
      modifies this
      ensures stack == old(stack)
      ensures ok <==> !BadReachable(g, t, stack)
      decreases AllTypes(g) - stack, 1
    {
      var cyclic, base, p := StripPointers(g, t);
      EndlessIsExact(g, t, p, cyclic);
      if cyclic {
        assert g[t].kind == Pointer;
        BadAtOnce(g, t, stack);
        return false;
      }
      BadThroughChain(g, p, stack);
      OnlyPointersAreEndless(g, base);
      if !Composite(g[base]) {
        if g[base].kind == Unsupported {
          BadAtOnce(g, base, stack);
          return false;
        }
        if BadReachable(g, base, stack) {
          var c := BadHasSuccessor(g, base, stack);
        }
        return true;
      }
      if base in stack {
        return true;
      }
      ok := ValidateComposite(base);
    }

    method ValidateComposite(t: nat) returns (ok: bool)
      requires WellFormed(g) && t < |g| && OnlyComposites(g, stack) && Composite(g[t]) && t !in stack
      modifies this
      ensures stack == old(stack)
      ensures ok <==> !BadReachable(g, t, stack)
      decreases AllTypes(g) - stack, 0
    {
      assert g[t] in g;
      assert IsType(g, t);
      OnlyPointersAreEndless(g, t);
      stack := stack + {t};
      ok := true;
      if g[t].kind == Map {
        var cyclic, base, p := StripPointers(g, g[t].key);
        EndlessIsExact(g, g[t].key, p, cyclic);
        ok := !cyclic && g[base].kind == String;
        if !ok {
          BadAtOnce(g, t, old(stack));
        }
      }
      if ok {
        if g[t].kind == Struct {
          var i := 0;
          while i < |g[t].fields| && ok
            invariant 0 <= i <= |g[t].fields|
            invariant stack == old(stack) + {t}
            invariant !ok ==> BadReachable(g, t, old(stack))
            invariant ok ==> forall k | 0 <= k < i && Followed(g[t].fields[k]) :: !BadReachable(g, g[t].fields[k].target, stack)
          {
            var field := g[t].fields[i];
            if Followed(field) {
              assert field in g[t].fields;
              ok := Validate(field.target);
              if !ok {
                BadViaEdge(g, t, field.target, old(stack), stack);
              }
            }
            i := i + 1;
          }
        } else {
          ok := Validate(g[t].elem);
          if !ok {
            BadViaEdge(g, t, g[t].elem, old(stack), stack);
          }
        }
      }
      if ok && BadReachable(g, t, old(stack)) {
        var c := BadHasSuccessor(g, t, old(stack));
        assert false;
      }
      stack := stack - {t};
    }
  }

  /** A nil type is rejected; any other is accepted exactly when no bad type can be reached from it. */
  method ValidateSchemaType(g: Graph, t: Option<nat>) returns (ok: bool)
    requires WellFormed(g) && (t.Some? ==> t.value < |g|)
    ensures ok <==> t.Some? && !BadReachable(g, t.value, {})
  {
    if t.None? {
      return false;
    }
    var validator := new SchemaValidator(g);
    ok := validator.Validate(t.value);
  }
}
