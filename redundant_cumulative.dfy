/**
 * `redundant_cumulative` of `pyjobshop/solvers/utils.py`: the connected
 * components of a resource graph in which resources used by one task are
 * linked, together with, per component, the tasks that use one of its
 * resources.
 */
module RedundantCumulative {
  import opened ProblemData
  import opened SolverUtils
  import Sets

  /** An adjacency dictionary: `graph[u]` is the set of neighbours of `u`. */
  type Graph = map<int, set<int>>

  /** `defaultdict(set)` reading: an absent node has no neighbours. */
  function Adj(g: Graph, u: int): set<int>
  {
    if u in g then g[u] else {}
  }

  /** The effect of `graph[a].update(to)` for every `a` in `from`: each such `a` becomes a key. */
  function Connect(g: Graph, from: set<int>, to: set<int>): (r: Graph)
    ensures r.Keys == g.Keys + from
    ensures forall u :: u in r ==> r[u] == Adj(g, u) + (if u in from then to else {})
  {
    map u | u in g.Keys + from :: Adj(g, u) + (if u in from then to else {})
  }

  /** The neighbours of any node after `Connect`, absent nodes included. */
  lemma {:induction false} AdjConnect(g: Graph, from: set<int>, to: set<int>, u: int)
    ensures Adj(Connect(g, from, to), u) == Adj(g, u) + (if u in from then to else {})
  {
  }

  /** Two adjacency dictionaries with the same nodes and the same neighbours are equal. */
  lemma {:induction false} SameGraph(g1: Graph, g2: Graph)
    requires g1.Keys == g2.Keys && forall u :: u in g1 ==> Adj(g1, u) == Adj(g2, u)
    ensures g1 == g2
  {
    assert forall u :: u in g1 ==> g1[u] == g2[u];
  }

  lemma {:induction false} ConnectSameFrom(g: Graph, a: set<int>, b: set<int>, c: set<int>)
    ensures Connect(Connect(g, a, b), a, c) == Connect(g, a, b + c)
  {
    var g1 := Connect(Connect(g, a, b), a, c);
    var g2 := Connect(g, a, b + c);
    forall u | u in g1 ensures Adj(g1, u) == Adj(g2, u) {
      AdjConnect(Connect(g, a, b), a, c, u);
      AdjConnect(g, a, b, u);
      AdjConnect(g, a, b + c, u);
    }
    SameGraph(g1, g2);
  }

  lemma {:induction false} ConnectSameTo(g: Graph, a: set<int>, b: set<int>, c: set<int>)
    ensures Connect(Connect(g, a, c), b, c) == Connect(g, a + b, c)
  {
    var g1 := Connect(Connect(g, a, c), b, c);
    var g2 := Connect(g, a + b, c);
    forall u | u in g1 ensures Adj(g1, u) == Adj(g2, u) {
      ConnectSameToAt(g, a, b, c, u);
    }
    SameGraph(g1, g2);
  }

  /** Adding the same set for either of two reasons adds it once. */
  lemma {:induction false} UnionTwice(x: set<int>, c: set<int>, p: bool, q: bool)
    ensures x + (if p then c else {}) + (if q then c else {}) == x + (if p || q then c else {})
  {
  }

  /** Adding a subset of a set before the set itself adds the set. */
  lemma {:induction false} UnionSubset(x: set<int>, a: set<int>, t: set<int>, p: bool, q: bool)
    requires a <= t && (p ==> q)
    ensures x + (if p then a else {}) + (if q then t else {}) == x + (if q then t else {})
  {
  }

  /** `ConnectSameTo` at one node. */
  lemma {:induction false} ConnectSameToAt(g: Graph, a: set<int>, b: set<int>, c: set<int>, u: int)
    ensures Adj(Connect(Connect(g, a, c), b, c), u) == Adj(Connect(g, a + b, c), u)
  {
    AdjConnect(Connect(g, a, c), b, c, u);
    AdjConnect(g, a, c, u);
    AdjConnect(g, a + b, c, u);
    UnionTwice(Adj(g, u), c, u in a, u in b);
    assert (u in a + b) == (u in a || u in b);
  }

  /** Linking a subset first and then the whole set is the same as linking the whole set. */
  lemma {:induction false} ConnectBoth(g: Graph, a: set<int>, t: set<int>)
    requires a <= t
    ensures Connect(Connect(g, a, a), t, t) == Connect(g, t, t)
  {
    var g1 := Connect(Connect(g, a, a), t, t);
    var g2 := Connect(g, t, t);
    forall u | u in g1 ensures Adj(g1, u) == Adj(g2, u) {
      ConnectBothAt(g, a, t, u);
    }
    SameGraph(g1, g2);
  }

  /** `ConnectBoth` at one node. */
  lemma {:induction false} ConnectBothAt(g: Graph, a: set<int>, t: set<int>, u: int)
    requires a <= t
    ensures Adj(Connect(Connect(g, a, a), t, t), u) == Adj(Connect(g, t, t), u)
  {
    AdjConnect(Connect(g, a, a), t, t, u);
    AdjConnect(g, a, a, u);
    AdjConnect(g, t, t, u);
    UnionSubset(Adj(g, u), a, t, u in a, u in t);
  }

  lemma {:induction false} ConnectNothing(g: Graph, to: set<int>)
    ensures Connect(g, {}, to) == g
  {
    var g1 := Connect(g, {}, to);
    forall u | u in g1 ensures Adj(g1, u) == Adj(g, u) {
      AdjConnect(g, {}, to, u);
    }
    SameGraph(g1, g);
  }

  lemma {:induction false} ConnectOne(g: Graph, u: int, to: set<int>)
    ensures g[u := Adj(g, u) + to] == Connect(g, {u}, to)
  {
    var g1 := g[u := Adj(g, u) + to];
    var g2 := Connect(g, {u}, to);
    forall w | w in g1 ensures Adj(g1, w) == Adj(g2, w) {
    }
    SameGraph(g1, g2);
  }

  // ------------------------------------------------------ the graph as a value

  /** The union of a sequence of sets. */
  function UnionAll(sets: seq<set<int>>): set<int>
  {
    if sets == [] then {} else UnionAll(sets[..|sets| - 1]) + sets[|sets| - 1]
  }

  lemma {:induction false} UnionAllMembers(sets: seq<set<int>>, x: int)
    ensures x in UnionAll(sets) <==> exists k :: 0 <= k < |sets| && x in sets[k]
  {
    if sets != [] {
      var prefix := sets[..|sets| - 1];
      UnionAllMembers(prefix, x);
      if x in UnionAll(prefix) {
        var k :| 0 <= k < |prefix| && x in prefix[k];
        assert sets[k] == prefix[k];
      }
      if exists k :: 0 <= k < |sets| && x in sets[k] {
        var k :| 0 <= k < |sets| && x in sets[k];
        if k < |prefix| {
          assert prefix[k] == sets[k];
        }
      }
    }
  }

  /** Every set in `sets` linked as a clique, one after the other. */
  function CliqueGraph(sets: seq<set<int>>): Graph
  {
    if sets == [] then map[] else var last := sets[|sets| - 1]; Connect(CliqueGraph(sets[..|sets| - 1]), last, last)
  }

  /** The union of the sets in `sets` that contain `u`. */
  function NeighboursIn(sets: seq<set<int>>, u: int): set<int>
  {
    if sets == [] then {}
    else NeighboursIn(sets[..|sets| - 1], u) + if u in sets[|sets| - 1] then sets[|sets| - 1] else {}
  }

  lemma {:induction false} NeighboursInMembers(sets: seq<set<int>>, u: int, y: int)
    ensures y in NeighboursIn(sets, u) <==> exists k :: 0 <= k < |sets| && u in sets[k] && y in sets[k]
  {
    if sets != [] {
      var prefix := sets[..|sets| - 1];
      NeighboursInMembers(prefix, u, y);
      if y in NeighboursIn(prefix, u) {
        var k :| 0 <= k < |prefix| && u in prefix[k] && y in prefix[k];
        assert sets[k] == prefix[k];
      }
      if exists k :: 0 <= k < |sets| && u in sets[k] && y in sets[k] {
        var k :| 0 <= k < |sets| && u in sets[k] && y in sets[k];
        if k < |prefix| {
          assert prefix[k] == sets[k];
        }
      }
    }
  }

  /** The nodes of the clique graph are the members of the sets; the neighbours of a node are the sets containing it. */
  lemma {:induction false} CliqueGraphForm(sets: seq<set<int>>)
    ensures CliqueGraph(sets).Keys == UnionAll(sets)
    ensures forall u :: u in CliqueGraph(sets) ==> CliqueGraph(sets)[u] == NeighboursIn(sets, u)
    ensures forall u :: u !in UnionAll(sets) ==> NeighboursIn(sets, u) == {}
  {
    if sets != [] {
      var prefix := sets[..|sets| - 1];
      CliqueGraphForm(prefix);
      var g := CliqueGraph(sets);
      forall u | u in g ensures g[u] == NeighboursIn(sets, u) {
        assert Adj(CliqueGraph(prefix), u) == NeighboursIn(prefix, u);
      }
    }
  }

  /** Every neighbour is itself a node. */
  ghost predicate NeighboursAreNodes(g: Graph)
  {
    forall u :: u in g ==> g[u] <= g.Keys
  }

  /** `v` is a neighbour of `u` exactly when `u` is a neighbour of `v`. */
  ghost predicate Symmetric(g: Graph)
  {
    forall u, v :: u in g && v in g[u] ==> v in g && u in g[v]
  }

  /** A clique graph is undirected and closed: two nodes are adjacent exactly when some set holds both. */
  lemma {:induction false} CliqueGraphAdjacency(sets: seq<set<int>>, u: int, v: int)
    ensures var g := CliqueGraph(sets);
            u in g && v in g[u] <==> exists k :: 0 <= k < |sets| && u in sets[k] && v in sets[k]
  {
    CliqueGraphForm(sets);
    NeighboursInMembers(sets, u, v);
    UnionAllMembers(sets, u);
  }

  lemma {:induction false} CliqueGraphShape(sets: seq<set<int>>)
    ensures NeighboursAreNodes(CliqueGraph(sets)) && Symmetric(CliqueGraph(sets))
  {
    var g := CliqueGraph(sets);
    CliqueGraphForm(sets);
    forall u | u in g ensures g[u] <= g.Keys {
      forall v | v in g[u] ensures v in g.Keys {
        CliqueGraphAdjacency(sets, u, v);
        var k :| 0 <= k < |sets| && u in sets[k] && v in sets[k];
        UnionAllMembers(sets, v);
      }
    }
    forall u, v | u in g && v in g[u] ensures v in g && u in g[v] {
      CliqueGraphAdjacency(sets, u, v);
      CliqueGraphAdjacency(sets, v, u);
      var k :| 0 <= k < |sets| && u in sets[k] && v in sets[k];
      UnionAllMembers(sets, v);
    }
  }

  // ------------------------------------------------------ building the graph

  /** The resources of the modes `idcs`: `{res for m in idcs for res in modes[m].resources}`. */
  function ResourcesOf(modes: seq<Mode>, idcs: seq<nat>): set<int>
  {
    if idcs == [] then {} else ResourcesOf(modes, idcs[..|idcs| - 1]) + ResourceSet(modes, idcs[|idcs| - 1])
  }

  /** The resources of all modes of task `t`. */
  function TaskResources(modes: seq<Mode>, t: int): set<int>
  {
    ResourcesOf(modes, ModesOf(modes, t))
  }

  function TaskResourceSets(modes: seq<Mode>, numTasks: nat): (r: seq<set<int>>)
    ensures |r| == numTasks && forall t :: 0 <= t < numTasks ==> r[t] == TaskResources(modes, t)
  {
    seq(numTasks, t => TaskResources(modes, t))
  }

  function TaskMachineSets(modes: seq<Mode>, numTasks: nat, machineIdcs: seq<int>): (r: seq<set<int>>)
    ensures |r| == numTasks && forall t :: 0 <= t < numTasks ==> r[t] == TaskResources(modes, t) * Elements(machineIdcs)
  {
    seq(numTasks, t => TaskResources(modes, t) * Elements(machineIdcs))
  }

  /** The ordered pairs `product(s, repeat=2)`. */
  function Square(s: set<int>): (r: set<(int, int)>)
    ensures forall x, y :: (x, y) in r <==> x in s && y in s
  {
    set x, y | x in s && y in s :: (x, y)
  }

  /** The sources of the pairs in `edges`. */
  function Firsts(edges: set<(int, int)>): set<int>
  {
    set e | e in edges :: e.0
  }

  /** The targets of the pairs in `edges` that start at `u`. */
  function Row(edges: set<(int, int)>, u: int): set<int>
  {
    set e | e in edges && e.0 == u :: e.1
  }

  /** The dictionary after `graph[e.0].add(e.1)` for every pair `e` of `edges`, in any order. */
  function AddEdges(g: Graph, edges: set<(int, int)>): Graph
  {
    map u | u in g.Keys + Firsts(edges) :: Adj(g, u) + Row(edges, u)
  }

  lemma {:induction false} AdjAddEdges(g: Graph, edges: set<(int, int)>, u: int)
    ensures Adj(AddEdges(g, edges), u) == Adj(g, u) + Row(edges, u)
  {
  }

  lemma {:induction false} AddEdgesNone(g: Graph)
    ensures AddEdges(g, {}) == g
  {
    var g1 := AddEdges(g, {});
    forall u | u in g1 ensures Adj(g1, u) == Adj(g, u) {
      AdjAddEdges(g, {}, u);
    }
    SameGraph(g1, g);
  }

  lemma {:induction false} RowAdd(edges: set<(int, int)>, a: int, b: int, u: int)
    ensures Row(edges + {(a, b)}, u) == Row(edges, u) + (if u == a then {b} else {})
  {
    if u == a {
      assert (a, b).1 in Row(edges + {(a, b)}, u);
    }
  }

  lemma {:induction false} FirstsAdd(edges: set<(int, int)>, a: int, b: int)
    ensures Firsts(edges + {(a, b)}) == Firsts(edges) + {a}
  {
    assert (a, b).0 in Firsts(edges + {(a, b)});
  }

  /** One more `graph[a].add(b)`. */
  lemma {:induction false} AddEdgesStep(g: Graph, edges: set<(int, int)>, a: int, b: int)
    ensures var r := AddEdges(g, edges); r[a := Adj(r, a) + {b}] == AddEdges(g, edges + {(a, b)})
  {
    var r := AddEdges(g, edges);
    var g1 := r[a := Adj(r, a) + {b}];
    var g2 := AddEdges(g, edges + {(a, b)});
    FirstsAdd(edges, a, b);
    forall u | u in g1 ensures Adj(g1, u) == Adj(g2, u) {
      RowAdd(edges, a, b, u);
      AdjAddEdges(g, edges, u);
      AdjAddEdges(g, edges + {(a, b)}, u);
    }
    SameGraph(g1, g2);
  }

  lemma {:induction false} SquareFirsts(s: set<int>)
    ensures Firsts(Square(s)) == s
  {
    forall x | x in s ensures x in Firsts(Square(s)) {
      assert (x, x) in Square(s);
    }
  }

  lemma {:induction false} SquareRow(s: set<int>, u: int)
    ensures Row(Square(s), u) == if u in s then s else {}
  {
    if u in s {
      forall y | y in s ensures y in Row(Square(s), u) {
        assert (u, y) in Square(s);
      }
    }
  }

  /** All ordered pairs of `s` link every member of `s` to all of `s`. */
  lemma {:induction false} AddEdgesSquare(g: Graph, s: set<int>)
    ensures AddEdges(g, Square(s)) == Connect(g, s, s)
  {
    var g1 := AddEdges(g, Square(s));
    var g2 := Connect(g, s, s);
    SquareFirsts(s);
    forall u | u in g1 ensures Adj(g1, u) == Adj(g2, u) {
      SquareRow(s, u);
    }
    SameGraph(g1, g2);
  }

  /** `for idx1, idx2 in product(s, repeat=2): graph[idx1].add(idx2)`. */
  method AddPairs(g: Graph, s: set<int>) returns (r: Graph)
    ensures r == Connect(g, s, s)
  {
    AddEdgesNone(g);
    r := g;
    var pairs := Square(s);
    var todo := pairs;
    ghost var done: set<(int, int)> := {};
    while todo != {}
      invariant todo <= pairs && done == pairs - todo
      invariant r == AddEdges(g, done)
      decreases |todo|
    {
      var e: (int, int) :| e in todo;
      var (a, b) := e;
      AddEdgesStep(g, done, a, b);
      r := r[a := Adj(r, a) + {b}];
      todo := todo - {(a, b)};
      done := done + {(a, b)};
    }
    assert done == pairs;
    AddEdgesSquare(g, s);
  }

  /** Linking one more source node `a` to `to`. */
  lemma {:induction false} ConnectStep(g: Graph, done: set<int>, a: int, to: set<int>)
    ensures var c := Connect(g, done, to); c[a := Adj(c, a) + to] == Connect(g, done + {a}, to)
  {
    var c := Connect(g, done, to);
    ConnectOne(c, a, to);
    ConnectSameTo(g, done, {a}, to);
  }

  /** `ResourcesOf` grows by one mode's resources per element. */
  lemma {:induction false} ResourcesOfPrefix(modes: seq<Mode>, idcs: seq<nat>, i: nat)
    requires i < |idcs|
    ensures ResourcesOf(modes, idcs[..i + 1]) == ResourcesOf(modes, idcs[..i]) + ResourceSet(modes, idcs[i])
  {
    assert idcs[..i + 1][..i] == idcs[..i];
  }

  /** The dictionary after `graph[res1].update(to)` for each `res1` of `from`, in order. */
  function UpdateSeq(g: Graph, from: seq<int>, to: set<int>): Graph
  {
    if from == [] then g
    else var before := UpdateSeq(g, from[..|from| - 1], to); before[from[|from| - 1] := Adj(before, from[|from| - 1]) + to]
  }

  lemma {:induction false} UpdateSeqConnects(g: Graph, from: seq<int>, to: set<int>)
    ensures UpdateSeq(g, from, to) == Connect(g, Elements(from), to)
  {
    if from == [] {
      ConnectNothing(g, to);
      assert Elements(from) == {};
    } else {
      var prefix := from[..|from| - 1];
      UpdateSeqConnects(g, prefix, to);
      ConnectStep(g, Elements(prefix), from[|from| - 1], to);
      assert Elements(from) == Elements(prefix) + {from[|from| - 1]} by {
        assert from == prefix + [from[|from| - 1]];
      }
    }
  }

  /** `for res1 in resources1: graph[res1].update(to)`. */
  method UpdateAll(g: Graph, resources1: seq<int>, to: set<int>) returns (r: Graph)
    ensures r == Connect(g, Elements(resources1), to)
  {
    r := g;
    var k := 0;
    while k < |resources1|
      invariant k <= |resources1|
      invariant r == UpdateSeq(g, resources1[..k], to)
    {
      assert resources1[..k + 1][..k] == resources1[..k];
      r := r[resources1[k] := Adj(r, resources1[k]) + to];
      k := k + 1;
    }
    assert resources1[..k] == resources1;
    UpdateSeqConnects(g, resources1, to);
  }

  /** The pairs (m1, m2) for a fixed first mode m1, m2 running over all modes of the task. */
  method AddModeRow(g: Graph, modes: seq<Mode>, idcs: seq<nat>, m1: nat) returns (r: Graph)
    requires m1 < |modes| && forall k :: 0 <= k < |idcs| ==> idcs[k] < |modes|
    ensures r == if idcs == [] then g else Connect(g, ResourceSet(modes, m1), ResourcesOf(modes, idcs))
  {
    var resources1 := modes[m1].resources;
    r := g;
    var j := 0;
    while j < |idcs|
      invariant j <= |idcs|
      invariant r == if j == 0 then g else Connect(g, Elements(resources1), ResourcesOf(modes, idcs[..j]))
    {
      r := UpdateAll(r, resources1, Elements(modes[idcs[j]].resources));
      ResourcesOfPrefix(modes, idcs, j);
      assert ResourceSet(modes, idcs[j]) == Elements(modes[idcs[j]].resources);
      if j == 0 {
        assert idcs[..0] == [];
        assert ResourcesOf(modes, idcs[..1]) == ResourceSet(modes, idcs[0]);
      } else {
        ConnectSameFrom(g, Elements(resources1), ResourcesOf(modes, idcs[..j]), Elements(modes[idcs[j]].resources));
      }
      j := j + 1;
    }
    assert idcs[..j] == idcs;
  }

  /**
   * The mode-pair loop: for every ordered pair of modes (m1, m2) of the task
   * and every resource of m1, `graph[res1].update(resources of m2)`.
   */
  method AddModePairs(g: Graph, modes: seq<Mode>, idcs: seq<nat>) returns (r: Graph)
    requires forall k :: 0 <= k < |idcs| ==> idcs[k] < |modes|
    ensures r == Connect(g, ResourcesOf(modes, idcs), ResourcesOf(modes, idcs))
  {
    var all := ResourcesOf(modes, idcs);
    ConnectNothing(g, all);
    r := g;
    var i := 0;
    while i < |idcs|
      invariant i <= |idcs|
      invariant r == Connect(g, ResourcesOf(modes, idcs[..i]), all)
    {
      r := AddModeRow(r, modes, idcs, idcs[i]);
      ResourcesOfPrefix(modes, idcs, i);
      ConnectSameTo(g, ResourcesOf(modes, idcs[..i]), ResourceSet(modes, idcs[i]), all);
      i := i + 1;
    }
    assert idcs[..i] == idcs;
  }

  lemma {:induction false} MachinesOfTask(modes: seq<Mode>, t: int, machineIdcs: seq<int>)
    ensures TaskResources(modes, t) * Elements(machineIdcs) <= TaskResources(modes, t)
  {
  }

  lemma {:induction false} CliqueGraphStep(modes: seq<Mode>, t: nat)
    ensures var last := TaskResources(modes, t);
            CliqueGraph(TaskResourceSets(modes, t + 1)) == Connect(CliqueGraph(TaskResourceSets(modes, t)), last, last)
  {
    TaskResourceSetsPrefix(modes, t);
  }

  lemma {:induction false} TaskResourceSetsPrefix(modes: seq<Mode>, t: nat)
    ensures TaskResourceSets(modes, t + 1)[..t] == TaskResourceSets(modes, t)
  {
  }

  lemma {:induction false} MachineGraphStep(modes: seq<Mode>, t: nat, machineIdcs: seq<int>)
    ensures var last := TaskResources(modes, t) * Elements(machineIdcs);
            CliqueGraph(TaskMachineSets(modes, t + 1, machineIdcs)) == Connect(CliqueGraph(TaskMachineSets(modes, t, machineIdcs)), last, last)
  {
    TaskMachineSetsSnoc(modes, t, machineIdcs);
    CliqueGraphSnoc(TaskMachineSets(modes, t, machineIdcs), TaskResources(modes, t) * Elements(machineIdcs));
  }

  lemma {:induction false} TaskMachineSetsSnoc(modes: seq<Mode>, t: nat, machineIdcs: seq<int>)
    ensures TaskMachineSets(modes, t + 1, machineIdcs) == TaskMachineSets(modes, t, machineIdcs) + [TaskResources(modes, t) * Elements(machineIdcs)]
  {
  }

  lemma {:induction false} CliqueGraphSnoc(sets: seq<set<int>>, last: set<int>)
    ensures CliqueGraph(sets + [last]) == Connect(CliqueGraph(sets), last, last)
  {
    assert (sets + [last])[..|sets|] == sets;
  }

  /**
   * The graph construction as written: per task, every ordered pair of its
   * machine resources, then every pair (resource of one mode, resource of
   * another mode of the same task).
   */
  method BuildGraph(modes: seq<Mode>, numTasks: nat, machineIdcs: seq<int>) returns (graph: Graph)
    ensures graph == CliqueGraph(TaskResourceSets(modes, numTasks))
  {
    graph := map[];
    var t := 0;
    while t < numTasks
      invariant t <= numTasks
      invariant graph == CliqueGraph(TaskResourceSets(modes, t))
    {
      var modeIdcs := ModesOf(modes, t);
      var resourceIdcs := ResourcesOf(modes, modeIdcs);
      var machines := resourceIdcs * Elements(machineIdcs);
      ghost var before := graph;
      graph := AddPairs(graph, machines);
      graph := AddModePairs(graph, modes, modeIdcs);
      ConnectBoth(before, machines, resourceIdcs);
      CliqueGraphStep(modes, t);
      t := t + 1;
    }
  }

  /** The graph construction restricted to machines: per task, every ordered pair of its machine resources. */
  method BuildMachineGraph(modes: seq<Mode>, numTasks: nat, machineIdcs: seq<int>) returns (graph: Graph)
    ensures graph == CliqueGraph(TaskMachineSets(modes, numTasks, machineIdcs))
  {
    graph := map[];
    var t := 0;
    while t < numTasks
      invariant t <= numTasks
      invariant graph == CliqueGraph(TaskMachineSets(modes, t, machineIdcs))
    {
      var modeIdcs := ModesOf(modes, t);
      var resourceIdcs := ResourcesOf(modes, modeIdcs);
      var machines := resourceIdcs * Elements(machineIdcs);
      graph := AddPairs(graph, machines);
      MachineGraphStep(modes, t, machineIdcs);
      t := t + 1;
    }
  }

  // ------------------------------------------------------ reachability

  /** `p` is a walk along the edges of `g`. */
  ghost predicate IsPath(g: Graph, p: seq<int>)
  {
    |p| >= 1 && forall i :: 0 <= i < |p| - 1 ==> p[i] in g && p[i + 1] in g[p[i]]
  }

  ghost predicate Reach(g: Graph, a: int, b: int)
  {
    exists p :: IsPath(g, p) && p[0] == a && p[|p| - 1] == b
  }

  /** The nodes reachable from `a`: its connected component in an undirected graph. */
  ghost function ReachSet(g: Graph, a: int): set<int>
  {
    set u | u in g.Keys && Reach(g, a, u)
  }

  /** No edge leaves `s`. */
  ghost predicate Closed(g: Graph, s: set<int>)
  {
    forall u :: u in s && u in g ==> g[u] <= s
  }

  lemma {:induction false} ClosedAt(g: Graph, s: set<int>, u: int)
    requires Closed(g, s) && u in s && u in g
    ensures g[u] <= s
  {
  }

  lemma {:induction false} ReachRefl(g: Graph, a: int)
    ensures Reach(g, a, a)
  {
    assert IsPath(g, [a]);
  }

  lemma {:induction false} ReachStep(g: Graph, a: int, b: int, c: int)
    requires a in g && b in g[a] && Reach(g, b, c)
    ensures Reach(g, a, c)
  {
    var p :| IsPath(g, p) && p[0] == b && p[|p| - 1] == c;
    var q := [a] + p;
    forall i | 0 <= i < |q| - 1 ensures q[i] in g && q[i + 1] in g[q[i]] {
      if i > 0 {
        assert q[i] == p[i - 1] && q[i + 1] == p[i];
      }
    }
    assert IsPath(g, q) && q[0] == a && q[|q| - 1] == c;
  }

  lemma {:induction false} ReachPathTrans(g: Graph, p: seq<int>, c: int)
    requires IsPath(g, p) && Reach(g, p[|p| - 1], c)
    ensures Reach(g, p[0], c)
    decreases |p|
  {
    if |p| > 1 {
      var rest := p[1..];
      assert IsPath(g, rest) by {
        forall i | 0 <= i < |rest| - 1 ensures rest[i] in g && rest[i + 1] in g[rest[i]] {
          assert rest[i] == p[i + 1] && rest[i + 1] == p[i + 2];
        }
      }
      ReachPathTrans(g, rest, c);
      ReachStep(g, p[0], p[1], c);
    }
  }

  lemma {:induction false} ReachTrans(g: Graph, a: int, b: int, c: int)
    requires Reach(g, a, b) && Reach(g, b, c)
    ensures Reach(g, a, c)
  {
    var p :| IsPath(g, p) && p[0] == a && p[|p| - 1] == b;
    ReachPathTrans(g, p, c);
  }

  lemma {:induction false} ReachPathSym(g: Graph, p: seq<int>)
    requires Symmetric(g) && IsPath(g, p)
    ensures Reach(g, p[|p| - 1], p[0])
    decreases |p|
  {
    if |p| == 1 {
      ReachRefl(g, p[0]);
    } else {
      var init := p[..|p| - 1];
      assert IsPath(g, init) by {
        forall i | 0 <= i < |init| - 1 ensures init[i] in g && init[i + 1] in g[init[i]] {
          assert init[i] == p[i] && init[i + 1] == p[i + 1];
        }
      }
      ReachPathSym(g, init);
      var last, prev := p[|p| - 1], p[|p| - 2];
      assert prev in g && last in g[prev];
      ReachStep(g, last, prev, p[0]);
    }
  }

  /** In an undirected graph reachability goes both ways. */
  lemma {:induction false} ReachSym(g: Graph, a: int, b: int)
    requires Symmetric(g) && Reach(g, a, b)
    ensures Reach(g, b, a)
  {
    var p :| IsPath(g, p) && p[0] == a && p[|p| - 1] == b;
    ReachPathSym(g, p);
  }

  lemma {:induction false} PathStays(g: Graph, s: set<int>, p: seq<int>, i: nat)
    requires Closed(g, s) && IsPath(g, p) && i < |p|
    ensures p[0] in s ==> p[i] in s
  {
    if i > 0 {
      PathStays(g, s, p, i - 1);
      assert p[i - 1] in g && p[i] in g[p[i - 1]];
      if p[0] in s {
        ClosedAt(g, s, p[i - 1]);
      }
    }
  }

  /** A walk never leaves a closed set. */
  lemma {:induction false} ClosedReach(g: Graph, s: set<int>, a: int, b: int)
    requires Closed(g, s) && Reach(g, a, b)
    ensures a in s ==> b in s
  {
    var p :| IsPath(g, p) && p[0] == a && p[|p| - 1] == b;
    PathStays(g, s, p, |p| - 1);
  }

  /** Two nodes that reach each other have the same component. */
  lemma {:induction false} ReachSetSame(g: Graph, a: int, b: int)
    requires Symmetric(g) && Reach(g, a, b)
    ensures ReachSet(g, a) == ReachSet(g, b)
  {
    ReachSym(g, a, b);
    forall u | u in g.Keys ensures Reach(g, a, u) <==> Reach(g, b, u) {
      if Reach(g, b, u) {
        ReachTrans(g, a, b, u);
      }
      if Reach(g, a, u) {
        ReachTrans(g, b, a, u);
      }
    }
  }

  // ------------------------------------------------------ depth-first search

  /**
   * The nested `dfs(node, component)`: marks `node` and, recursively, every
   * unvisited neighbour. The nodes it adds are exactly reachable from `node`, and
   * none of them has an unvisited neighbour afterwards.
   */
  method Dfs(graph: Graph, node: int, visited: set<int>, component: set<int>)
      returns (visited': set<int>, component': set<int>)
    requires NeighboursAreNodes(graph)
    requires visited <= graph.Keys && node in graph && node !in visited
    ensures visited + {node} <= visited' <= graph.Keys
    ensures component' == component + (visited' - visited)
    ensures forall u :: u in visited' - visited ==> graph[u] <= visited'
    ensures forall u :: u in visited' - visited ==> Reach(graph, node, u)
    decreases |graph.Keys - visited|
  {
    visited' := visited + {node};
    component' := component + {node};
    ReachRefl(graph, node);
    var todo := Adj(graph, node);
    while todo != {}
      invariant todo <= graph[node]
      invariant visited + {node} <= visited' <= graph.Keys
      invariant component' == component + (visited' - visited)
      invariant graph[node] - todo <= visited'
      invariant forall u :: u in visited' - visited && u != node ==> graph[u] <= visited'
      invariant forall u :: u in visited' - visited ==> Reach(graph, node, u)
      decreases |todo|
    {
      Sets.NonEmpty(todo);
      var neighbor :| neighbor in todo;
      todo := todo - {neighbor};
      if neighbor !in visited' {
        Sets.ProperSubsetCard(graph.Keys - visited', graph.Keys - visited, node);
        ghost var before := visited';
        visited', component' := Dfs(graph, neighbor, visited', component');
        forall u | u in visited' - visited ensures Reach(graph, node, u) {
          if u !in before {
            ReachStep(graph, node, neighbor, u);
          }
        }
      }
    }
  }

  /** What a new component is: the graph closed under the enlarged visited set, the new nodes a whole class. */
  lemma {:induction false} NewComponent(g: Graph, visited: set<int>, visited': set<int>, node: int)
    requires Symmetric(g) && Closed(g, visited)
    requires node in g && node !in visited && visited + {node} <= visited' <= g.Keys
    requires forall u :: u in visited' - visited ==> g[u] <= visited'
    requires forall u :: u in visited' - visited ==> Reach(g, node, u)
    ensures Closed(g, visited')
    ensures visited' - visited == ReachSet(g, node)
  {
    forall u | u in visited' && u in g ensures g[u] <= visited' {
      if u in visited {
        ClosedAt(g, visited, u);
      }
    }
    forall u | u in g.Keys && Reach(g, node, u) ensures u in visited' - visited {
      ClosedReach(g, visited', node, u);
      ReachSym(g, node, u);
      ClosedReach(g, visited, u, node);
    }
  }

  /** Each member of `sets` is part of their union. */
  lemma {:induction false} UnionAllContains(sets: seq<set<int>>, k: nat)
    requires k < |sets|
    ensures sets[k] <= UnionAll(sets)
  {
    forall x | x in sets[k] ensures x in UnionAll(sets) {
      UnionAllMembers(sets, x);
    }
  }

  lemma {:induction false} UnionAllAppend(sets: seq<set<int>>, s: set<int>)
    ensures UnionAll(sets + [s]) == UnionAll(sets) + s
  {
    assert (sets + [s])[..|sets|] == sets;
  }

  /**
   * `sets` are the connected components of `g`: they cover its nodes, none is
   * empty, no two meet, and each is the set reachable from any of its members.
   */
  ghost predicate IsComponents(g: Graph, sets: seq<set<int>>)
  {
    && UnionAll(sets) == g.Keys
    && (forall k :: 0 <= k < |sets| ==> sets[k] != {})
    && (forall j, k :: 0 <= j < k < |sets| ==> sets[j] * sets[k] == {})
    && (forall k, u :: 0 <= k < |sets| && u in sets[k] ==> sets[k] == ReachSet(g, u))
  }

  /** The state of the component loop: `visited` is the union of the components found so far. */
  ghost predicate PartialComponents(g: Graph, sets: seq<set<int>>, visited: set<int>)
  {
    && UnionAll(sets) == visited
    && Closed(g, visited)
    && (forall k :: 0 <= k < |sets| ==> sets[k] != {})
    && (forall j, k :: 0 <= j < k < |sets| ==> sets[j] * sets[k] == {})
    && (forall k, u :: 0 <= k < |sets| && u in sets[k] ==> sets[k] == ReachSet(g, u))
  }

  /** The nodes one depth-first search adds form a further component. */
  lemma {:induction false} AppendComponent(g: Graph, sets: seq<set<int>>, visited: set<int>, visited': set<int>, node: int)
    requires Symmetric(g) && PartialComponents(g, sets, visited)
    requires node in g && node !in visited && visited + {node} <= visited' <= g.Keys
    requires forall u :: u in visited' - visited ==> g[u] <= visited'
    requires forall u :: u in visited' - visited ==> Reach(g, node, u)
    ensures PartialComponents(g, sets + [visited' - visited], visited')
  {
    var component := visited' - visited;
    NewComponent(g, visited, visited', node);
    forall u | u in component ensures component == ReachSet(g, u) {
      ReachSetSame(g, node, u);
    }
    forall k | 0 <= k < |sets| ensures sets[k] * component == {} {
      UnionAllContains(sets, k);
    }
    UnionAllAppend(sets, component);
    var sets' := sets + [component];
    assert forall k :: 0 <= k < |sets| ==> sets'[k] == sets[k];
  }

  /** The loop `for node in nodes: if node not in visited: ...` that collects the components. */
  method Components(graph: Graph) returns (components: seq<set<int>>)
    requires NeighboursAreNodes(graph) && Symmetric(graph)
    ensures IsComponents(graph, components)
  {
    var nodes := graph.Keys;
    var visited: set<int> := {};
    components := [];
    var todo := nodes;
    while todo != {}
      invariant todo <= nodes && nodes - todo <= visited <= nodes
      invariant PartialComponents(graph, components, visited)
      decreases |todo|
    {
      Sets.NonEmpty(todo);
      var node :| node in todo;
      todo := todo - {node};
      if node !in visited {
        var component: set<int>;
        ghost var before := visited;
        visited, component := Dfs(graph, node, visited, {});
        AppendComponent(graph, components, before, visited, node);
        components := components + [component];
      }
    }
    assert visited == nodes;
  }

  // ------------------------------------------------------ tasks per component

  /** The tasks below `n` with a mode resource in `component`. */
  function TasksOf(modes: seq<Mode>, component: set<int>, n: nat): (r: set<int>)
    ensures forall t :: t in r <==> 0 <= t < n && component * TaskResources(modes, t) != {}
  {
    set t | 0 <= t < n && component * TaskResources(modes, t) != {}
  }

  /** `tasks[comp_idx].add(task_idx)` for each component that meets the task's resources. */
  method ComponentTasks(modes: seq<Mode>, numTasks: nat, components: seq<set<int>>) returns (tasks: seq<set<int>>)
    ensures |tasks| == |components|
    ensures forall k :: 0 <= k < |components| ==> tasks[k] == TasksOf(modes, components[k], numTasks)
  {
    tasks := seq(|components|, _ => {});
    var t := 0;
    while t < numTasks
      invariant t <= numTasks && |tasks| == |components|
      invariant forall k :: 0 <= k < |components| ==> tasks[k] == TasksOf(modes, components[k], t)
    {
      var taskResources := ResourcesOf(modes, ModesOf(modes, t));
      var k := 0;
      while k < |components|
        invariant k <= |components| && |tasks| == |components|
        invariant forall c :: 0 <= c < k ==> tasks[c] == TasksOf(modes, components[c], t + 1)
        invariant forall c :: k <= c < |components| ==> tasks[c] == TasksOf(modes, components[c], t)
      {
        if components[k] * taskResources != {} {
          tasks := tasks[k := tasks[k] + {t}];
        }
        k := k + 1;
      }
      t := t + 1;
    }
  }

  // ------------------------------------------------------ the whole function

  /** A component: the resources it connects and the tasks that may use them. */
  datatype Component = Component(machines: set<int>, tasks: set<int>)

  function MachineSets(r: seq<Component>): (m: seq<set<int>>)
    ensures |m| == |r| && forall k :: 0 <= k < |r| ==> m[k] == r[k].machines
  {
    seq(|r|, k requires 0 <= k < |r| => r[k].machines)
  }

  /** `redundant_cumulative` as written: the graph also links the non-machine resources of a task. */
  method RedundantCumulative(modes: seq<Mode>, numTasks: nat, machineIdcs: seq<int>) returns (r: seq<Component>)
    ensures IsComponents(CliqueGraph(TaskResourceSets(modes, numTasks)), MachineSets(r))
    ensures forall k :: 0 <= k < |r| ==> r[k].tasks == TasksOf(modes, r[k].machines, numTasks)
  {
    var graph := BuildGraph(modes, numTasks, machineIdcs);
    CliqueGraphShape(TaskResourceSets(modes, numTasks));
    var components := Components(graph);
    var tasks := ComponentTasks(modes, numTasks, components);
    r := seq(|components|, k requires 0 <= k < |components| => Component(components[k], tasks[k]));
    assert MachineSets(r) == components;
  }

  /** The same function on the graph of machine resources only. */
  method RedundantCumulativeMachines(modes: seq<Mode>, numTasks: nat, machineIdcs: seq<int>) returns (r: seq<Component>)
    ensures IsComponents(CliqueGraph(TaskMachineSets(modes, numTasks, machineIdcs)), MachineSets(r))
    ensures forall k :: 0 <= k < |r| ==> r[k].tasks == TasksOf(modes, r[k].machines, numTasks)
  {
    var graph := BuildMachineGraph(modes, numTasks, machineIdcs);
    CliqueGraphShape(TaskMachineSets(modes, numTasks, machineIdcs));
    var components := Components(graph);
    var tasks := ComponentTasks(modes, numTasks, components);
    r := seq(|components|, k requires 0 <= k < |components| => Component(components[k], tasks[k]));
    assert MachineSets(r) == components;
  }

  // ------------------------------------------------------ properties

  /** A set of the clique graph lies inside every component it meets. */
  lemma {:induction false} CliqueInsideComponent(sets: seq<set<int>>, comps: seq<set<int>>, t: nat, k: nat)
    requires IsComponents(CliqueGraph(sets), comps) && t < |sets| && k < |comps|
    requires comps[k] * sets[t] != {}
    ensures sets[t] <= comps[k]
  {
    var g := CliqueGraph(sets);
    Sets.NonEmpty(comps[k] * sets[t]);
    var x :| x in comps[k] * sets[t];
    assert comps[k] == ReachSet(g, x);
    forall y | y in sets[t] ensures y in ReachSet(g, x) {
      CliqueStep(sets, t, x, y);
    }
  }

  lemma {:induction false} CliqueStep(sets: seq<set<int>>, t: nat, x: int, y: int)
    requires t < |sets| && x in sets[t] && y in sets[t]
    ensures y in ReachSet(CliqueGraph(sets), x)
  {
    var g := CliqueGraph(sets);
    CliqueGraphAdjacency(sets, x, y);
    CliqueGraphAdjacency(sets, y, y);
    ReachRefl(g, y);
    ReachStep(g, x, y, y);
  }

  /**
   * Every task whose set is non-empty meets exactly one component, and then
   * lies inside it.
   */
  lemma {:induction false} TaskInOneComponent(sets: seq<set<int>>, comps: seq<set<int>>, t: nat)
    requires IsComponents(CliqueGraph(sets), comps) && t < |sets| && sets[t] != {}
    ensures exists k :: 0 <= k < |comps| && sets[t] <= comps[k]
    ensures forall j, k :: 0 <= j < |comps| && 0 <= k < |comps| && comps[j] * sets[t] != {} && comps[k] * sets[t] != {} ==> j == k
  {
    CliqueGraphForm(sets);
    Sets.NonEmpty(sets[t]);
    var x :| x in sets[t];
    UnionAllMembers(sets, x);
    UnionAllMembers(comps, x);
    var k :| 0 <= k < |comps| && x in comps[k];
    assert x in comps[k] * sets[t];
    CliqueInsideComponent(sets, comps, t, k);
    forall j, k | 0 <= j < |comps| && 0 <= k < |comps| && comps[j] * sets[t] != {} && comps[k] * sets[t] != {}
      ensures j == k
    {
      CliqueInsideComponent(sets, comps, t, j);
      CliqueInsideComponent(sets, comps, t, k);
      assert x in comps[j] * comps[k];
    }
  }

  /** The components of the machine graph hold machines only. */
  lemma {:induction false} MachineComponentsAreMachines(modes: seq<Mode>, numTasks: nat, machineIdcs: seq<int>, comps: seq<set<int>>, k: nat)
    requires IsComponents(CliqueGraph(TaskMachineSets(modes, numTasks, machineIdcs)), comps) && k < |comps|
    ensures comps[k] <= Elements(machineIdcs)
  {
    var sets := TaskMachineSets(modes, numTasks, machineIdcs);
    CliqueGraphForm(sets);
    UnionAllContains(comps, k);
    forall x | x in comps[k] ensures x in Elements(machineIdcs) {
      UnionAllMembers(sets, x);
    }
  }

  // ------------------------------------------------------ an instance without machines

  /** One task with one mode on resource 0, which is not a machine. */
  function NoMachineModes(): seq<Mode>
  {
    [Mode(0, [0], 1, [1])]
  }

  lemma {:induction false} NoMachineTaskResources()
    ensures TaskResourceSets(NoMachineModes(), 1) == [{0}]
    ensures TaskMachineSets(NoMachineModes(), 1, []) == [{}]
  {
    var modes := NoMachineModes();
    assert TaskResources(modes, 0) == {0} by {
      assert ModesOf(modes, 0) == [0];
      assert ResourcesOf(modes, [0]) == ResourceSet(modes, 0);
      assert Elements(modes[0].resources) == {0};
    }
    var none: seq<int> := [];
    assert Elements(none) == {};
    assert TaskResources(modes, 0) * Elements(none) == {};
    assert TaskResourceSets(modes, 1)[0] == {0};
    assert TaskMachineSets(modes, 1, none)[0] == {};
  }

  /** As written, the instance without machines has a component (holding resource 0). */
  lemma {:induction false} NoMachinesAsWritten(comps: seq<set<int>>)
    requires IsComponents(CliqueGraph(TaskResourceSets(NoMachineModes(), 1)), comps)
    ensures |comps| >= 1 && 0 in UnionAll(comps)
  {
    NoMachineTaskResources();
    CliqueGraphForm([{0}]);
    assert [{0}][..0] == [];
  }

  /** On the machine graph the same instance has no component. */
  lemma {:induction false} NoMachinesCorrected(comps: seq<set<int>>)
    requires IsComponents(CliqueGraph(TaskMachineSets(NoMachineModes(), 1, [])), comps)
    ensures comps == []
  {
    NoMachineTaskResources();
    var sets: seq<set<int>> := [{}];
    CliqueGraphForm(sets);
    assert sets[..0] == [];
    if comps != [] {
      UnionAllContains(comps, 0);
      Sets.NonEmpty(comps[0]);
    }
  }
}
