/** Cycle detection over the graph of threads waiting for mutex owners. */
module GraphCheck {
  type Label = nat

  type Graph = map<Label, seq<Label>>

  /** Every edge ends in a vertex. */
  ghost predicate Closed(g: Graph) {
    forall u, w :: u in g && w in g[u] ==> w in g
  }

  ghost predicate Edge(g: Graph, u: Label, w: Label) {
    u in g && w in g[u]
  }

  ghost predicate Path(g: Graph, p: seq<Label>) {
    forall i :: 0 <= i < |p| - 1 ==> Edge(g, p[i], p[i + 1])
  }

  /** There is a directed cycle. */
  ghost predicate Cyclic(g: Graph) {
    exists p: seq<Label> :: |p| >= 2 && Path(g, p) && p[0] == p[|p| - 1]
  }

  /** Every vertex of the list comes after all its successors. */
  ghost predicate Topological(g: Graph, order: seq<Label>) {
    forall k :: 0 <= k < |order| ==> order[k] in g && forall w :: w in g[order[k]] ==> w in order[..k]
  }

  function Place(order: seq<Label>, v: Label): (k: nat)
    ensures k <= |order| && (k < |order| ==> order[k] == v)
    ensures forall j :: 0 <= j < k ==> order[j] != v
  {
    if order == [] || order[0] == v then 0 else 1 + Place(order[1..], v)
  }

  /** Along an edge the place goes down. */
  lemma EdgeDown(g: Graph, order: seq<Label>, u: Label, w: Label)
    requires Topological(g, order) && u in order && Edge(g, u, w)
    ensures w in order && Place(order, w) < Place(order, u)
  {
    var k := Place(order, u);
    assert order[k] == u;
    assert w in order[..k];
    var j :| 0 <= j < k && order[..k][j] == w;
    assert order[j] == w;
  }

  lemma {:induction false} PathDown(g: Graph, order: seq<Label>, p: seq<Label>)
    requires Topological(g, order) && p != [] && Path(g, p) && p[0] in order
    ensures p[|p| - 1] in order && Place(order, p[|p| - 1]) + |p| - 1 <= Place(order, p[0])
  {
    if |p| > 1 {
      var q := p[..|p| - 1];
      assert forall i :: 0 <= i < |q| - 1 ==> Edge(g, p[i], p[i + 1]);
      PathDown(g, order, q);
      assert Edge(g, p[|p| - 2], p[|p| - 1]);
      EdgeDown(g, order, p[|p| - 2], p[|p| - 1]);
    }
  }

  /** A graph whose vertices can be listed after their successors has no cycle. */
  lemma OrderedIsAcyclic(g: Graph, order: seq<Label>)
    requires Topological(g, order) && forall u :: u in g ==> u in order
    ensures !Cyclic(g)
  {
    forall p: seq<Label> | |p| >= 2 && Path(g, p) ensures p[0] != p[|p| - 1] {
      assert Edge(g, p[0], p[1]);
      PathDown(g, order, p);
    }
  }

  /** An edge back to the path closes a cycle. */
  lemma BackEdge(g: Graph, p: seq<Label>, k: nat, w: Label)
    requires p != [] && Path(g, p) && k < |p| && p[k] == w && Edge(g, p[|p| - 1], w)
    ensures Cyclic(g)
  {
    var c := p[k..] + [w];
    forall i | 0 <= i < |c| - 1 ensures Edge(g, c[i], c[i + 1]) {
      if i < |c| - 2 {
        assert Edge(g, p[k + i], p[k + i + 1]);
      }
    }
    assert c[0] == c[|c| - 1];
  }

  function Elements(p: seq<Label>): set<Label> {
    set v | v in p
  }

  /** What a call of the search on vertex `v` finds: the way to `v`, everything on it marked, and
      everything else that was visited already listed after its successors. */
  ghost predicate Searching(g: Graph, path: seq<Label>, visited: set<Label>, recStack: set<Label>, order: seq<Label>) {
    && Closed(g) && Path(g, path) && (forall u :: u in path ==> u in g) && visited <= g.Keys
    && recStack == Elements(path)
    && Topological(g, order)
    && visited == recStack + Elements(order) && recStack !! Elements(order)
  }

  lemma Deeper(g: Graph, path: seq<Label>, visited: set<Label>, order: seq<Label>, v: Label)
    requires Searching(g, path, visited, Elements(path), order) && v in g && v !in visited
    requires path != [] ==> Edge(g, path[|path| - 1], v)
    ensures Searching(g, path + [v], visited + {v}, Elements(path + [v]), order)
    ensures Elements(path + [v]) == Elements(path) + {v}
  {
    var p := path + [v];
    forall i | 0 <= i < |p| - 1 ensures Edge(g, p[i], p[i + 1]) {
      assert i < |path| - 1 ==> Edge(g, path[i], path[i + 1]);
    }
  }

  /** All successors of the last vertex of the path are listed: it can be listed too. */
  lemma Back(g: Graph, path: seq<Label>, visited: set<Label>, order: seq<Label>, v: Label)
    requires Searching(g, path + [v], visited, Elements(path + [v]), order) && v !in path
    requires v in g && forall w :: w in g[v] ==> w in order
    ensures Searching(g, path, visited, Elements(path + [v]) - {v}, order + [v])
    ensures Elements(path + [v]) - {v} == Elements(path)
  {
    var p, o := path + [v], order + [v];
    forall i | 0 <= i < |path| - 1 ensures Edge(g, path[i], path[i + 1]) {
      assert Edge(g, p[i], p[i + 1]);
    }
    forall k | 0 <= k < |o| ensures o[k] in g && forall w :: w in g[o[k]] ==> w in o[..k] {
      if k < |order| {
        assert o[..k] == order[..k];
      } else {
        assert o[..k] == order;
      }
    }
    assert Elements(o) == Elements(order) + {v};
    assert Elements(path + [v]) == Elements(path) + {v};
  }

  lemma EdgeAdded(g: Graph, u: Label, w: Label)
    requires Closed(g) && u in g
    ensures Closed(g[u := g[u] + [w]]) <==> w in g
  {
    var g' := g[u := g[u] + [w]];
    assert u in g' && w in g'[u] && g'.Keys == g.Keys;
    if w in g {
      forall x, y | x in g' && y in g'[x] ensures y in g' {
        if y != w {
          assert y in g[x];
        }
      }
    }
  }

  class GraphCheckCyclic {
    var vetexes: Graph

    ghost predicate Valid()
      reads this
    {
      Closed(vetexes)
    }

    constructor ()
      ensures Valid() && vetexes == map[]
    {
      vetexes := map[];
    }

    method AddVetexByLabel(vertex: Label)
      requires Valid()
      modifies this
      ensures Valid() && vetexes == if vertex in old(vetexes) then old(vetexes) else old(vetexes)[vertex := []]
    {
      if vertex !in vetexes {
        vetexes := vetexes[vertex := []];
      }
    }

    /** The graph stays fit for the search exactly if no edge is made to a label that is not a vertex. */
    method AddEdgeByLabel(startLabel: Label, endLabel: Label)
      modifies this
      ensures old(Valid()) ==> (Valid() <==> startLabel !in old(vetexes) || endLabel in old(vetexes))
      ensures vetexes == if startLabel in old(vetexes)
              then old(vetexes)[startLabel := old(vetexes)[startLabel] + [endLabel]] else old(vetexes)
    {
      if startLabel in vetexes {
        vetexes := vetexes[startLabel := vetexes[startLabel] + [endLabel]];
        if old(Valid()) {
          EdgeAdded(old(vetexes), startLabel, endLabel);
        }
      }
    }

    method RemoveEdgeByLabel(vertex: Label)
      requires Valid()
      modifies this
      ensures Valid() && vetexes == if vertex in old(vetexes) then old(vetexes)[vertex := []] else old(vetexes)
    {
      if vertex in vetexes {
        vetexes := vetexes[vertex := []];
      }
    }

    /** Search from `v`. The answer is yes only if there is a cycle; if it is no, `v` and all that can
        be reached from it have been listed after their successors. */
    method IsCyclicDfs(v: Label, visited: set<Label>, recStack: set<Label>, ghost path: seq<Label>,
        ghost order: seq<Label>)
      returns (cyclic: bool, visited': set<Label>, recStack': set<Label>, ghost order': seq<Label>)
      requires Searching(vetexes, path, visited, recStack, order) && v in vetexes && v !in visited
      requires path != [] ==> Edge(vetexes, path[|path| - 1], v)
      ensures cyclic ==> Cyclic(vetexes)
      ensures !cyclic ==> Searching(vetexes, path, visited', recStack', order') && recStack' == recStack
      ensures !cyclic ==> order <= order' && v in order' && visited + {v} <= visited'
      decreases vetexes.Keys - visited
    {
      hide Searching, Topological, Path, Cyclic;
      SearchingFacts(vetexes, path, visited, recStack, order);
      Deeper(vetexes, path, visited, order, v);
      visited', recStack', order' := visited + {v}, recStack + {v}, order;
      ghost var p := path + [v];
      var next := vetexes[v];
      var i := 0;
      while i < |next|
        invariant 0 <= i <= |next| && Searching(vetexes, p, visited', recStack', order') && recStack' == recStack + {v}
        invariant order <= order' && visited + {v} <= visited'
        invariant forall j :: 0 <= j < i ==> next[j] in order'
      {
        var w := next[i];
        assert Edge(vetexes, v, w);
        ghost var before := order';
        SearchingFacts(vetexes, p, visited', recStack', order');
        if w !in visited' {
          var found;
          found, visited', recStack', order' := IsCyclicDfs(w, visited', recStack', p, order');
          if found {
            return true, visited', recStack', order';
          }
        } else if w in recStack' {
          ghost var k :| 0 <= k < |p| && p[k] == w;
          PathOf(vetexes, p, visited', recStack', order');
          BackEdge(vetexes, p, k, w);
          return true, visited', recStack', order';
        }
        assert forall j :: 0 <= j < i ==> next[j] in before;
        PrefixMembers(before, order');
        i := i + 1;
      }
      NotOnPath(path, visited, v, recStack, vetexes, order);
      Back(vetexes, path, visited', order', v);
      recStack', order' := recStack' - {v}, order' + [v];
      cyclic := false;
    }

    /** The answer is yes exactly when there is a cycle. */
    method IsCyclic() returns (cyclic: bool)
      requires Valid()
      ensures cyclic <==> Cyclic(vetexes)
    {
      hide Searching, Topological, Path, Cyclic;
      var visited, recStack: set<Label> := {}, {};
      ghost var order: seq<Label> := [];
      NothingYet(vetexes);
      var rest := vetexes.Keys;
      while rest != {}
        invariant rest <= vetexes.Keys && Searching(vetexes, [], visited, recStack, order)
        invariant forall u :: u in vetexes && u !in rest ==> u in order
        decreases rest
      {
        var t :| t in rest;
        ghost var before := order;
        SearchingFacts(vetexes, [], visited, recStack, order);
        if t !in visited {
          var found;
          found, visited, recStack, order := IsCyclicDfs(t, visited, recStack, [], order);
          if found {
            return true;
          }
        }
        assert forall u :: u in vetexes && u !in rest ==> u in before;
        PrefixMembers(before, order);
        rest := rest - {t};
      }
      SearchingFacts(vetexes, [], visited, recStack, order);
      OrderedIsAcyclic(vetexes, order);
      return false;
    }
  }

  lemma NothingYet(g: Graph)
    requires Closed(g)
    ensures Searching(g, [], {}, {}, [])
  {
  }

  lemma SearchingFacts(g: Graph, path: seq<Label>, visited: set<Label>, recStack: set<Label>, order: seq<Label>)
    requires Searching(g, path, visited, recStack, order)
    ensures Closed(g) && visited <= g.Keys && recStack == Elements(path) && Topological(g, order)
    ensures forall u :: u in visited <==> u in recStack || u in order
  {
  }

  lemma PathOf(g: Graph, path: seq<Label>, visited: set<Label>, recStack: set<Label>, order: seq<Label>)
    requires Searching(g, path, visited, recStack, order)
    ensures Path(g, path)
  {
  }

  lemma PrefixMembers(a: seq<Label>, b: seq<Label>)
    requires a <= b
    ensures forall u :: u in a ==> u in b
  {
    forall u | u in a ensures u in b {
      var i :| 0 <= i < |a| && a[i] == u;
      assert b[i] == u;
    }
  }

  lemma NotOnPath(path: seq<Label>, visited: set<Label>, v: Label, recStack: set<Label>, g: Graph, order: seq<Label>)
    requires Searching(g, path, visited, recStack, order) && v !in visited
    ensures v !in path
  {
    assert v in path ==> v in Elements(path);
  }

  /** `MutexGraph`: who waits for whom. */
  class MutexGraph {
    const graph: GraphCheckCyclic

    ghost predicate Valid()
      reads this, graph
    {
      graph.Valid()
    }

    constructor ()
      ensures Valid() && graph.vetexes == map[] && fresh(graph)
    {
      graph := new GraphCheckCyclic();
    }

    /** A thread asks for a mutex. When the mutex has an owner, the answer says whether waiting for it
        closes a cycle anywhere in the graph. */
    method AddNode(task: Label, ownerTask: Label, edge: bool) returns (deadlock: bool)
      requires Valid()
      modifies graph
      ensures Valid() && graph.vetexes.Keys == old(graph.vetexes).Keys + {task}
      ensures graph.vetexes == AddedNode(old(graph.vetexes), task, ownerTask, edge)
      ensures forall u, w :: Edge(graph.vetexes, u, w) <==>
                || Edge(old(graph.vetexes), u, w)
                || (edge && u == ownerTask && w == task && ownerTask in graph.vetexes)
      ensures deadlock <==> edge && Cyclic(graph.vetexes)
    {
      NodeAdded(graph.vetexes, task, ownerTask, edge);
      graph.AddVetexByLabel(task);
      deadlock := false;
      if edge {
        graph.AddEdgeByLabel(ownerTask, task);
        deadlock := graph.IsCyclic();
      }
    }

    method RemoveNode(task: Label)
      requires Valid()
      modifies graph
      ensures Valid() && graph.vetexes == if task in old(graph.vetexes) then old(graph.vetexes)[task := []]
              else old(graph.vetexes)
      ensures graph.vetexes.Keys == old(graph.vetexes).Keys
      ensures forall u, w :: Edge(graph.vetexes, u, w) <==> Edge(old(graph.vetexes), u, w) && u != task
    {
      graph.RemoveEdgeByLabel(task);
    }
  }

  /** The waiting task is a vertex afterwards; there is one more edge, from the owner to the waiting task, if there is
      an owner and it is known. */
  lemma NodeAdded(g: Graph, task: Label, ownerTask: Label, edge: bool)
    ensures var g' := AddedNode(g, task, ownerTask, edge);
            && g'.Keys == g.Keys + {task}
            && forall u, w :: Edge(g', u, w) <==>
                 Edge(g, u, w) || (edge && u == ownerTask && w == task && ownerTask in g')
  {
    var g' := AddedNode(g, task, ownerTask, edge);
    forall u, w ensures Edge(g', u, w) <==>
        Edge(g, u, w) || (edge && u == ownerTask && w == task && ownerTask in g') {
      var g1 := if task in g then g else g[task := []];
      assert Edge(g1, u, w) <==> Edge(g, u, w);
    }
  }

  function AddedNode(g: Graph, task: Label, ownerTask: Label, edge: bool): Graph {
    var g1 := if task in g then g else g[task := []];
    if edge && ownerTask in g1 then g1[ownerTask := g1[ownerTask] + [task]] else g1
  }
}
