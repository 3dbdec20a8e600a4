/**
 The nested-group cycle check of `internal/model/validate.go`: a depth-first walk with two
 colours over the group membership graph. It terminates, and it fails exactly when the graph
 has a cycle.
 */
module GroupCycles {
  type Graph = map<string, seq<string>>

  predicate Edge(g: Graph, a: string, b: string) { a in g && b in g[a] }

  ghost predicate Path(g: Graph, ns: seq<string>) {
    forall i :: 0 <= i < |ns| - 1 ==> Edge(g, ns[i], ns[i + 1])
  }

  /** A walk of at least one edge back to where it began. */
  ghost predicate IsCycle(g: Graph, ns: seq<string>) {
    |ns| > 1 && Path(g, ns) && ns[0] == ns[|ns| - 1]
  }

  ghost predicate HasCycle(g: Graph) { exists ns :: IsCycle(g, ns) }

  datatype Color = Visiting | Done

  /** Every edge leads to a node of the graph's own node set. */
  ghost predicate Within(g: Graph, nodes: set<string>) {
    g.Keys <= nodes && forall a, b :: Edge(g, a, b) ==> b in nodes
  }

  /** Every edge out of a finished node leads to one that finished earlier. */
  ghost predicate Ranked(g: Graph, color: map<string, Color>, rank: map<string, nat>) {
    forall a, b :: Edge(g, a, b) && a in color && color[a] == Done ==>
      b in color && color[b] == Done && a in rank && b in rank && rank[b] < rank[a]
  }

  ghost predicate Bounded(color: map<string, Color>, rank: map<string, nat>, clock: nat) {
    forall a :: a in color && color[a] == Done ==> a in rank && rank[a] < clock
  }

  ghost predicate OnStack(color: map<string, Color>, stack: seq<string>) {
    forall a :: a in stack <==> a in color && color[a] == Visiting
  }

  lemma {:induction false} RankFalls(g: Graph, color: map<string, Color>, rank: map<string, nat>, ns: seq<string>,
        i: nat)
    requires Ranked(g, color, rank) && Path(g, ns) && 0 < i < |ns| && ns[0] in color && color[ns[0]] == Done
    ensures ns[i] in color && color[ns[i]] == Done && ns[0] in rank && ns[i] in rank && rank[ns[i]] < rank[ns[0]]
  {
    assert Edge(g, ns[i - 1], ns[i]);
    if i > 1 { RankFalls(g, color, rank, ns, i - 1); }
  }

  /** A graph whose nodes have all finished has no cycle. */
  lemma FinishedIsAcyclic(g: Graph, color: map<string, Color>, rank: map<string, nat>)
    requires Ranked(g, color, rank) && forall a :: a in g ==> a in color && color[a] == Done
    ensures !HasCycle(g)
  {
    forall ns ensures !IsCycle(g, ns) {
      if |ns| > 1 && Path(g, ns) {
        assert Edge(g, ns[0], ns[1]);
        RankFalls(g, color, rank, ns, |ns| - 1);
      }
    }
  }

  /** An edge from the top of the stack back into the stack closes a cycle. */
  lemma BackEdge(g: Graph, stack: seq<string>, m: string)
    requires Path(g, stack) && stack != [] && m in stack && Edge(g, stack[|stack| - 1], m)
    ensures HasCycle(g)
  {
    var k :| 0 <= k < |stack| && stack[k] == m;
    var ns := stack[k..] + [m];
    forall i | 0 <= i < |ns| - 1 ensures Edge(g, ns[i], ns[i + 1]) {
      if k + i + 1 < |stack| { assert Edge(g, stack[k + i], stack[k + i + 1]); }
    }
    assert IsCycle(g, ns);
  }

  /** The walk; `color` is the map its closure captures, `rank` and `clock` record finishing order. */
  class Walk {
    const g: Graph
    ghost const nodes: set<string>
    var color: map<string, Color>
    ghost var rank: map<string, nat>
    ghost var clock: nat

    ghost predicate Valid()
      reads this
    {
      && Within(g, nodes) && color.Keys <= nodes
      && Ranked(g, color, rank) && Bounded(color, rank, clock)
    }

    constructor (g: Graph, ghost nodes: set<string>)
      requires Within(g, nodes)
      ensures Valid() && this.g == g && this.nodes == nodes && color == map[]
    {
      this.g := g;
      this.nodes := nodes;
      color := map[];
      rank := map[];
      clock := 0;
    }

    /** What a successful call leaves: the stack as it was, and no finished node lost. */
    twostate predicate Kept(stack: seq<string>)
      reads this
    {
      Valid() && OnStack(color, stack) && old(color).Keys <= color.Keys &&
      forall a :: a in old(color) && old(color)[a] == Done ==> color[a] == Done
    }

    method Dfs(id: string, ghost stack: seq<string>) returns (ok: bool)
      requires Valid() && id in nodes && id !in color
      requires OnStack(color, stack) && Path(g, stack + [id])
      modifies this
      ensures ok ==> Kept(stack) && id in color && color[id] == Done
      ensures !ok ==> HasCycle(g)
      decreases |nodes - color.Keys|, 0
    {
      Open(id, stack);
      ok := Follow(id, stack + [id]);
      if ok { Close(id, stack); }
    }

    /** `color[id] = colVisiting`. */
    method Open(id: string, ghost stack: seq<string>)
      requires Valid() && id in nodes && id !in color && OnStack(color, stack)
      modifies this
      ensures Valid() && OnStack(color, stack + [id]) && id !in stack
      ensures color == old(color)[id := Visiting] && |nodes - color.Keys| < |nodes - old(color).Keys|
    {
      Enter(g, color, rank, clock, stack, id);
      OneLess(nodes, color, id);
      color := color[id := Visiting];
    }

    /** `color[id] = colDone`. */
    method Close(id: string, ghost stack: seq<string>)
      requires Valid() && OnStack(color, stack + [id]) && id !in stack && AllDone(g, color, id) && id in nodes
      modifies this
      ensures Valid() && OnStack(color, stack) && color == old(color)[id := Done]
    {
      Finish(g, color, rank, clock, stack, id);
      color := color[id := Done];
      rank := rank[id := clock];
      clock := clock + 1;
    }

    /** The loop over the members of the node on top of the stack. */
    method Follow(id: string, ghost path: seq<string>) returns (ok: bool)
      requires Valid() && OnStack(color, path) && Path(g, path) && path != [] && path[|path| - 1] == id
      modifies this
      ensures ok ==> Kept(path) && AllDone(g, color, id)
      ensures !ok ==> HasCycle(g)
      decreases |nodes - color.Keys|, 1
    {
      var next := if id in g then g[id] else [];
      for i := 0 to |next|
        invariant Kept(path)
        invariant forall j :: 0 <= j < i ==> next[j] in color && color[next[j]] == Done
      {
        var m := next[i];
        assert Edge(g, id, m);
        if m in color && color[m] == Visiting {
          BackEdge(g, path, m);
          return false;
        } else if m !in color {
          PathGrows(g, path, m);
          Smaller(nodes, old(color).Keys, color.Keys);
          ok := Dfs(m, path);
          if !ok {
            return;
          }
        }
      }
      ok := true;
    }
  }

  /** Every member of a node has finished. */
  ghost predicate AllDone(g: Graph, color: map<string, Color>, id: string) {
    forall m :: Edge(g, id, m) ==> m in color && color[m] == Done
  }

  lemma OneLess(nodes: set<string>, color: map<string, Color>, id: string)
    requires id in nodes && id !in color
    ensures |nodes - color[id := Visiting].Keys| < |nodes - color.Keys|
  {
    var a, b := nodes - color.Keys, nodes - color[id := Visiting].Keys;
    assert id in a && b == a - {id};
  }

  lemma Smaller(nodes: set<string>, a: set<string>, b: set<string>)
    requires a <= b
    ensures |nodes - b| <= |nodes - a|
  {
    if nodes - a != nodes - b { Shrinks(nodes - b, nodes - a); }
  }

  lemma Enter(g: Graph, color: map<string, Color>, rank: map<string, nat>, clock: nat, stack: seq<string>, id: string)
    requires Ranked(g, color, rank) && Bounded(color, rank, clock) && OnStack(color, stack) && id !in color
    ensures var c := color[id := Visiting];
      Ranked(g, c, rank) && Bounded(c, rank, clock) && OnStack(c, stack + [id]) && id !in stack
  {}

  lemma Finish(
    g: Graph, color: map<string, Color>, rank: map<string, nat>, clock: nat, stack: seq<string>, id: string)
    requires Ranked(g, color, rank) && Bounded(color, rank, clock) && OnStack(color, stack + [id]) && id !in stack
    requires AllDone(g, color, id)
    ensures var c, r := color[id := Done], rank[id := clock];
      Ranked(g, c, r) && Bounded(c, r, clock + 1) && OnStack(c, stack)
  {
    var c, r := color[id := Done], rank[id := clock];
    assert id in stack + [id];
    forall a, b | Edge(g, a, b) && a in c && c[a] == Done
      ensures b in c && c[b] == Done && a in r && b in r && r[b] < r[a]
    {}
    forall a ensures a in stack <==> a in c && c[a] == Visiting {
      assert a in stack + [id] <==> a in stack || a == id;
    }
  }

  lemma PathGrows(g: Graph, path: seq<string>, m: string)
    requires path != [] && Path(g, path) && Edge(g, path[|path| - 1], m)
    ensures Path(g, path + [m])
  {}

  lemma Shrinks(a: set<string>, b: set<string>)
    requires a < b
    ensures |a| < |b|
  {
    assert b == a + (b - a);
    var x :| x in b - a;
    assert |b - a| > 0;
  }

  /** The walk over all groups in order. */
  method CheckCycles(ids: seq<string>, g: Graph) returns (ok: bool)
    requires g.Keys <= set id | id in ids
    requires forall a, b :: Edge(g, a, b) ==> b in ids
    ensures ok <==> !HasCycle(g)
  {
    var w := new Walk(g, set id | id in ids);
    for i := 0 to |ids|
      invariant w.Valid() && w.g == g && w.nodes == (set id | id in ids) && OnStack(w.color, [])
      invariant forall j :: 0 <= j < i ==> ids[j] in w.color && w.color[ids[j]] == Done
    {
      if ids[i] !in w.color {
        assert [] + [ids[i]] == [ids[i]];
        ok := w.Dfs(ids[i], []);
        if !ok {
          return;
        }
      }
    }
    FinishedIsAcyclic(g, w.color, w.rank);
    ok := true;
  }
}
