/** Dependency graphs of workflow steps and the three-colour cycle check. */
module Graphs {
  import opened Prelude

  /** Each step name with its direct dependencies in declaration order. */
  type Graph = map<string, seq<string>>

  ghost predicate Closed(g: Graph) {
    forall n, i | n in g && 0 <= i < |g[n]| :: g[n][i] in g
  }

  /** p walks from a step to one of its dependencies at every move. */
  ghost predicate IsPath(g: Graph, p: seq<string>) {
    && (forall i | 0 <= i < |p| :: p[i] in g)
    && (forall i | 0 <= i < |p| - 1 :: p[i + 1] in g[p[i]])
  }

  ghost predicate IsCycle(g: Graph, p: seq<string>) {
    |p| >= 2 && IsPath(g, p) && p[0] == p[|p| - 1]
  }

  ghost predicate OnCycle(g: Graph, n: string) {
    exists p :: IsCycle(g, p) && p[0] == n
  }

  ghost predicate HasCycle(g: Graph) {
    exists n :: OnCycle(g, n)
  }

  type Rank = map<string, nat>

  /** Every dependency is a step of strictly lower rank. */
  ghost predicate Ranks(rank: Rank, g: Graph) {
    && rank.Keys == g.Keys
    && forall n, i | n in g && 0 <= i < |g[n]| :: g[n][i] in g && rank[g[n][i]] < rank[n]
  }

  lemma {:induction false} RankFallsAlongPath(g: Graph, rank: Rank, p: seq<string>)
    requires Ranks(rank, g) && IsPath(g, p) && |p| >= 2
    ensures rank[p[|p| - 1]] < rank[p[0]]
  {
    assert p[1] in g[p[0]];
    if |p| > 2 {
      var q := p[1..];
      assert forall i | 0 <= i < |q| :: q[i] == p[i + 1];
      RankFallsAlongPath(g, rank, q);
    }
  }

  /** A ranked graph is closed and has no cycle. */
  lemma RankExcludesCycles(g: Graph, rank: Rank)
    requires Ranks(rank, g)
    ensures Closed(g) && !HasCycle(g)
  {
    forall n ensures !OnCycle(g, n) {
      forall p | IsCycle(g, p) ensures false {
        RankFallsAlongPath(g, rank, p);
      }
    }
  }

  /** Every step comes after all of its dependencies. */
  ghost predicate Postorder(g: Graph, done: seq<string>) {
    && (forall i | 0 <= i < |done| :: done[i] in g)
    && (forall i, j | 0 <= i < |done| && 0 <= j < |g[done[i]]| :: g[done[i]][j] in done[..i])
  }

  lemma PostorderAppend(g: Graph, done: seq<string>, n: string)
    requires Postorder(g, done) && n in g
    requires forall j | 0 <= j < |g[n]| :: g[n][j] in done
    ensures Postorder(g, done + [n])
  {
    var longer := done + [n];
    forall i, j | 0 <= i < |longer| && 0 <= j < |g[longer[i]]| ensures g[longer[i]][j] in longer[..i] {
      assert longer[..i] == done[..i];
    }
  }

  /** Positions in a postorder of all steps rank the graph. */
  lemma PostorderRanks(g: Graph, done: seq<string>) returns (rank: Rank)
    requires Postorder(g, done)
    requires forall n | n in g :: n in done
    ensures Ranks(rank, g)
  {
    rank := map n | n in g :: FirstIndex(done, n);
    forall n, i | n in g && 0 <= i < |g[n]| ensures g[n][i] in g && rank[g[n][i]] < rank[n] {
      var k := FirstIndex(done, n);
      assert g[done[k]][i] in done[..k];
      FirstIndexBelow(done, g[n][i], k);
    }
  }

  ghost function FirstIndex(names: seq<string>, n: string): (k: nat)
    requires n in names
    ensures k < |names| && names[k] == n && n !in names[..k]
  {
    if names[0] == n then 0 else
      var k := 1 + FirstIndex(names[1..], n);
      assert names[..k] == [names[0]] + names[1..][..k - 1];
      k
  }

  lemma FirstIndexBelow(names: seq<string>, n: string, k: nat)
    requires k <= |names| && n in names[..k]
    ensures n in names && FirstIndex(names, n) < k
  {}

  datatype Colour = Visiting | Visited

  datatype GraphError = SelfDependency(step: string) | UnknownDependency(step: string, dependency: string) | Cycle(step: string)

  /** The steps being visited form a path; the visited ones are in postorder. */
  ghost predicate Walk(g: Graph, states: map<string, Colour>, trail: seq<string>, finished: seq<string>) {
    && Closed(g)
    && states.Keys <= g.Keys
    && IsPath(g, trail)
    && (forall n :: n in trail <==> n in states && states[n].Visiting?)
    && (forall n :: n in finished <==> n in states && states[n].Visited?)
    && Postorder(g, finished)
  }

  lemma EnterStep(g: Graph, states: map<string, Colour>, trail: seq<string>, finished: seq<string>, n: string)
    requires Walk(g, states, trail, finished) && n in g && n !in states
    requires trail != [] ==> n in g[trail[|trail| - 1]]
    ensures Walk(g, states[n := Visiting], trail + [n], finished)
  {}

  lemma LeaveStep(g: Graph, states: map<string, Colour>, trail: seq<string>, finished: seq<string>, n: string)
    requires Walk(g, states, trail + [n], finished) && n !in trail
    requires forall j | 0 <= j < |g[n]| :: g[n][j] in finished
    ensures Walk(g, states[n := Visited], trail, finished + [n])
  {
    PostorderAppend(g, finished, n);
    assert (trail + [n])[..|trail|] == trail;
    assert IsPath(g, trail) by {
      forall i | 0 <= i < |trail| - 1 ensures trail[i] in g && trail[i + 1] in g[trail[i]] {
        assert (trail + [n])[i] == trail[i] && (trail + [n])[i + 1] == trail[i + 1];
      }
      assert forall i | 0 <= i < |trail| :: (trail + [n])[i] == trail[i];
    }
  }

  /** The cycle check's colour map; a name that is not in it is unvisited. */
  class CycleCheck {
    const graph: Graph
    var states: map<string, Colour>
    ghost var trail: seq<string>
    ghost var finished: seq<string>

    ghost predicate Valid()
      reads this
    {
      Walk(graph, states, trail, finished)
    }

    constructor (graph: Graph)
      requires Closed(graph)
      ensures Valid() && this.graph == graph && states == map[] && trail == [] && finished == []
    {
      this.graph := graph;
      states := map[];
      trail, finished := [], [];
    }

    method Visit(name: string) returns (err: Option<GraphError>)
      requires Valid() && name in graph
      requires trail != [] ==> name in graph[trail[|trail| - 1]]
      modifies this
      ensures Valid()
      ensures old(states).Keys <= states.Keys
      ensures err.None? ==> trail == old(trail) && name in finished && old(finished) <= finished
      ensures err.Some? ==> err.value.Cycle? && OnCycle(graph, err.value.step)
      decreases graph.Keys - states.Keys
    {
      if name in states {
        if states[name].Visiting? {
          CycleClosed(name);
          return Some(Cycle(name));
        }
        return None;
      }

      EnterStep(graph, states, trail, finished, name);
      states := states[name := Visiting];
      trail := trail + [name];
      var dependencies := graph[name];
      for i := 0 to |dependencies|
        invariant Valid()
        invariant old(states).Keys + {name} <= states.Keys
        invariant trail == old(trail) + [name]
        invariant old(finished) <= finished
        invariant forall j | 0 <= j < i :: dependencies[j] in finished
      {
        err := Visit(dependencies[i]);
        if err.Some? {
          return;
        }
      }

      LeaveStep(graph, states, old(trail), finished, name);
      trail := trail[..|trail| - 1];
      finished := finished + [name];
      states := states[name := Visited];
      err := None;
    }

    /** Meeting a step that is still being visited closes a cycle along the trail. */
    lemma CycleClosed(name: string)
      requires Valid() && name in trail && name in graph[trail[|trail| - 1]]
      ensures OnCycle(graph, name)
    {
      var k :| 0 <= k < |trail| && trail[k] == name;
      var p := trail[k..] + [name];
      assert forall i | 0 <= i < |trail| - k :: p[i] == trail[k + i];
      assert IsCycle(graph, p);
    }
  }

  /** What a reported error says about the graph. */
  ghost predicate Explains(err: GraphError, g: Graph) {
    match err
    case SelfDependency(n) => n in g && n in g[n] && OnCycle(g, n)
    case UnknownDependency(n, d) => n in g && d in g[n] && d !in g
    case Cycle(n) => OnCycle(g, n)
  }

  /**
   * Accepts exactly the closed graphs without cycles, in whatever order the map's keys come, and a true
   * error is always named. An accepted graph has a rank.
   */
  method ValidateGraph(g: Graph) returns (err: Option<GraphError>)
    ensures err.None? <==> Closed(g) && !HasCycle(g)
    ensures err.None? <==> exists rank :: Ranks(rank, g)
    ensures err.Some? ==> Explains(err.value, g)
  {
    err := CheckNames(g);
    if err.Some? {
      forall rank ensures !Ranks(rank, g) {
        if Ranks(rank, g) { RankExcludesCycles(g, rank); }
      }
      return;
    }

    var check := new CycleCheck(g);
    var unvisited := g.Keys;
    while unvisited != {}
      invariant check.Valid() && check.trail == [] && fresh(check)
      invariant unvisited <= g.Keys
      invariant forall n | n in g.Keys - unvisited :: n in check.finished
    {
      var name :| name in unvisited;
      err := check.Visit(name);
      if err.Some? {
        forall rank ensures !Ranks(rank, g) {
          if Ranks(rank, g) { RankExcludesCycles(g, rank); }
        }
        return;
      }
      unvisited := unvisited - {name};
    }

    ghost var rank := PostorderRanks(g, check.finished);
    RankExcludesCycles(g, rank);
    err := None;
  }

  /** Every dependency must name another step. */
  method CheckNames(g: Graph) returns (err: Option<GraphError>)
    ensures err.None? ==> Closed(g)
    ensures err.Some? ==> !err.value.Cycle? && Explains(err.value, g)
  {
    var unchecked := g.Keys;
    while unchecked != {}
      invariant unchecked <= g.Keys
      invariant forall n, i | n in g.Keys - unchecked && 0 <= i < |g[n]| :: g[n][i] in g
    {
      var name :| name in unchecked;
      var after := g[name];
      for i := 0 to |after|
        invariant forall j | 0 <= j < i :: after[j] in g
      {
        if after[i] == name {
          assert IsCycle(g, [name, name]);
          return Some(SelfDependency(name));
        }
        if after[i] !in g {
          return Some(UnknownDependency(name, after[i]));
        }
      }
      unchecked := unchecked - {name};
    }
    err := None;
  }
}
