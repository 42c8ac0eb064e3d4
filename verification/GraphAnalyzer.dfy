/** The element graph and its division into linear groups, by depth-first search in place. */
module GraphAnalyzer {
  import opened Collections
  import opened LinearPaths

  class GraphMetaData {
    var linearGroup: int
    var inEdge: set<GraphMetaData>
    var outEdge: set<GraphMetaData>

    constructor ()
      ensures linearGroup == -1 && inEdge == {} && outEdge == {}
    {
      linearGroup, inEdge, outEdge := -1, {}, {};
    }

    /** `link`: a well-formed graph stays well-formed, with one more edge. */
    method LinkTo(child: GraphMetaData, ghost all: set<GraphMetaData>)
      requires this in all && child in all && Wf(GraphOf(all))
      modifies this`outEdge, child`inEdge
      ensures Wf(GraphOf(all)) && GraphOf(all) == WithEdge(old(GraphOf(all)), this, child)
    {
      hide Wf;
      ghost var g := GraphOf(all);
      WithEdgeWf(g, this, child);
      outEdge := outEdge + {child};
      child.inEdge := child.inEdge + {this};
      assert GraphOf(all).ins == WithEdge(g, this, child).ins;
      assert GraphOf(all).outs == WithEdge(g, this, child).outs;
    }
  }

  ghost function GraphOf(all: set<GraphMetaData>): Graph<GraphMetaData>
    reads all`inEdge, all`outEdge
  {
    Graph(map n | n in all :: n.inEdge, map n | n in all :: n.outEdge)
  }

  ghost function Numbers(all: set<GraphMetaData>): map<GraphMetaData, int>
    reads all`linearGroup
  {
    map n | n in all :: n.linearGroup
  }

  lemma NumbersAre(all: set<GraphMetaData>)
    ensures Numbers(all).Keys == all && forall n :: n in all ==> Numbers(all)[n] == n.linearGroup
  {
  }

  lemma NumbersPut(all: set<GraphMetaData>, group: map<GraphMetaData, int>, current: GraphMetaData)
    requires current in all && group.Keys == all && forall n :: n in all && n != current ==> n.linearGroup == group[n]
    ensures Numbers(all) == group[current := current.linearGroup]
  {
  }

  /** The loop over the children: those not visited are put on the stack, in any order. */
  method PushChildren(current: GraphMetaData, visited: set<GraphMetaData>, stack: seq<GraphMetaData>)
    returns (stack': seq<GraphMetaData>, ghost pushed: seq<GraphMetaData>)
    ensures stack' == stack + pushed && Distinct(pushed)
    ensures forall c :: c in pushed <==> c in current.outEdge && c !in visited
  {
    stack', pushed := stack, [];
    var rest := current.outEdge;
    while rest != {}
      invariant rest <= current.outEdge && stack' == stack + pushed && Distinct(pushed)
      invariant forall c :: c in pushed <==> c in current.outEdge && c !in rest && c !in visited
      decreases rest
    {
      var child :| child in rest;
      rest := rest - {child};
      if child !in visited {
        stack', pushed := stack' + [child], pushed + [child];
      }
    }
  }

  class GraphAnalyzer {
    var linearGroups: seq<seq<GraphMetaData>>

    constructor ()
      ensures linearGroups == []
    {
      linearGroups := [];
    }

    /** The state records the numbers and lists as they are. */
    ghost predicate Tied(s: State<GraphMetaData>, linearGroupId: int, all: set<GraphMetaData>)
      reads this, all`linearGroup
    {
      s.group == Numbers(all) && s.groups == linearGroups && linearGroupId == |linearGroups|
    }

    lemma StartTied(s: State<GraphMetaData>, all: set<GraphMetaData>)
      requires linearGroups == s.groups == [] && s.group == Numbers(all)
      ensures Tied(s, 0, all)
    {
    }

    lemma TiedStack(s: State<GraphMetaData>, linearGroupId: int, all: set<GraphMetaData>, stack: seq<GraphMetaData>)
      requires Tied(s, linearGroupId, all)
      ensures Tied(s.(stack := stack), linearGroupId, all)
    {
    }

    lemma TiedIs(s: State<GraphMetaData>, linearGroupId: int, all: set<GraphMetaData>)
      requires Tied(s, linearGroupId, all)
      ensures s.group == Numbers(all) && s.groups == linearGroups
    {
    }

    /** A node with one in-edge takes the number of its parent, when that has one out-edge. */
    method Inherit(current: GraphMetaData, ghost all: set<GraphMetaData>,
                   ghost s: State<GraphMetaData>) returns (ghost parent: GraphMetaData)
      requires current in all && Wf(GraphOf(all)) && s.group == Numbers(all)
      modifies current`linearGroup
      ensures ParentOf(GraphOf(all), current, parent)
      ensures current.linearGroup == Inherited(GraphOf(all), s, current, parent)
    {
      hide Wf, GraphOf;
      GraphEdges(all);
      EdgesIn(GraphOf(all), current);
      parent := current;
      if current.inEdge != {} {
        parent :| parent in current.inEdge;
      }
      if |current.inEdge| == 1 {
        var p :| p in current.inEdge;
        Singleton(current.inEdge, p);
        parent := p;
        if |p.outEdge| == 1 {
          current.linearGroup := p.linearGroup;
        }
      }
    }

    /** The numbering of a visited node. */
    method Number(current: GraphMetaData, linearGroupId: int, ghost all: set<GraphMetaData>,
                  ghost s: State<GraphMetaData>, ghost pushed: seq<GraphMetaData>)
      returns (linearGroupId': int, ghost parent: GraphMetaData)
      requires current in all && Inv(GraphOf(all), s) && s.stack != [] && Top(s) == current
      requires Tied(s, linearGroupId, all)
      modifies this, current`linearGroup
      ensures ParentOf(GraphOf(all), current, parent)
      ensures Tied(Step(GraphOf(all), s, pushed, parent), linearGroupId', all)
    {
      ghost var g := GraphOf(all);
      hide Wf, Inv, Popped, Step, GraphOf, Numbers, Inherited, ParentOf;
      GraphEdges(all);
      NumbersAre(all);
      NumbersInRange(g, s);
      parent := Inherit(current, all, s);
      InheritedInRange(g, s, current, parent);
      ghost var inherited := current.linearGroup;
      linearGroupId' := linearGroupId;
      if |current.outEdge| == 1 && current.linearGroup == -1 {
        current.linearGroup := linearGroupId;
        linearGroupId' := linearGroupId + 1;
        linearGroups := linearGroups + [[]];
      }
      if current.linearGroup != -1 {
        linearGroups := linearGroups[current.linearGroup := linearGroups[current.linearGroup] + [current]];
      }
      NumbersPut(all, s.group, current);
      StepIs(g, s, pushed, parent, inherited);
    }

    /** A round of the search. */
    method Visit(stack: seq<GraphMetaData>, visited: set<GraphMetaData>, linearGroupId: int,
                 ghost all: set<GraphMetaData>, ghost s: State<GraphMetaData>)
      returns (stack': seq<GraphMetaData>, visited': set<GraphMetaData>, linearGroupId': int,
               ghost s': State<GraphMetaData>)
      requires Inv(GraphOf(all), s) && Tied(s, linearGroupId, all) && stack != [] && s.stack == stack &&
               s.visited == visited
      modifies this, all`linearGroup
      ensures Inv(GraphOf(all), s') && Tied(s', linearGroupId', all) && s'.stack == stack' && s'.visited == visited'
      ensures forall roots :: Found(GraphOf(all), roots, s) ==> Found(GraphOf(all), roots, s')
      ensures stack[|stack| - 1] in all && visited' == visited + {stack[|stack| - 1]}
      ensures visited' == visited ==> stack' == stack[..|stack| - 1]
    {
      ghost var g := GraphOf(all);
      hide Wf, Inv, Found, Reachable, Step, GraphOf, Tied;
      VisitedNodes(g, s);
      GraphEdges(all);
      var current := stack[|stack| - 1];
      stack' := stack[..|stack| - 1];
      visited' := visited + {current};
      ghost var pushed, parent;
      stack', pushed := PushChildren(current, visited', stack');
      assert Pushes(g, s, pushed);
      linearGroupId', parent := Number(current, linearGroupId, all, s, pushed);
      StepKeepsInv(g, s, pushed, parent);
      s' := Step(g, s, pushed, parent);
      StepStack(g, s, pushed, parent);
      forall roots | Found(g, roots, s) ensures Found(g, roots, s') {
        StepFound(g, roots, s, pushed, parent);
      }
    }

    /** `analyze`: the reachable elements are divided into the maximal linear paths of the graph. */
    method Analyze(roots: seq<GraphMetaData>, ghost all: set<GraphMetaData>)
      returns (ghost reached: set<GraphMetaData>, ghost paths: seq<seq<GraphMetaData>>)
      requires linearGroups == [] && Wf(GraphOf(all)) && forall n :: n in all ==> n.linearGroup == -1
      requires forall r :: r in roots ==> r in all && r.inEdge == {}
      modifies this, all`linearGroup
      ensures Grouped(GraphOf(all), reached, Numbers(all), linearGroups, paths)
      ensures forall n :: n in reached <==> Reachable(GraphOf(all), (set r | r in roots), n)
    {
      ghost var g := GraphOf(all);
      ghost var rs := set r | r in roots;
      ghost var s := State({}, [], Numbers(all), [], []);
      hide Wf, Inv, Found, Reachable, GraphOf, Grouped, Numbers, Tied;
      NumbersAre(all);
      StartTied(s, all);
      GraphEdges(all);
      EmptyInv(g, Numbers(all));
      NothingFound(g, rs, s);
      var visited: set<GraphMetaData> := {};
      var linearGroupId := 0;
      var i := 0;
      while i < |roots|
        invariant 0 <= i <= |roots|
        invariant Inv(g, s) && Tied(s, linearGroupId, all) && s.stack == [] && s.visited == visited
        invariant Found(g, rs, s) && forall j :: 0 <= j < i ==> roots[j] in visited
      {
        var root := roots[i];
        var stack := [root];
        GraphEdges(all);
        RootKeepsInv(g, s, root);
        RootFound(g, rs, s, root);
        TiedStack(s, linearGroupId, all, stack);
        s := s.(stack := stack);
        while stack != []
          invariant Inv(g, s) && Tied(s, linearGroupId, all) && s.stack == stack && s.visited == visited
          invariant Found(g, rs, s) && (root in visited || stack == [root])
          invariant forall j :: 0 <= j < i ==> roots[j] in visited
          decreases all - visited, |stack|
        {
          Smaller(all, visited, stack[|stack| - 1]);
          stack, visited, linearGroupId, s := Visit(stack, visited, linearGroupId, all, s);
        }
        i := i + 1;
      }
      reached, paths := visited, s.paths;
      TiedIs(s, linearGroupId, all);
      Finished(g, s);
      ReachedAll(g, rs, s);
    }
  }

  lemma Smaller(all: set<GraphMetaData>, visited: set<GraphMetaData>, n: GraphMetaData)
    ensures visited + {n} == visited || n !in all || all - (visited + {n}) < all - visited
  {
    if n in all && n !in visited {
      assert n in all - visited && n !in all - (visited + {n});
    }
  }

  /** Everything visited, or still to be visited, can be reached. */
  ghost predicate Found(g: Graph<GraphMetaData>, roots: set<GraphMetaData>, s: State<GraphMetaData>) {
    (forall n :: n in s.visited ==> Reachable(g, roots, n)) && (forall n :: n in s.stack ==> Reachable(g, roots, n))
  }

  lemma NothingFound(g: Graph<GraphMetaData>, roots: set<GraphMetaData>, s: State<GraphMetaData>)
    requires s.visited == {} && s.stack == []
    ensures Found(g, roots, s)
  {
  }

  lemma RootFound(g: Graph<GraphMetaData>, roots: set<GraphMetaData>, s: State<GraphMetaData>, root: GraphMetaData)
    requires Found(g, roots, s) && s.stack == [] && root in roots
    ensures Found(g, roots, s.(stack := [root]))
  {
    assert root in Within(g, roots, 0);
  }

  lemma StepFound(g: Graph<GraphMetaData>, roots: set<GraphMetaData>, s: State<GraphMetaData>,
                  pushed: seq<GraphMetaData>, parent: GraphMetaData)
    requires Inv(g, s) && Pushes(g, s, pushed) && Found(g, roots, s)
    ensures Found(g, roots, Step(g, s, pushed, parent))
  {
    hide Wf, StackOk, PathsOk, Reachable;
    forall c | c in pushed ensures Reachable(g, roots, c) {
      ChildReachable(g, roots, Top(s), c);
    }
  }

  lemma StepStack(g: Graph<GraphMetaData>, s: State<GraphMetaData>, pushed: seq<GraphMetaData>, parent: GraphMetaData)
    requires Inv(g, s) && Pushes(g, s, pushed)
    ensures Step(g, s, pushed, parent).visited == s.visited + {Top(s)} &&
            Step(g, s, pushed, parent).stack == Popped(s, pushed)
    ensures Top(s) in s.visited ==> pushed == []
  {
    if Top(s) in s.visited {
      AgainPushesNothing(g, s, pushed);
    }
  }

  lemma ReachedAll(g: Graph<GraphMetaData>, roots: set<GraphMetaData>, s: State<GraphMetaData>)
    requires Inv(g, s) && s.stack == [] && roots <= s.visited && Found(g, roots, s)
    ensures forall n :: n in s.visited <==> Reachable(g, roots, n)
  {
    hide Inv;
    forall p, c | p in s.visited && p in g.outs && c in g.outs[p] ensures c in s.visited {
      ChildVisited(g, s, p, c);
    }
    forall k: nat ensures Within(g, roots, k) <= s.visited {
      ClosedHoldsReachable(g, roots, s.visited, k);
    }
  }

  lemma GraphEdges(all: set<GraphMetaData>)
    ensures GraphOf(all).outs.Keys == GraphOf(all).ins.Keys == all
    ensures forall n :: n in all ==> GraphOf(all).outs[n] == n.outEdge && GraphOf(all).ins[n] == n.inEdge
  {
  }

  lemma StepIs(g: Graph<GraphMetaData>, s: State<GraphMetaData>, pushed: seq<GraphMetaData>, parent: GraphMetaData,
               inherited: int)
    requires Wf(g) && s.stack != [] && Top(s) in g.outs && inherited == Inherited(g, s, Top(s), parent)
    ensures var opens := |g.outs[Top(s)]| == 1 && inherited == -1;
            var id := if opens then |s.groups| else inherited;
            Step(g, s, pushed, parent).group == s.group[Top(s) := id] &&
            Step(g, s, pushed, parent).groups == Append(if opens then s.groups + [[]] else s.groups, id, Top(s))
  {
    hide Wf, Inherited, Popped, Append;
  }

  lemma EdgesIn(g: Graph<GraphMetaData>, n: GraphMetaData)
    requires Wf(g) && n in g.ins
    ensures g.ins[n] <= g.ins.Keys
  {
  }

  lemma InheritedInRange(g: Graph<GraphMetaData>, s: State<GraphMetaData>, n: GraphMetaData, parent: GraphMetaData)
    requires forall m :: m in s.group ==> -1 <= s.group[m] < |s.groups|
    ensures -1 <= Inherited(g, s, n, parent) < |s.groups|
  {
  }

  lemma NumbersInRange(g: Graph<GraphMetaData>, s: State<GraphMetaData>)
    requires Inv(g, s)
    ensures Wf(g) && forall n :: n in s.group ==> -1 <= s.group[n] < |s.groups|
  {
    hide StackOk;
    forall n | n in s.group ensures -1 <= s.group[n] < |s.groups| {
      assert GroupOk(g, s, n);
    }
  }
}
