/** Depth-first grouping of a directed graph into linear paths, as steps on a state. */
module LinearPaths {
  import opened Collections

  datatype Graph<T> = Graph(ins: map<T, set<T>>, outs: map<T, set<T>>)

  /** The two edge sets of every node agree. */
  ghost predicate Wf<T>(g: Graph<T>) {
    && g.ins.Keys == g.outs.Keys
    && (forall n :: n in g.ins ==> g.ins[n] <= g.ins.Keys && g.outs[n] <= g.ins.Keys)
    && (forall p, c :: p in g.ins && c in g.ins ==> (c in g.outs[p] <==> p in g.ins[c]))
  }

  /** The graph with one more edge, recorded at both ends. */
  function WithEdge<T>(g: Graph<T>, p: T, c: T): Graph<T>
    requires p in g.outs && c in g.ins
  {
    Graph(g.ins[c := g.ins[c] + {p}], g.outs[p := g.outs[p] + {c}])
  }

  lemma WithEdgeWf<T>(g: Graph<T>, p: T, c: T)
    requires Wf(g) && p in g.outs && c in g.ins
    ensures Wf(WithEdge(g, p, c))
    ensures forall n, m :: n in g.outs && m in g.ins ==>
              (m in WithEdge(g, p, c).outs[n] <==> m in g.outs[n] || (n == p && m == c))
  {
  }

  /** The edge from `p` to `c` is the only one out of `p` and the only one into `c`. */
  ghost predicate Link<T>(g: Graph<T>, p: T, c: T) {
    p in g.outs && c in g.ins && g.ins[c] == {p} && g.outs[p] == {c}
  }

  ghost predicate Linked<T>(g: Graph<T>, c: T) {
    exists p :: p in g.outs && Link(g, p, c)
  }

  /** The top of the stack is its last element; `paths` are the linear paths found so far. */
  datatype State<T> = State(visited: set<T>, stack: seq<T>, group: map<T, int>, groups: seq<seq<T>>, paths: seq<seq<T>>)

  function Top<T>(s: State<T>): T
    requires s.stack != []
  {
    s.stack[|s.stack| - 1]
  }

  /** The stack after a round: its top is popped and `pushed` put on it. */
  function Popped<T>(s: State<T>, pushed: seq<T>): seq<T>
    requires s.stack != []
  {
    s.stack[..|s.stack| - 1] + pushed
  }

  ghost predicate Pushes<T>(g: Graph<T>, s: State<T>, pushed: seq<T>) {
    && s.stack != [] && Top(s) in g.outs && Distinct(pushed)
    && (forall c :: c in pushed ==> c in g.outs[Top(s)] && c !in s.visited && c != Top(s))
    && (forall c :: c in g.outs[Top(s)] && c !in s.visited && c != Top(s) ==> c in pushed)
  }

  /** What is known of the stack: visited nodes on it have their other unvisited children above them;
      a node with one in-edge is on it once, unvisited, and its parent is visited. */
  ghost predicate StackOk<T>(g: Graph<T>, visited: set<T>, stack: seq<T>)
    requires Wf(g)
  {
    && visited <= g.ins.Keys
    && (forall n :: n in stack ==> n in g.ins)
    && (forall j, c :: 0 <= j < |stack| && stack[j] in visited && c in g.outs[stack[j]] && c !in visited ==>
          c in stack[j + 1..])
    && (forall p, c :: p in visited && c in g.outs[p] ==> c in visited || c in stack)
    && (forall n :: n in g.ins && |g.ins[n]| == 1 && (n in visited || n in stack) ==> g.ins[n] <= visited)
    && (forall i :: 0 <= i < |stack| && |g.ins[stack[i]]| == 1 ==> stack[i] !in visited)
    && (forall i, j :: 0 <= i < j < |stack| && |g.ins[stack[i]]| == 1 ==> stack[i] != stack[j])
  }

  lemma Singleton<T>(s: set<T>, x: T)
    requires |s| == 1 && x in s
    ensures s == {x}
  {
    assert |s - {x}| == 0;
  }

  lemma FirstIn<T>(s: seq<T>)
    ensures s != [] ==> s[0] in s
  {
  }

  /** A node that was visited before pushes nothing. */
  lemma AgainPushesNothing<T>(g: Graph<T>, s: State<T>, pushed: seq<T>)
    requires Wf(g) && StackOk(g, s.visited, s.stack) && Pushes(g, s, pushed) && Top(s) in s.visited
    ensures pushed == []
  {
    var n := |s.stack| - 1;
    assert s.stack[n + 1..] == [] && s.stack[n] in s.visited;
    FirstIn(pushed);
  }

  lemma StackStep<T>(g: Graph<T>, s: State<T>, pushed: seq<T>)
    requires Wf(g) && StackOk(g, s.visited, s.stack) && Pushes(g, s, pushed)
    ensures StackOk(g, s.visited + {Top(s)}, Popped(s, pushed))
  {
    var v, w, n := s.visited + {Top(s)}, Popped(s, pushed), |s.stack| - 1;
    PushedAbove(s, pushed);
    assert forall c :: c in w <==> c in s.stack[..n] || c in pushed;
    assert forall c :: c in s.stack <==> c in s.stack[..n] || c == Top(s);
    forall j, c | 0 <= j < |w| && w[j] in v && c in g.outs[w[j]] && c !in v ensures c in w[j + 1..] {
      Above(g, s, pushed, j, c);
    }
    forall c | c in g.ins && |g.ins[c]| == 1 && c in pushed ensures g.ins[c] == {Top(s)} && c !in s.stack {
      NewOnStack(g, s, pushed, c);
    }
    forall i | 0 <= i < n && |g.ins[w[i]]| == 1 ensures w[i] !in v {
      assert w[i] == s.stack[i];
    }
  }

  /** A node with one in-edge is pushed once only. */
  lemma NewOnStack<T>(g: Graph<T>, s: State<T>, pushed: seq<T>, c: T)
    requires Wf(g) && StackOk(g, s.visited, s.stack) && Pushes(g, s, pushed)
    requires c in pushed && c in g.ins && |g.ins[c]| == 1
    ensures g.ins[c] == {Top(s)} && c !in s.stack
  {
    Singleton(g.ins[c], Top(s));
    if Top(s) in s.visited {
      AgainPushesNothing(g, s, pushed);
    }
  }

  lemma PushedAbove<T>(s: State<T>, pushed: seq<T>)
    requires s.stack != []
    ensures forall i :: |s.stack| - 1 <= i < |Popped(s, pushed)| ==> Popped(s, pushed)[i] in pushed
    ensures forall i :: 0 <= i < |s.stack| - 1 ==> Popped(s, pushed)[i] == s.stack[i]
  {
  }

  /** An unvisited child of a visited node that stays on the stack is above it. */
  lemma Above<T>(g: Graph<T>, s: State<T>, pushed: seq<T>, j: nat, c: T)
    requires Wf(g) && StackOk(g, s.visited, s.stack) && Pushes(g, s, pushed)
    requires j < |Popped(s, pushed)| && Popped(s, pushed)[j] in s.visited + {Top(s)}
    requires c in g.outs[Popped(s, pushed)[j]] && c !in s.visited + {Top(s)}
    ensures c in Popped(s, pushed)[j + 1..]
  {
    var w, n := Popped(s, pushed), |s.stack| - 1;
    PushedAbove(s, pushed);
    assert w[j + 1..] == s.stack[j + 1..n] + pushed;
    if w[j] == Top(s) {
      assert c in pushed;
    } else {
      assert s.stack[j] == w[j];
      assert s.stack[j + 1..] == s.stack[j + 1..n] + [Top(s)];
    }
  }

  function IdOf<T>(s: State<T>, n: T): int {
    if n in s.group then s.group[n] else -1
  }

  /** Path `k`: its nodes, each once, are linked one to the next; the first is not linked from a
      node. The recorded group is the path, followed by repetitions of its first node. */
  ghost predicate PathOk<T>(g: Graph<T>, s: State<T>, k: nat)
    requires k < |s.paths| == |s.groups|
  {
    var path, group := s.paths[k], s.groups[k];
    && path != [] && Distinct(path) && path <= group
    && !Linked(g, path[0])
    && (forall i :: 0 < i < |path| ==> Link(g, path[i - 1], path[i]))
    && (forall n :: n in path ==> n in s.visited && IdOf(s, n) == k)
    && (forall n :: n in group[|path|..] ==> n == path[0] && n in g.ins && |g.ins[n]| != 1)
  }

  /** The nodes with a group number are on the path of that number; they are the nodes with one way
      out, and those linked from one. */
  ghost predicate GroupOk<T>(g: Graph<T>, s: State<T>, n: T)
    requires n in g.outs
  {
    && (n !in s.visited ==> IdOf(s, n) == -1)
    && (IdOf(s, n) != -1 ==> 0 <= IdOf(s, n) < |s.paths| && n in s.paths[IdOf(s, n)])
    && (n in s.visited ==> (IdOf(s, n) != -1 <==> |g.outs[n]| == 1 || Linked(g, n)))
  }

  /** When only the first of two linked nodes is visited, the second is visited next, and the path
      ends there so far. */
  ghost predicate PendingOk<T>(g: Graph<T>, s: State<T>, p: T, c: T)
    requires |s.paths| == |s.groups|
  {
    && s.stack != [] && c == Top(s) && 0 <= IdOf(s, p) < |s.paths|
    && s.paths[IdOf(s, p)] == s.groups[IdOf(s, p)] && s.paths[IdOf(s, p)] != []
    && s.paths[IdOf(s, p)][|s.paths[IdOf(s, p)]| - 1] == p
  }

  ghost predicate PathsOk<T>(g: Graph<T>, s: State<T>)
    requires Wf(g)
  {
    && |s.paths| == |s.groups| && s.group.Keys == g.ins.Keys
    && (forall k :: 0 <= k < |s.paths| ==> PathOk(g, s, k))
    && (forall n :: n in g.outs ==> GroupOk(g, s, n))
    && (forall p, c :: p in s.visited && c in g.ins && Link(g, p, c) && c !in s.visited ==> PendingOk(g, s, p, c))
  }

  /** The group number a node takes over: that of the node linked to it. */
  function Inherited<T>(g: Graph<T>, s: State<T>, n: T, parent: T): int {
    if n in g.ins && |g.ins[n]| == 1 && parent in g.outs && |g.outs[parent]| == 1 then IdOf(s, parent) else IdOf(s, n)
  }

  function Append<T>(lists: seq<seq<T>>, id: int, n: T): seq<seq<T>> {
    if 0 <= id < |lists| then lists[id := lists[id] + [n]] else lists
  }

  /** A round: the top node is visited, numbered and recorded. `parent` is an in-edge if there is one. */
  function Step<T>(g: Graph<T>, s: State<T>, pushed: seq<T>, parent: T): State<T>
    requires Wf(g) && s.stack != [] && Top(s) in g.outs
  {
    var n := Top(s);
    var inherited := Inherited(g, s, n, parent);
    var opens := |g.outs[n]| == 1 && inherited == -1;
    var id := if opens then |s.groups| else inherited;
    var groups, paths := if opens then s.groups + [[]] else s.groups, if opens then s.paths + [[]] else s.paths;
    State(
      s.visited + {n}, Popped(s, pushed), s.group[n := id],
      Append(groups, id, n),
      if n in s.visited then paths else Append(paths, id, n))
  }

  ghost predicate Inv<T>(g: Graph<T>, s: State<T>) {
    Wf(g) && StackOk(g, s.visited, s.stack) && PathsOk(g, s)
  }

  ghost predicate ParentOf<T>(g: Graph<T>, n: T, parent: T)
    requires n in g.ins
  {
    g.ins[n] != {} ==> parent in g.ins[n]
  }

  /** The test on edge counts recognizes links. */
  lemma CountsLink<T>(g: Graph<T>, n: T, parent: T)
    requires Wf(g) && n in g.ins && ParentOf(g, n, parent)
    ensures |g.ins[n]| == 1 && parent in g.outs && |g.outs[parent]| == 1 <==> Link(g, parent, n)
    ensures Linked(g, n) ==> Link(g, parent, n)
    ensures Linked(g, n) ==> |g.ins[n]| == 1
  {
    if |g.ins[n]| == 1 {
      Singleton(g.ins[n], parent);
      if |g.outs[parent]| == 1 {
        Singleton(g.outs[parent], n);
      }
    }
  }

  /** The round when the node was visited before. */
  lemma AgainIs<T>(g: Graph<T>, s: State<T>, pushed: seq<T>, parent: T)
    requires Inv(g, s) && Pushes(g, s, pushed) && ParentOf(g, Top(s), parent) && Top(s) in s.visited
    ensures var n, s' := Top(s), Step(g, s, pushed, parent);
            && |g.ins[n]| != 1 && !Linked(g, n) && s'.visited == s.visited && s'.group == s.group && s'.paths == s.paths
            && s'.groups == Append(s.groups, IdOf(s, n), n)
            && (IdOf(s, n) != -1 ==> 0 <= IdOf(s, n) < |s.groups| && n in s.paths[IdOf(s, n)])
  {
    hide Link, Linked, PathOk, PendingOk, Popped;
    CountsLink(g, Top(s), parent);
    assert GroupOk(g, s, Top(s));
    assert |g.ins[Top(s)]| != 1 by {
      hide PathsOk;
      assert s.stack[|s.stack| - 1] == Top(s);
    }
  }

  /** A path stays as it is when its nodes are not the ones that change. */
  lemma PathKept<T>(g: Graph<T>, s: State<T>, s': State<T>, k: nat)
    requires k < |s.paths| == |s.groups| && k < |s'.paths| == |s'.groups| && PathOk(g, s, k)
    requires s'.paths[k] == s.paths[k] && s'.groups[k] == s.groups[k] && s.visited <= s'.visited
    requires forall n :: n in s.paths[k] ==> IdOf(s', n) == IdOf(s, n)
    ensures PathOk(g, s', k)
  {
    hide Link, Linked, IdOf, Distinct;
  }

  /** The first node of a path is recorded again. */
  lemma PathRecords<T>(g: Graph<T>, s: State<T>, s': State<T>, k: nat, n: T)
    requires Wf(g) && k < |s.paths| == |s.groups| && k < |s'.paths| == |s'.groups| && PathOk(g, s, k)
    requires s'.paths[k] == s.paths[k] && s'.groups[k] == s.groups[k] + [n] && s'.visited == s.visited &&
             s'.group == s.group
    requires n in s.paths[k] && n in g.ins && |g.ins[n]| != 1 && !Linked(g, n)
    ensures PathOk(g, s', k)
  {
    hide Distinct, Linked;
    var path := s.paths[k];
    var i :| 0 <= i < |path| && path[i] == n;
    if i > 0 {
      LinkedBy(g, path[i - 1], n);
    }
    assert s'.groups[k][|path|..] == s.groups[k][|path|..] + [n];
  }

  lemma LinkedBy<T>(g: Graph<T>, p: T, n: T)
    ensures Link(g, p, n) ==> Linked(g, n) && n in g.ins
  {
  }

  /** The node was visited before: it is the first of its path, which is recorded once more. */
  lemma StepAgain<T>(g: Graph<T>, s: State<T>, pushed: seq<T>, parent: T)
    requires Inv(g, s) && Pushes(g, s, pushed) && ParentOf(g, Top(s), parent) && Top(s) in s.visited
    ensures PathsOk(g, Step(g, s, pushed, parent))
  {
    hide Step, Link, Linked, PathOk, StackOk, IdOf;
    var n, s' := Top(s), Step(g, s, pushed, parent);
    AgainIs(g, s, pushed, parent);
    forall k | 0 <= k < |s'.paths| ensures PathOk(g, s', k) {
      assert PathOk(g, s, k);
      SameId(s, s');
      if k == IdOf(s, n) {
        PathRecords(g, s, s', k, n);
      } else {
        PathKept(g, s, s', k);
      }
    }
    forall m | m in g.outs ensures GroupOk(g, s', m) {
      assert GroupOk(g, s, m);
      SameId(s, s');
    }
  }

  lemma SameId<T>(s: State<T>, s': State<T>)
    ensures s'.group == s.group ==> forall n :: IdOf(s', n) == IdOf(s, n)
  {
  }

  /** The node is visited for the first time and linked from its parent: the parent's path goes on. */
  lemma LinkedIs<T>(g: Graph<T>, s: State<T>, pushed: seq<T>, parent: T)
    requires Inv(g, s) && Pushes(g, s, pushed) && ParentOf(g, Top(s), parent) && Top(s) !in s.visited &&
             Linked(g, Top(s))
    ensures var n, id, s' := Top(s), IdOf(s, parent), Step(g, s, pushed, parent);
            && Link(g, parent, n) && PendingOk(g, s, parent, n)
            && s'.visited == s.visited + {n} && s'.group == s.group[n := id]
            && s'.paths == Append(s.paths, id, n) && s'.groups == Append(s.groups, id, n)
  {
    hide Linked, PathOk, GroupOk, Popped;
    CountsLink(g, Top(s), parent);
    assert parent in s.visited by {
      hide PathsOk;
      assert s.stack[|s.stack| - 1] == Top(s);
    }
    assert PendingOk(g, s, parent, Top(s));
  }

  /** The node is visited for the first time and not linked: it starts a path if it has one way out. */
  lemma StartIs<T>(g: Graph<T>, s: State<T>, pushed: seq<T>, parent: T)
    requires Inv(g, s) && Pushes(g, s, pushed) && ParentOf(g, Top(s), parent) && Top(s) !in s.visited &&
             !Linked(g, Top(s))
    ensures var n, s' := Top(s), Step(g, s, pushed, parent);
            && s'.visited == s.visited + {n}
            && if |g.outs[n]| == 1 then
                 s'.group == s.group[n := |s.paths|] && s'.paths == s.paths + [[n]] && s'.groups == s.groups + [[n]]
               else
                 s'.group == s.group[n := -1] && s'.paths == s.paths && s'.groups == s.groups
  {
    hide Link, PathOk, PendingOk, Popped, Append;
    CountsLink(g, Top(s), parent);
    LinkedBy(g, parent, Top(s));
    assert GroupOk(g, s, Top(s));
    AppendOpens(s.paths, Top(s));
    AppendOpens(s.groups, Top(s));
  }

  lemma AppendOpens<T>(lists: seq<seq<T>>, n: T)
    ensures Append(lists + [[]], |lists|, n) == lists + [[n]]
    ensures Append(lists, -1, n) == lists
  {
    assert [] + [n] == [n];
  }

  lemma PathExtends<T>(g: Graph<T>, s: State<T>, s': State<T>, k: nat, p: T, n: T)
    requires k < |s.paths| == |s.groups| && k < |s'.paths| == |s'.groups| && PathOk(g, s, k)
    requires s.paths[k] == s.groups[k] && s.paths[k][|s.paths[k]| - 1] == p && Link(g, p, n) && n !in s.visited
    requires s'.paths[k] == s.paths[k] + [n] && s'.groups[k] == s.groups[k] + [n] && s'.visited == s.visited + {n}
    requires forall m :: IdOf(s', m) == if m == n then k else IdOf(s, m)
    ensures PathOk(g, s', k)
  {
    hide Link, Linked, IdOf;
  }

  lemma PathStarts<T>(g: Graph<T>, s: State<T>, k: nat, n: T)
    requires k < |s.paths| == |s.groups| && s.paths[k] == s.groups[k] == [n] && n in s.visited && IdOf(s, n) == k &&
             !Linked(g, n)
    ensures PathOk(g, s, k)
  {
  }

  lemma IdAfter<T>(s: State<T>, s': State<T>, n: T, id: int)
    requires s'.group == s.group[n := id]
    ensures forall m :: IdOf(s', m) == if m == n then id else IdOf(s, m)
  {
  }

  lemma StepLinked<T>(g: Graph<T>, s: State<T>, pushed: seq<T>, parent: T)
    requires Inv(g, s) && Pushes(g, s, pushed) && ParentOf(g, Top(s), parent) && Top(s) !in s.visited &&
             Linked(g, Top(s))
    ensures PathsOk(g, Step(g, s, pushed, parent))
  {
    hide Step, Link, Linked, PathOk, StackOk, IdOf;
    var n, s', id := Top(s), Step(g, s, pushed, parent), IdOf(s, parent);
    LinkedIs(g, s, pushed, parent);
    IdAfter(s, s', n, id);
    forall k | 0 <= k < |s'.paths| ensures PathOk(g, s', k) {
      assert PathOk(g, s, k);
      if k == id {
        PathExtends(g, s, s', k, parent, n);
      } else {
        PathNodes(g, s, k);
        PathKept(g, s, s', k);
      }
    }
    forall m | m in g.outs ensures GroupOk(g, s', m) {
      assert GroupOk(g, s, m);
    }
    forall p, c | p in s'.visited && c in g.ins && Link(g, p, c) && c !in s'.visited ensures PendingOk(g, s', p, c) {
      NextIsTop(g, s, pushed, parent, p, c);
    }
  }

  lemma PathNodes<T>(g: Graph<T>, s: State<T>, k: nat)
    requires k < |s.paths| == |s.groups| && PathOk(g, s, k)
    ensures forall n :: n in s.paths[k] ==> n in s.visited
  {
  }

  /** The other end of a link from visited nodes is on top, and can only be linked from the node just visited. */
  lemma NextIsTop<T>(g: Graph<T>, s: State<T>, pushed: seq<T>, parent: T, p: T, c: T)
    requires Inv(g, s) && Pushes(g, s, pushed) && Link(g, p, c) && p in s.visited + {Top(s)} &&
             c !in s.visited + {Top(s)}
    ensures p == Top(s) && Step(g, s, pushed, parent).stack != [] && c == Top(Step(g, s, pushed, parent))
    ensures |g.outs[p]| == 1
  {
    hide StackOk, PathOk, GroupOk;
    assert p in s.visited ==> PendingOk(g, s, p, c);
    assert c in pushed;
    assert forall d :: d in pushed ==> d == c;
    var w := Popped(s, pushed);
    FirstIn(pushed);
    assert w[|w| - 1] == pushed[|pushed| - 1] && pushed[|pushed| - 1] in pushed;
  }

  lemma StepStart<T>(g: Graph<T>, s: State<T>, pushed: seq<T>, parent: T)
    requires Inv(g, s) && Pushes(g, s, pushed) && ParentOf(g, Top(s), parent) && Top(s) !in s.visited &&
             !Linked(g, Top(s))
    ensures PathsOk(g, Step(g, s, pushed, parent))
  {
    hide Step, Link, Linked, PathOk, StackOk, IdOf;
    var n, s' := Top(s), Step(g, s, pushed, parent);
    StartIs(g, s, pushed, parent);
    IdAfter(s, s', n, if |g.outs[n]| == 1 then |s.paths| else -1);
    forall k | 0 <= k < |s'.paths| ensures PathOk(g, s', k) {
      if k == |s.paths| {
        PathStarts(g, s', k, n);
      } else {
        assert PathOk(g, s, k);
        PathNodes(g, s, k);
        PathKept(g, s, s', k);
      }
    }
    forall m | m in g.outs ensures GroupOk(g, s', m) {
      assert GroupOk(g, s, m);
    }
    forall p, c | p in s'.visited && c in g.ins && Link(g, p, c) && c !in s'.visited ensures PendingOk(g, s', p, c) {
      NextIsTop(g, s, pushed, parent, p, c);
    }
  }

  /** Every round keeps the invariant. */
  lemma StepKeepsInv<T>(g: Graph<T>, s: State<T>, pushed: seq<T>, parent: T)
    requires Inv(g, s) && Pushes(g, s, pushed) && ParentOf(g, Top(s), parent)
    ensures Inv(g, Step(g, s, pushed, parent))
  {
    StackStep(g, s, pushed);
    if Top(s) in s.visited {
      StepAgain(g, s, pushed, parent);
    } else if Linked(g, Top(s)) {
      StepLinked(g, s, pushed, parent);
    } else {
      StepStart(g, s, pushed, parent);
    }
    hide StackOk, PathsOk;
  }

  /** A root is put on the empty stack. */
  lemma RootKeepsInv<T>(g: Graph<T>, s: State<T>, root: T)
    requires Inv(g, s) && s.stack == [] && root in g.ins && g.ins[root] == {}
    ensures Inv(g, s.(stack := [root]))
  {
    var s' := s.(stack := [root]);
    RootOnStack(g, s.visited, root);
    hide StackOk, Link;
    forall k | 0 <= k < |s.paths| ensures PathOk(g, s', k) {
      assert PathOk(g, s, k);
    }
    forall n | n in g.outs ensures GroupOk(g, s', n) {
      assert GroupOk(g, s, n);
    }
  }

  lemma RootOnStack<T>(g: Graph<T>, visited: set<T>, root: T)
    requires Wf(g) && StackOk(g, visited, []) && root in g.ins && g.ins[root] == {}
    ensures StackOk(g, visited, [root])
  {
  }

  lemma EmptyInv<T>(g: Graph<T>, group: map<T, int>)
    requires Wf(g) && group.Keys == g.ins.Keys && forall n :: n in group ==> group[n] == -1
    ensures Inv(g, State({}, [], group, [], []))
  {
  }

  /** A path along links that cannot be made longer at either end. */
  ghost predicate MaximalPath<T>(g: Graph<T>, path: seq<T>) {
    && path != [] && Distinct(path)
    && (forall i :: 0 < i < |path| ==> Link(g, path[i - 1], path[i]))
    && (forall p :: p in g.outs ==> !Link(g, p, path[0]))
    && (forall c :: c in g.ins ==> !Link(g, path[|path| - 1], c))
  }

  /** The nodes `reached` are divided: a number stands for a maximal path, and exactly the nodes with
      one way out, and those linked from one, have a number. A list holds the nodes of its path in
      order, then perhaps the first one again, if that has not exactly one way in. */
  ghost predicate Grouped<T>(g: Graph<T>, reached: set<T>, group: map<T, int>, groups: seq<seq<T>>,
                             paths: seq<seq<T>>) {
    && |paths| == |groups| && reached <= group.Keys && reached <= g.ins.Keys && g.ins.Keys == g.outs.Keys
    && (forall k :: 0 <= k < |paths| ==> MaximalPath(g, paths[k]) && paths[k] <= groups[k])
    && (forall k, n :: 0 <= k < |paths| && n in groups[k][|paths[k]|..] ==>
          n == paths[k][0] && n in g.ins && |g.ins[n]| != 1)
    && (forall k, n :: 0 <= k < |paths| && n in paths[k] ==> n in reached && group[n] == k)
    && (forall n :: n in reached && group[n] != -1 ==> 0 <= group[n] < |paths| && n in paths[group[n]])
    && (forall n :: n in reached ==> (group[n] != -1 <==> |g.outs[n]| == 1 || Linked(g, n)))
    && (forall n :: n in group && n !in reached ==> group[n] == -1)
  }

  lemma LinkUnique<T>(g: Graph<T>, p: T, q: T, c: T, d: T)
    ensures Link(g, p, c) && Link(g, q, c) ==> p == q
    ensures Link(g, p, c) && Link(g, p, d) ==> c == d
  {
    assert Link(g, p, c) && Link(g, q, c) ==> p in {q};
    assert Link(g, p, c) && Link(g, p, d) ==> c in {d};
  }

  /** A visited node that is linked from another follows it on its path. */
  lemma ChildFollows<T>(g: Graph<T>, s: State<T>, p: T, c: T) returns (i: nat)
    requires Inv(g, s) && Link(g, p, c) && c in s.visited
    ensures 0 <= IdOf(s, c) < |s.paths| && i + 1 < |s.paths[IdOf(s, c)]|
    ensures s.paths[IdOf(s, c)][i] == p && s.paths[IdOf(s, c)][i + 1] == c && IdOf(s, p) == IdOf(s, c)
  {
    hide StackOk, Link;
    LinkedBy(g, p, c);
    assert GroupOk(g, s, c) && PathOk(g, s, IdOf(s, c));
    var path := s.paths[IdOf(s, c)];
    var j :| 0 <= j < |path| && path[j] == c;
    i := j - 1;
    LinkUnique(g, p, path[i], c, c);
    assert path[i] in path;
  }

  /** When nothing is left on the stack, no link leaves the end of a path. */
  lemma PathEnds<T>(g: Graph<T>, s: State<T>, k: nat, c: T)
    requires Inv(g, s) && s.stack == [] && k < |s.paths| && c in g.ins
    ensures s.paths[k] != [] && !Link(g, s.paths[k][|s.paths[k]| - 1], c)
  {
    assert PathOk(g, s, k);
    var path := s.paths[k];
    var last := path[|path| - 1];
    assert last in path;
    if Link(g, last, c) {
      ChildVisited(g, s, last, c);
      var i := ChildFollows(g, s, last, c);
    }
  }

  lemma ChildVisited<T>(g: Graph<T>, s: State<T>, p: T, c: T)
    requires Inv(g, s) && s.stack == [] && p in s.visited && c in g.outs[p]
    ensures c in s.visited
  {
    hide PathsOk;
  }

  /** The result, when the stack is empty. */
  lemma Finished<T>(g: Graph<T>, s: State<T>)
    requires Inv(g, s) && s.stack == []
    ensures Grouped(g, s.visited, s.group, s.groups, s.paths)
  {
    hide StackOk, Linked, Link, Distinct;
    assert s.visited <= g.ins.Keys by {
      VisitedNodes(g, s);
    }
    forall k | 0 <= k < |s.paths| ensures PathOk(g, s, k) && MaximalPath(g, s.paths[k]) {
      assert PathOk(g, s, k);
      forall c | c in g.ins ensures !Link(g, s.paths[k][|s.paths[k]| - 1], c) {
        PathEnds(g, s, k, c);
      }
      forall p | p in g.outs ensures !Link(g, p, s.paths[k][0]) {
        LinkedBy(g, p, s.paths[k][0]);
      }
    }
    forall n | n in s.visited ensures GroupOk(g, s, n) && n in g.outs {
    }
  }

  lemma VisitedNodes<T>(g: Graph<T>, s: State<T>)
    requires Inv(g, s)
    ensures Wf(g) && s.visited <= g.ins.Keys && forall n :: n in s.stack ==> n in g.ins
  {
  }

  /** The paths are determined by the graph: two maximal ones with a common node are the same. */
  lemma MaximalPathsAgree<T>(g: Graph<T>, a: seq<T>, b: seq<T>, i: nat, j: nat)
    requires Wf(g) && MaximalPath(g, a) && MaximalPath(g, b) && i < |a| && j < |b| && a[i] == b[j]
    ensures a == b
  {
    SameBefore(g, a, b, i, j);
    SameAfter(g, a, b, i);
  }

  /** A node of a maximal path is linked from its predecessor, and to its successor, if there is one. */
  lemma Neighbours<T>(g: Graph<T>, path: seq<T>, i: nat)
    requires MaximalPath(g, path) && i < |path|
    ensures if i == 0 then forall p :: !Link(g, p, path[i]) else Link(g, path[i - 1], path[i])
    ensures if i == |path| - 1 then forall c :: !Link(g, path[i], c) else Link(g, path[i], path[i + 1])
  {
  }

  lemma {:induction false} SameBefore<T>(g: Graph<T>, a: seq<T>, b: seq<T>, i: nat, j: nat)
    requires MaximalPath(g, a) && MaximalPath(g, b) && i < |a| && j < |b| && a[i] == b[j]
    ensures i == j && a[..i] == b[..j]
  {
    Neighbours(g, a, i);
    Neighbours(g, b, j);
    if i > 0 && j > 0 {
      LinkUnique(g, a[i - 1], b[j - 1], a[i], a[i]);
      SameBefore(g, a, b, i - 1, j - 1);
      assert a[..i] == a[..i - 1] + [a[i - 1]] && b[..j] == b[..j - 1] + [b[j - 1]];
    }
  }

  lemma {:induction false} SameAfter<T>(g: Graph<T>, a: seq<T>, b: seq<T>, i: nat)
    requires MaximalPath(g, a) && MaximalPath(g, b) && i < |a| && i < |b| && a[i] == b[i] && a[..i] == b[..i]
    ensures a == b
    decreases |a| - i
  {
    Neighbours(g, a, i);
    Neighbours(g, b, i);
    assert a[..i + 1] == a[..i] + [a[i]] && b[..i + 1] == b[..i] + [b[i]];
    if i + 1 < |a| && i + 1 < |b| {
      LinkUnique(g, a[i], a[i], a[i + 1], b[i + 1]);
      SameAfter(g, a, b, i + 1);
    }
  }

  /** The nodes at most `k` edges away from a root. */
  ghost function Within<T>(g: Graph<T>, roots: set<T>, k: nat): set<T> {
    if k == 0 then roots
    else Within(g, roots, k - 1) + set p, c | p in Within(g, roots, k - 1) && p in g.outs && c in g.outs[p] :: c
  }

  ghost predicate Reachable<T>(g: Graph<T>, roots: set<T>, n: T) {
    exists k: nat :: n in Within(g, roots, k)
  }

  lemma ChildReachable<T>(g: Graph<T>, roots: set<T>, p: T, c: T)
    requires Reachable(g, roots, p) && p in g.outs && c in g.outs[p]
    ensures Reachable(g, roots, c)
  {
    var k: nat :| p in Within(g, roots, k);
    assert c in Within(g, roots, k + 1);
  }

  lemma {:induction false} ClosedHoldsReachable<T>(g: Graph<T>, roots: set<T>, closed: set<T>, k: nat)
    requires roots <= closed && forall p, c :: p in closed && p in g.outs && c in g.outs[p] ==> c in closed
    ensures Within(g, roots, k) <= closed
  {
    if k > 0 {
      ClosedHoldsReachable(g, roots, closed, k - 1);
    }
  }
}
