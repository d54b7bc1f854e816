/** The two Kahn loops: the cycle check of the contract, and the deterministic topological order. */
module Ordering {
  import opened Names
  import opened Graph
  import opened Workflows

  ghost function Preds(n: Name, R: set<Name>, E: Relation): set<Name> {
    set m | m in R && (m, n) in E
  }

  /** `adjacency` and `indegree` describe the edges `E` among `N` when all of `N` remains. */
  ghost predicate Describes(adjacency: map<Name, set<Name>>, N: set<Name>, E: Relation) {
    && adjacency.Keys == N
    && forall m, n {:trigger (m, n) in E} {:trigger n in adjacency[m]} :: m in N ==>
      (n in adjacency[m] <==> (m, n) in E)
  }

  ghost predicate Counts(indegree: map<Name, int>, R: set<Name>, E: Relation) {
    R <= indegree.Keys && forall n {:trigger indegree[n]} :: n in R ==> indegree[n] == |Preds(n, R, E)|
  }

  /** No remaining node points at a node already taken. */
  ghost predicate Taken(N: set<Name>, R: set<Name>, E: Relation) {
    R <= N && forall m, n {:trigger (m, n) in E} :: m in R && n in N && n !in R ==> (m, n) !in E
  }

  lemma SourceHasNoPreds(n: Name, R: set<Name>, E: Relation)
    requires n in R
    ensures n in Sources(R, E) <==> |Preds(n, R, E)| == 0
  {
    if |Preds(n, R, E)| == 0 {
      forall m | m in R ensures (m, n) !in E {
        assert m !in Preds(n, R, E);
      }
    } else {
      var m :| m in Preds(n, R, E);
    }
  }

  lemma TakeSource(n: Name, v: Name, R: set<Name>, E: Relation)
    requires v in R && n in R
    ensures |Preds(n, R - {v}, E)| == |Preds(n, R, E)| - (if (v, n) in E then 1 else 0)
  {
    if (v, n) in E {
      assert Preds(n, R - {v}, E) == Preds(n, R, E) - {v};
    } else {
      assert Preds(n, R - {v}, E) == Preds(n, R, E);
    }
  }

  /** The sources of what is left after taking `v`: the others, and the targets of `v` that had no other predecessor. */
  lemma SourcesAfter(v: Name, R: set<Name>, E: Relation, targets: set<Name>)
    requires v in Sources(R, E) && targets == set n | n in R && (v, n) in E
    ensures Sources(R - {v}, E) == (Sources(R, E) - {v}) + set n | n in targets && |Preds(n, R, E)| == 1
  {
    forall n
      ensures n in Sources(R - {v}, E) <==> n in (Sources(R, E) - {v}) + set n | n in targets && |Preds(n, R, E)| == 1
    {
      if n in R - {v} {
        SourceHasNoPreds(n, R - {v}, E);
        SourceHasNoPreds(n, R, E);
        TakeSource(n, v, R, E);
      }
    }
  }

  /** Taking a source changes nothing about cycles. */
  lemma AcyclicAfter(v: Name, R: set<Name>, E: Relation)
    requires v in Sources(R, E)
    ensures Acyclic(R, E) <==> Acyclic(R - {v}, E)
  {
    if Acyclic(R, E) {
      SubsetAcyclic(R - {v}, R, E);
    }
    if Acyclic(R - {v}, E) {
      forall S: set<Name> | S != {} && S <= R ensures exists n :: IsSource(n, S, E) {
        if v in S {
          assert IsSource(v, S, E);
        } else {
          assert S <= R - {v};
        }
      }
    }
  }

  lemma StuckIsCyclic(R: set<Name>, E: Relation)
    requires Sources(R, E) == {} && R != {}
    ensures !Acyclic(R, E)
  {
    assert R <= R;
    forall n ensures !IsSource(n, R, E) {
      assert n !in Sources(R, E);
    }
  }

  /** Targets of a source lie among what is left. */
  lemma TargetsRemain(v: Name, N: set<Name>, R: set<Name>, E: Relation, adjacency: map<Name, set<Name>>)
    requires Describes(adjacency, N, E) && Taken(N, R, E) && v in Sources(R, E) && adjacency[v] <= N
    ensures adjacency[v] == set n | n in R && (v, n) in E
    ensures v !in adjacency[v] && Taken(N, R - {v}, E)
  {
    assert v in R;
    forall n | n in adjacency[v] ensures n in R {
      assert (v, n) in E;
    }
    forall m, n | m in R - {v} && n in N && n !in R - {v} ensures (m, n) !in E { }
  }

  /** One pass of the loop body: decrement the targets, and collect those that reach zero. */
  ghost predicate PassDone(indegree: map<Name, int>, before: map<Name, int>, done: set<Name>) {
    indegree.Keys == before.Keys && forall n {:trigger indegree[n]} :: n in before ==>
      indegree[n] == before[n] - (if n in done then 1 else 0)
  }

  /** The edges both loops look at: between known nodes, and not from a node to itself. */
  ghost function KnownLinks(edges: seq<Edge>, N: set<Name>): Relation {
    set i | 0 <= i < |edges| && edges[i].src.node in N && edges[i].dst.node in N
      && edges[i].src.node != edges[i].dst.node ::
      (edges[i].src.node, edges[i].dst.node)
  }

  lemma LawfulLinks(wf: Workflow)
    requires forall i :: 0 <= i < |wf.edges| ==> EdgeLawful(wf.edges[i], NodeIds(wf))
    ensures KnownLinks(wf.edges, NodeIds(wf)) == Links(wf)
  {
    forall p | p in Links(wf) ensures p in KnownLinks(wf.edges, NodeIds(wf)) {
      var i :| 0 <= i < |wf.edges| && p == (wf.edges[i].src.node, wf.edges[i].dst.node);
      assert EdgeLawful(wf.edges[i], NodeIds(wf));
    }
  }

  lemma AcceptedLinks(wf: Workflow)
    requires ContractHolds(wf)
    ensures KnownLinks(wf.edges, NodeIds(wf)) == Links(wf) && Acyclic(NodeIds(wf), Links(wf))
  {
    LawfulLinks(wf);
  }

  lemma KnownLinksGrow(edges: seq<Edge>, N: set<Name>, i: nat)
    requires i < |edges|
    ensures var e := edges[i];
      KnownLinks(edges[..i + 1], N) == KnownLinks(edges[..i], N) + if e.src.node in N && e.dst.node in N
        && e.src.node != e.dst.node
        then {(e.src.node, e.dst.node)}
        else {}
  {
    forall p
      ensures p in KnownLinks(edges[..i + 1], N) <==>
        p in KnownLinks(edges[..i], N)
          || (p == (edges[i].src.node, edges[i].dst.node) && edges[i].src.node in N && edges[i].dst.node in N
            && edges[i].src.node != edges[i].dst.node)
    {
      if p in KnownLinks(edges[..i + 1], N) {
        var j :| 0 <= j < i + 1 && p == (edges[..i + 1][j].src.node, edges[..i + 1][j].dst.node);
        if j < i { assert edges[..i][j] == edges[j]; }
      }
      if p in KnownLinks(edges[..i], N) {
        var j :| 0 <= j < i && p == (edges[..i][j].src.node, edges[..i][j].dst.node);
        assert edges[..i + 1][j] == edges[j];
      }
      if p == (edges[i].src.node, edges[i].dst.node) && edges[i].src.node in N && edges[i].dst.node in N
        && edges[i].src.node != edges[i].dst.node {
        assert edges[..i + 1][i] == edges[i];
      }
    }
  }

  lemma PredsGrow(n: Name, N: set<Name>, E: Relation, s: Name, t: Name)
    requires s in N && (s, t) !in E
    ensures |Preds(n, N, E + {(s, t)})| == |Preds(n, N, E)| + (if n == t then 1 else 0)
  {
    if n == t {
      assert Preds(n, N, E + {(s, t)}) == Preds(n, N, E) + {s};
    } else {
      assert Preds(n, N, E + {(s, t)}) == Preds(n, N, E);
    }
  }

  lemma DescribesGrow(adjacency: map<Name, set<Name>>, known: set<Name>, E: Relation, s: Name, t: Name)
    requires Describes(adjacency, known, E) && s in known
    ensures Describes(adjacency[s := adjacency[s] + {t}], known, E + {(s, t)})
  {
    var adjacency' := adjacency[s := adjacency[s] + {t}];
    forall m, n | m in known ensures n in adjacency'[m] <==> (m, n) in E + {(s, t)} {
      assert n in adjacency[m] <==> (m, n) in E;
    }
  }

  lemma CountsGrow(indegree: map<Name, int>, known: set<Name>, E: Relation, s: Name, t: Name)
    requires indegree.Keys == known && Counts(indegree, known, E) && s in known && t in known && (s, t) !in E
    ensures Counts(indegree[t := indegree[t] + 1], known, E + {(s, t)})
  {
    hide Preds;
    forall n | n in known ensures |Preds(n, known, E + {(s, t)})| == |Preds(n, known, E)| + (if n == t then 1 else 0) {
      PredsGrow(n, known, E, s, t);
    }
  }

  lemma EmptyTables(adjacency: map<Name, set<Name>>, indegree: map<Name, int>, known: set<Name>, edges: seq<Edge>)
    requires adjacency == map n | n in known :: {}
    requires indegree == map n | n in known :: 0
    ensures Describes(adjacency, known, KnownLinks(edges[..0], known))
      && Counts(indegree, known, KnownLinks(edges[..0], known))
  {
    assert KnownLinks(edges[..0], known) == {};
    forall n | n in known ensures Preds(n, known, {}) == {} { }
  }

  lemma Linked(adjacency: map<Name, set<Name>>, known: set<Name>, E: Relation, s: Name, t: Name)
    requires Describes(adjacency, known, E) && s in known
    ensures s in adjacency && (t in adjacency[s] <==> (s, t) in E)
  {
  }

  /** Adjacency sets and in-degrees, counting each pair of nodes once. */
  method Tables(known: set<Name>, edges: seq<Edge>) returns (adjacency: map<Name, set<Name>>, indegree: map<Name, int>)
    ensures adjacency.Keys == known && indegree.Keys == known
    ensures Describes(adjacency, known, KnownLinks(edges, known)) && Counts(indegree, known, KnownLinks(edges, known))
    ensures forall m :: m in known ==> adjacency[m] <= known
  {
    hide Preds, Describes, Counts, KnownLinks;
    adjacency, indegree := map n | n in known :: {}, map n | n in known :: 0;
    EmptyTables(adjacency, indegree, known, edges);
    for i := 0 to |edges|
      invariant adjacency.Keys == known && indegree.Keys == known
      invariant Describes(adjacency, known, KnownLinks(edges[..i], known))
        && Counts(indegree, known, KnownLinks(edges[..i], known))
      invariant forall m :: m in known ==> adjacency[m] <= known
    {
      var source, target := edges[i].src.node, edges[i].dst.node;
      ghost var E := KnownLinks(edges[..i], known);
      KnownLinksGrow(edges, known, i);
      if source in known && target in known && source != target {
        Linked(adjacency, known, E, source, target);
        if target !in adjacency[source] {
          DescribesGrow(adjacency, known, E, source, target);
          CountsGrow(indegree, known, E, source, target);
          adjacency := adjacency[source := adjacency[source] + {target}];
          indegree := indegree[target := indegree[target] + 1];
        } else {
          assert E + {(source, target)} == E;
        }
      }
    }
    assert edges[..|edges|] == edges;
  }

  /** Of the targets already decremented, those that reached zero. */
  ghost function Freed(before: map<Name, int>, done: set<Name>): set<Name> {
    set n | n in done && n in before && before[n] == 1
  }

  lemma CountsKeys(indegree: map<Name, int>, R: set<Name>, E: Relation, S: set<Name>)
    requires Counts(indegree, R, E) && S <= R
    ensures S <= indegree.Keys
  {
  }

  lemma FreedGrows(before: map<Name, int>, done: set<Name>, n: Name)
    requires n in before
    ensures Freed(before, done + {n}) == Freed(before, done) + (if before[n] == 1 then {n} else {})
  {
  }

  lemma InitialSources(indegree: map<Name, int>, N: set<Name>, E: Relation)
    requires indegree.Keys == N && Counts(indegree, N, E)
    ensures (set n | n in indegree && indegree[n] == 0) == Sources(N, E)
  {
    forall n | n in N ensures n in Sources(N, E) <==> indegree[n] == 0 {
      SourceHasNoPreds(n, N, E);
    }
  }

  lemma {:induction false} SortedDistinct(S: set<Name>)
    ensures forall i, j :: 0 <= i < j < |Sorted(S)| ==> Sorted(S)[i] != Sorted(S)[j]
  {
    if S != {} {
      SortedDistinct(S - {Least(S)});
      SortedHas(S - {Least(S)});
      var rest := Sorted(S - {Least(S)});
      forall i, j | 0 <= i < j < |Sorted(S)| ensures Sorted(S)[i] != Sorted(S)[j] {
        assert Sorted(S)[j] == rest[j - 1] && rest[j - 1] in rest;
        if i > 0 { assert Sorted(S)[i] == rest[i - 1]; }
      }
    }
  }

  /** A target freed now was not ready before. */
  lemma NotYetReady(R: set<Name>, E: Relation, before: map<Name, int>, v: Name, done: set<Name>, n: Name)
    requires n in R && (v, n) in E && v in R && n !in done
    ensures n !in (Sources(R, E) - {v}) + Freed(before, done)
  {
  }

  lemma PassCounts(R: set<Name>, E: Relation, before: map<Name, int>, indegree: map<Name, int>, v: Name,
      targets: set<Name>)
    requires v in R && Counts(before, R, E) && PassDone(indegree, before, targets)
      && targets == set n | n in R && (v, n) in E
    ensures Counts(indegree, R - {v}, E)
  {
    forall n | n in R - {v} ensures indegree[n] == |Preds(n, R - {v}, E)| {
      TakeSource(n, v, R, E);
    }
  }

  lemma FreedAll(R: set<Name>, E: Relation, before: map<Name, int>, all: set<Name>)
    requires Counts(before, R, E) && all <= R
    ensures Freed(before, all) == set n | n in all && |Preds(n, R, E)| == 1
  {
  }

  /** The inner loop: decrement every target in order, and sort in those that reach zero. */
  method Release(adjacent: set<Name>, indegree0: map<Name, int>, ready0: seq<Name>, ghost v: Name,
      ghost R: set<Name>, ghost E: Relation)
    returns (indegree: map<Name, int>, ready: seq<Name>)
    requires Counts(indegree0, R, E) && v in R && adjacent == (set n | n in R && (v, n) in E)
      && ready0 == Sorted(Sources(R, E) - {v})
    ensures PassDone(indegree, indegree0, adjacent)
    ensures ready == Sorted((Sources(R, E) - {v}) + set n | n in adjacent && |Preds(n, R, E)| == 1)
  {
    hide Preds, Counts, Sources, Freed, Insert, Sorted;
    CountsKeys(indegree0, R, E, adjacent);
    indegree, ready := indegree0, ready0;
    ghost var S := Sources(R, E) - {v};
    var targets := Sort(adjacent);
    SortedHas(adjacent);
    SortedDistinct(adjacent);
    ghost var done := {};
    assert S + Freed(indegree0, {}) == S by { NoneFreed(indegree0); }
    for i := 0 to |targets|
      invariant done == (set n | n in targets[..i]) && PassDone(indegree, indegree0, done)
      invariant ready == Sorted(S + Freed(indegree0, done))
    {
      var target := targets[i];
      assert target in adjacent && target !in targets[..i];
      assert targets[..i + 1] == targets[..i] + [target];
      indegree := indegree[target := indegree[target] - 1];
      FreedGrows(indegree0, done, target);
      if indegree[target] == 0 {
        NotYetReady(R, E, indegree0, v, done, target);
        assert S + Freed(indegree0, done + {target}) == (S + Freed(indegree0, done)) + {target};
        InsertSorts(S + Freed(indegree0, done), target);
        ready := Insert(ready, target);
      } else {
        assert Freed(indegree0, done + {target}) == Freed(indegree0, done);
      }
      done := done + {target};
    }
    assert targets[..|targets|] == targets;
    assert done == adjacent;
    FreedAll(R, E, indegree0, adjacent);
  }

  lemma NoneFreed(before: map<Name, int>)
    ensures Freed(before, {}) == {}
  {
  }

  lemma NothingTaken(N: set<Name>, E: Relation)
    ensures Taken(N, N, E)
  {
  }

  /** Taking a source keeps the tables true of what is left. */
  lemma TakeNode(v: Name, N: set<Name>, R: set<Name>, E: Relation, adjacency: map<Name, set<Name>>,
      before: map<Name, int>, indegree: map<Name, int>)
    requires v in Sources(R, E) && Describes(adjacency, N, E) && Counts(before, R, E) && Taken(N, R, E)
      && adjacency[v] <= N
    requires PassDone(indegree, before, adjacency[v])
    ensures Counts(indegree, R - {v}, E) && Taken(N, R - {v}, E)
    ensures Sources(R - {v}, E) == (Sources(R, E) - {v}) + set n | n in adjacency[v] && |Preds(n, R, E)| == 1
  {
    hide Preds, Counts, PassDone;
    TargetsRemain(v, N, R, E, adjacency);
    PassCounts(R, E, before, indegree, v, adjacency[v]);
    SourcesAfter(v, R, E, adjacency[v]);
  }

  lemma FirstReady(R: set<Name>, E: Relation, ready: seq<Name>)
    requires ready == Sorted(Sources(R, E)) && ready != []
    ensures ready[0] in Sources(R, E) && ready[0] in R && ready[1..] == Sorted(Sources(R, E) - {ready[0]})
    ensures LeastOrder(R, E) == [ready[0]] + LeastOrder(R - {ready[0]}, E)
  {
    SortedHas(Sources(R, E));
  }

  lemma NoneReady(R: set<Name>, E: Relation)
    requires Sorted(Sources(R, E)) == []
    ensures Sources(R, E) == {} && LeastOrder(R, E) == []
  {
    SortedHas(Sources(R, E));
  }

  lemma OrderIsLeast(wf: Workflow)
    requires ContractHolds(wf)
    ensures IsTopological(Order(wf), NodeIds(wf), Links(wf))
    ensures forall o :: IsTopological(o, NodeIds(wf), Links(wf)) ==> LexLeq(Order(wf), o)
  {
    LeastOrderIsTopological(NodeIds(wf), Links(wf));
    forall o | IsTopological(o, NodeIds(wf), Links(wf)) ensures LexLeq(Order(wf), o) {
      LeastOrderIsLeast(NodeIds(wf), Links(wf), o);
    }
  }

  /** Every node of the document once, and the source of every edge before its target. */
  ghost predicate ListsForward(o: seq<Name>, wf: Workflow) {
    && (forall n :: n in o <==> exists i :: 0 <= i < |wf.nodes| && wf.nodes[i].id == n)
    && (forall a, b :: 0 <= a < b < |o| ==> o[a] != o[b])
    && (forall e, a, b ::
          (0 <= e < |wf.edges| && 0 <= a < |o| && 0 <= b < |o|
            && o[a] == wf.edges[e].src.node && o[b] == wf.edges[e].dst.node) ==> a < b)
  }

  lemma ForwardIsTopological(o: seq<Name>, wf: Workflow)
    requires ContractHolds(wf)
    ensures ListsForward(o, wf) <==> IsTopological(o, NodeIds(wf), Links(wf))
  {
    if ListsForward(o, wf) {
      forall a, b | 0 <= a <= b < |o| ensures (o[b], o[a]) !in Links(wf) { }
    }
    if IsTopological(o, NodeIds(wf), Links(wf)) {
      forall e, a, b | 0 <= e < |wf.edges| && 0 <= a < |o| && 0 <= b < |o|
        && o[a] == wf.edges[e].src.node && o[b] == wf.edges[e].dst.node
        ensures a < b
      {
        assert (o[a], o[b]) in Links(wf);
      }
    }
  }

  lemma {:induction false} SameLength(o: seq<Name>, p: seq<Name>)
    requires (forall n :: n in o <==> n in p)
    requires (forall a, b :: 0 <= a < b < |o| ==> o[a] != o[b]) && (forall a, b :: 0 <= a < b < |p| ==> p[a] != p[b])
    ensures |o| == |p|
  {
    var S := set n | n in o;
    Count(o, S);
    Count(p, S);
  }

  lemma {:induction false} Count(o: seq<Name>, S: set<Name>)
    requires (forall n :: n in o <==> n in S) && (forall a, b :: 0 <= a < b < |o| ==> o[a] != o[b])
    ensures |o| == |S|
  {
    if o != [] {
      var last := o[|o| - 1];
      var rest := o[..|o| - 1];
      assert last in o;
      forall n ensures n in rest <==> n in S - {last} {
        if n in rest { assert n in o; }
        if n in S - {last} { assert n in o; }
      }
      Count(rest, S - {last});
    }
  }

  /** The order comes first among all that list the document forward. */
  lemma OrderIsForward(wf: Workflow)
    requires ContractHolds(wf)
    ensures ListsForward(Order(wf), wf) && forall o :: ListsForward(o, wf) ==> NoLater(Order(wf), o)
  {
    hide ContractHolds, LexLeq, NoLater, Order;
    OrderIsLeast(wf);
    ForwardIsTopological(Order(wf), wf);
    forall o | ListsForward(o, wf) ensures NoLater(Order(wf), o) {
      ForwardIsTopological(o, wf);
      SameLength(Order(wf), o);
      LexMeans(Order(wf), o);
    }
  }

  /** The outer loop: take the first of the ready nodes until none is left. */
  method TakeInOrder(adjacency: map<Name, set<Name>>, indegree0: map<Name, int>, ready0: seq<Name>,
      ghost N: set<Name>, ghost E: Relation)
      returns (ordered: seq<Name>)
    requires adjacency.Keys == N && Describes(adjacency, N, E) && Counts(indegree0, N, E)
      && ready0 == Sorted(Sources(N, E))
    requires forall m :: m in N ==> adjacency[m] <= N
    ensures ordered == LeastOrder(N, E)
  {
    hide Preds, Counts, Describes, Taken, Sources, Sorted, LeastOrder, PassDone;
    var indegree, ready := indegree0, ready0;
    ordered := [];
    ghost var R := N;
    NothingTaken(N, E);
    while ready != []
      invariant R <= N && Counts(indegree, R, E) && Taken(N, R, E)
      invariant ready == Sorted(Sources(R, E))
      invariant ordered + LeastOrder(R, E) == LeastOrder(N, E)
      decreases |R|
    {
      var node := ready[0];
      FirstReady(R, E, ready);
      ready, ordered := ready[1..], ordered + [node];
      TargetsRemain(node, N, R, E, adjacency);
      ghost var before := indegree;
      indegree, ready := Release(adjacency[node], indegree, ready, node, R, E);
      TakeNode(node, N, R, E, adjacency, before, indegree);
      R := R - {node};
    }
    NoneReady(R, E);
  }

  /** `topological_nodes`: every node once, no edge backwards, the least such order; it depends on the sets of nodes
    * and edges only. */
  method TopologicalNodes(wf: Workflow) returns (ordered: seq<Name>)
    requires ContractHolds(wf)
    ensures IsTopological(ordered, NodeIds(wf), Links(wf))
    ensures forall o :: IsTopological(o, NodeIds(wf), Links(wf)) ==> LexLeq(ordered, o)
    ensures ordered == Order(wf)
    ensures ListsForward(ordered, wf) && forall o :: ListsForward(o, wf) ==> NoLater(ordered, o)
  {
    hide Counts, Describes, Sources, Sorted, LeastOrder, KnownLinks, ContractHolds, Links, IsTopological, LexLeq,
      ListsForward, NoLater;
    var known := set i | 0 <= i < |wf.nodes| :: wf.nodes[i].id;
    var adjacency, indegree := Tables(known, wf.edges);
    AcceptedLinks(wf);
    var ready := Sort(set n | n in indegree && indegree[n] == 0);
    InitialSources(indegree, NodeIds(wf), Links(wf));
    ordered := TakeInOrder(adjacency, indegree, ready, NodeIds(wf), Links(wf));
    OrderIsLeast(wf);
    OrderIsForward(wf);
  }

  lemma PassGrows(indegree: map<Name, int>, before: map<Name, int>, done: set<Name>, n: Name)
    requires PassDone(indegree, before, done) && n in before && n !in done
    ensures n in indegree && indegree[n] == before[n] && PassDone(indegree[n := indegree[n] - 1], before, done + {n})
  {
  }

  lemma NonePassed(before: map<Name, int>)
    ensures PassDone(before, before, {})
  {
  }

  /** The inner loop of the cycle check: targets in any order. */
  method ReleaseAny(adjacent: set<Name>, indegree0: map<Name, int>, ready0: set<Name>, ghost v: Name,
      ghost R: set<Name>, ghost E: Relation)
    returns (indegree: map<Name, int>, ready: set<Name>)
    requires Counts(indegree0, R, E) && v in R && adjacent == (set n | n in R && (v, n) in E)
      && ready0 == Sources(R, E) - {v}
    ensures PassDone(indegree, indegree0, adjacent)
    ensures ready == ready0 + set n | n in adjacent && |Preds(n, R, E)| == 1
  {
    hide Preds, Counts, Sources, Freed, PassDone;
    CountsKeys(indegree0, R, E, adjacent);
    indegree, ready := indegree0, ready0;
    var rest := adjacent;
    ghost var done: set<Name> := {};
    NoneFreed(indegree0);
    NonePassed(indegree0);
    while rest != {}
      invariant rest <= adjacent && done == adjacent - rest && PassDone(indegree, indegree0, done)
      invariant ready == ready0 + Freed(indegree0, done)
      decreases |rest|
    {
      var target :| target in rest;
      PassGrows(indegree, indegree0, done, target);
      FreedGrows(indegree0, done, target);
      indegree := indegree[target := indegree[target] - 1];
      if indegree[target] == 0 {
        ready := ready + {target};
      }
      done, rest := done + {target}, rest - {target};
    }
    assert done == adjacent;
    FreedAll(R, E, indegree0, adjacent);
  }

  lemma StuckOrDone(R: set<Name>, E: Relation)
    requires Sources(R, E) == {}
    ensures Acyclic(R, E) <==> |R| == 0
  {
    if R != {} {
      StuckIsCyclic(R, E);
    }
  }

  /** The queue-based check reports a cycle exactly when the graph of known, non-self edges has one, in whatever
    * order ready nodes are taken. */
  method FindsCycle(known: set<Name>, edges: seq<Edge>) returns (cyclic: bool)
    ensures cyclic <==> exists p :: IsCycle(p, known, KnownLinks(edges, known))
    ensures cyclic <==> !Acyclic(known, KnownLinks(edges, known))
  {
    hide Preds, Counts, Describes, Taken, Sources, KnownLinks, PassDone, Acyclic, IsCycle;
    var adjacency, indegree := Tables(known, edges);
    ghost var E := KnownLinks(edges, known);
    ghost var R := known;
    var ready := set n | n in indegree && indegree[n] == 0;
    var visited := 0;
    InitialSources(indegree, known, E);
    NothingTaken(known, E);
    while ready != {}
      invariant R <= known && Counts(indegree, R, E) && Taken(known, R, E)
      invariant ready == Sources(R, E) && visited + |R| == |known|
      invariant Acyclic(known, E) <==> Acyclic(R, E)
      decreases |R|
    {
      var node :| node in ready;
      SourceIsLeft(node, R, E);
      ready, visited := ready - {node}, visited + 1;
      TargetsRemain(node, known, R, E, adjacency);
      ghost var before := indegree;
      indegree, ready := ReleaseAny(adjacency[node], indegree, ready, node, R, E);
      TakeNode(node, known, R, E, adjacency, before, indegree);
      AcyclicAfter(node, R, E);
      R := R - {node};
    }
    StuckOrDone(R, E);
    AcyclicIffNoCycle(known, E);
    cyclic := visited != |known|;
  }

  lemma SourceIsLeft(v: Name, R: set<Name>, E: Relation)
    requires v in Sources(R, E)
    ensures v in R
  {
  }
}
