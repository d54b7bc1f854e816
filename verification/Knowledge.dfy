/** Breadth-first search over the knowledge graph: shortest paths with a tie-break, and bounded neighbourhoods. */
module Knowledge {
  import opened Names

  datatype Link = Link(source: Name, target: Name)

  /** Loading rejects an edge whose ends are not nodes. */
  datatype Graph = Graph(nodes: set<Name>, edges: seq<Link>) {
    ghost predicate Loaded() {
      forall i :: 0 <= i < |edges| ==> edges[i].source in nodes && edges[i].target in nodes
    }

    /** Neighbours, ignoring the direction of edges. */
    function Adjacent(n: Name): set<Name> {
      (set i | 0 <= i < |edges| && edges[i].source == n :: edges[i].target)
        + (set i | 0 <= i < |edges| && edges[i].target == n :: edges[i].source)
    }
  }

  /** A walk along edges in either direction. */
  ghost predicate Walk(g: Graph, p: seq<Name>, source: Name, target: Name) {
    && |p| >= 1 && p[0] == source && p[|p| - 1] == target
    && forall i :: 0 <= i < |p| - 1 ==> p[i + 1] in g.Adjacent(p[i])
  }

  // ---------- what the searches are about, said of the edges ----------

  /** Some edge has ends `a` and `b`, in either order. */
  ghost predicate Joined(g: Graph, a: Name, b: Name) {
    exists i ::
      && 0 <= i < |g.edges|
      && (g.edges[i] == Link(a, b) || g.edges[i] == Link(b, a))
  }

  /** A sequence of nodes of which consecutive ones are the two ends of some edge. */
  ghost predicate Trail(g: Graph, p: seq<Name>, source: Name, target: Name) {
    && |p| >= 1 && p[0] == source && p[|p| - 1] == target
    && forall i {:trigger p[i]} :: 0 <= i < |p| - 1 ==> Joined(g, p[i], p[i + 1])
  }

  /** The node is at most `d` edges away, ignoring direction. */
  ghost predicate Within(g: Graph, center: Name, n: Name, d: nat) {
    exists p :: Trail(g, p, center, n) && |p| <= d + 1
  }

  /** Neighbours are exactly the nodes an edge joins with the node, whichever way it points. */
  lemma AdjacentIff(g: Graph, n: Name, m: Name)
    ensures m in g.Adjacent(n) <==> Joined(g, n, m)
  {
    if i :| 0 <= i < |g.edges| && (g.edges[i] == Link(n, m) || g.edges[i] == Link(m, n)) {
      assert m in g.Adjacent(n);
    }
    if m in g.Adjacent(n) {
      if i :| 0 <= i < |g.edges| && g.edges[i].source == n && g.edges[i].target == m {
        assert g.edges[i] == Link(n, m);
      } else {
        var i :| 0 <= i < |g.edges| && g.edges[i].target == n && g.edges[i].source == m;
        assert g.edges[i] == Link(m, n);
      }
    }
  }

  lemma WalkIsTrail(g: Graph, p: seq<Name>, source: Name, target: Name)
    ensures Walk(g, p, source, target) <==> Trail(g, p, source, target)
  {
    hide Joined;
    forall i | 0 <= i < |p| - 1 ensures p[i + 1] in g.Adjacent(p[i]) <==> Joined(g, p[i], p[i + 1]) {
      AdjacentIff(g, p[i], p[i + 1]);
    }
  }

  function Backwards(p: seq<Name>): (q: seq<Name>)
    ensures |q| == |p| && forall i :: 0 <= i < |p| ==> q[i] == p[|p| - 1 - i]
  {
    seq(|p|, i requires 0 <= i < |p| => p[|p| - 1 - i])
  }

  lemma JoinedBothWays(g: Graph, a: Name, b: Name)
    ensures Joined(g, a, b) <==> Joined(g, b, a)
  {
  }

  /** A trail read backwards is a trail. */
  lemma TrailReversed(g: Graph, p: seq<Name>, source: Name, target: Name)
    requires Trail(g, p, source, target)
    ensures Trail(g, Backwards(p), target, source)
  {
    hide Joined;
    var q := Backwards(p);
    forall i | 0 <= i < |q| - 1 ensures Joined(g, q[i], q[i + 1]) {
      var j := |p| - 2 - i;
      assert q[i] == p[j + 1] && q[i + 1] == p[j];
      assert Joined(g, p[j], p[j + 1]);
      JoinedBothWays(g, p[j], p[j + 1]);
    }
  }

  /** Either end finds the other, and shortest trails are equally long both ways. */
  lemma FoundBothWays(g: Graph, p: seq<Name>, q: seq<Name>, source: Name, target: Name)
    requires Trail(g, p, source, target) && forall w :: Trail(g, w, source, target) ==> |p| <= |w|
    requires Trail(g, q, target, source) && forall w :: Trail(g, w, target, source) ==> |q| <= |w|
    ensures |p| == |q|
  {
    hide Trail;
    TrailReversed(g, p, source, target);
    TrailReversed(g, q, target, source);
  }

  /** Being within a distance is symmetric. */
  lemma WithinBothWays(g: Graph, a: Name, b: Name, d: nat)
    ensures Within(g, a, b, d) <==> Within(g, b, a, d)
  {
    hide Trail;
    if p :| Trail(g, p, a, b) && |p| <= d + 1 {
      TrailReversed(g, p, a, b);
    }
    if p :| Trail(g, p, b, a) && |p| <= d + 1 {
      TrailReversed(g, p, b, a);
    }
  }

  lemma TrailExtends(g: Graph, p: seq<Name>, source: Name, m: Name, n: Name)
    requires Trail(g, p, source, m) && Joined(g, m, n)
    ensures Trail(g, p + [n], source, n)
  {
    hide Joined;
    var q := p + [n];
    forall i | 0 <= i < |q| - 1 ensures Joined(g, q[i], q[i + 1]) {
      if i < |p| - 1 { assert q[i] == p[i] && q[i + 1] == p[i + 1]; }
    }
  }

  lemma TrailShortens(g: Graph, p: seq<Name>, source: Name, n: Name)
    requires Trail(g, p, source, n) && |p| >= 2
    ensures Trail(g, p[..|p| - 1], source, p[|p| - 2]) && Joined(g, p[|p| - 2], n)
  {
    hide Joined;
    assert Joined(g, p[|p| - 2], p[|p| - 2 + 1]);
  }

  lemma WithinGrows(g: Graph, center: Name, m: Name, n: Name, d: nat)
    requires Within(g, center, m, d)
    ensures Within(g, center, m, d + 1) && (Joined(g, m, n) ==> Within(g, center, n, d + 1))
  {
    hide Trail, Joined;
    var p :| Trail(g, p, center, m) && |p| <= d + 1;
    if Joined(g, m, n) { TrailExtends(g, p, center, m, n); }
  }

  lemma {:induction false} BallHasTrails(g: Graph, center: Name, d: nat, n: Name)
    requires n in Ball(g, center, d)
    ensures Within(g, center, n, d)
  {
    hide Within, Joined, Ball;
    if d == 0 {
      BallStarts(g, center);
      PointTrail(g, center, n);
    } else if n in Ball(g, center, d - 1) {
      BallHasTrails(g, center, d - 1, n);
      WithinGrows(g, center, n, n, d - 1);
    } else {
      var m := OneNearer(g, center, d, n);
      BallHasTrails(g, center, d - 1, m);
      AdjacentIff(g, m, n);
      WithinGrows(g, center, m, n, d - 1);
    }
  }

  lemma {:induction false} TrailsStayInBall(g: Graph, center: Name, d: nat, n: Name, p: seq<Name>)
    requires Trail(g, p, center, n) && |p| <= d + 1
    ensures n in Ball(g, center, d)
    decreases d
  {
    hide Joined, Ball;
    if |p| == 1 {
      BallStarts(g, center);
      BallGrows(g, center, 0, d);
    } else {
      TrailShortens(g, p, center, n);
      var m := p[|p| - 2];
      TrailsStayInBall(g, center, d - 1, m, p[..|p| - 1]);
      AdjacentIff(g, m, n);
      OneFurther(g, center, m, n, d - 1);
    }
  }

  /** The ball of a depth is what is within that distance. */
  lemma BallIsWithin(g: Graph, center: Name, d: nat, n: Name)
    ensures n in Ball(g, center, d) <==> Within(g, center, n, d)
  {
    hide Trail, Ball;
    if n in Ball(g, center, d) {
      BallHasTrails(g, center, d, n);
    }
    if p :| Trail(g, p, center, n) && |p| <= d + 1 {
      TrailsStayInBall(g, center, d, n, p);
    }
  }

  lemma PointTrail(g: Graph, center: Name, n: Name)
    ensures Within(g, center, n, 0) <==> n == center
  {
    assert Trail(g, [center], center, center);
  }

  lemma BallSymmetric(g: Graph, a: Name, b: Name, d: nat)
    ensures b in Ball(g, a, d) <==> a in Ball(g, b, d)
  {
    hide Ball, Within;
    BallIsWithin(g, a, d, b);
    BallIsWithin(g, b, d, a);
    WithinBothWays(g, a, b, d);
  }

  /** A node's degree counts each edge once for each of its ends that is the node. */
  lemma DegreeCounts(nodes: set<Name>, edges: seq<Link>, e: Link, n: Name)
    ensures Degree(Graph(nodes, []), n) == 0
    ensures Degree(Graph(nodes, edges + [e]), n) ==
      Degree(Graph(nodes, edges), n) + (if e.source == n then 1 else 0) + (if e.target == n then 1 else 0)
  {
    hide Outgoing, Incoming;
    OutgoingGrow(edges, e, n);
    IncomingGrow(edges, e, n);
  }

  lemma OutgoingGrow(edges: seq<Link>, e: Link, n: Name)
    ensures Outgoing([], n) == {} && |Outgoing(edges + [e], n)| == |Outgoing(edges, n)| + if e.source == n then 1 else 0
  {
    var all, last := edges + [e], |edges|;
    forall i ensures i in Outgoing(all, n) <==> i in Outgoing(edges, n) || (i == last && e.source == n) {
      if 0 <= i < last { assert all[i] == edges[i]; }
    }
    assert last !in Outgoing(edges, n);
    if e.source == n {
      assert Outgoing(all, n) == Outgoing(edges, n) + {last};
    } else {
      assert Outgoing(all, n) == Outgoing(edges, n);
    }
  }

  lemma IncomingGrow(edges: seq<Link>, e: Link, n: Name)
    ensures Incoming([], n) == {} && |Incoming(edges + [e], n)| == |Incoming(edges, n)| + if e.target == n then 1 else 0
  {
    var all, last := edges + [e], |edges|;
    forall i ensures i in Incoming(all, n) <==> i in Incoming(edges, n) || (i == last && e.target == n) {
      if 0 <= i < last { assert all[i] == edges[i]; }
    }
    assert last !in Incoming(edges, n);
    if e.target == n {
      assert Incoming(all, n) == Incoming(edges, n) + {last};
    } else {
      assert Incoming(all, n) == Incoming(edges, n);
    }
  }

  // ---------- the order in which paths are found ----------

  /** Shorter first, then lexicographically smaller. */
  ghost predicate Less(a: seq<Name>, b: seq<Name>) {
    |a| < |b| || (|a| == |b| && a != b && LexLeq(a, b))
  }

  ghost predicate AtMost(a: seq<Name>, b: seq<Name>) {
    a == b || Less(a, b)
  }

  lemma {:induction false} LexTransitive(a: seq<Name>, b: seq<Name>, c: seq<Name>)
    requires LexLeq(a, b) && LexLeq(b, c)
    ensures LexLeq(a, c)
  {
    if |a| > 0 && a[0] == b[0] && b[0] == c[0] {
      LexTransitive(a[1..], b[1..], c[1..]);
    }
  }

  lemma {:induction false} LexAntisymmetric(a: seq<Name>, b: seq<Name>)
    requires LexLeq(a, b) && LexLeq(b, a)
    ensures a == b
  {
    if |a| > 0 && |b| > 0 {
      LexAntisymmetric(a[1..], b[1..]);
      assert a == [a[0]] + a[1..] && b == [b[0]] + b[1..];
    }
  }

  lemma {:induction false} LexExtends(a: seq<Name>, b: seq<Name>, x: Name, y: Name)
    requires |a| == |b| && LexLeq(a, b) && (a != b || x.Before(y) || x == y)
    ensures LexLeq(a + [x], b + [y])
  {
    if |a| == 0 {
      assert (a + [x])[1..] == [] && (b + [y])[1..] == [];
    } else {
      assert (a + [x])[1..] == a[1..] + [x] && (b + [y])[1..] == b[1..] + [y];
      if a[0] == b[0] {
        assert a == [a[0]] + a[1..] && b == [b[0]] + b[1..];
        LexExtends(a[1..], b[1..], x, y);
      }
    }
  }

  lemma LessTransitive(a: seq<Name>, b: seq<Name>, c: seq<Name>)
    requires AtMost(a, b) && Less(b, c)
    ensures Less(a, c)
  {
    if |a| == |b| == |c| && a != b {
      LexTransitive(a, b, c);
      if a == c { LexAntisymmetric(a, b); }
    }
  }

  /** Extending keeps the order, whatever is added. */
  lemma LessExtends(a: seq<Name>, b: seq<Name>, x: Name, y: Name)
    requires Less(a, b) || (a == b && x.Before(y))
    ensures Less(a + [x], b + [y])
  {
    if |a| == |b| {
      LexSelf(a);
      LexExtends(a, b, x, y);
      assert (a + [x])[..|a|] == a && (b + [y])[..|b|] == b && (a + [x])[|a|] == x && (b + [y])[|b|] == y;
    }
  }

  lemma {:induction false} LexSelf(a: seq<Name>)
    ensures LexLeq(a, a)
  {
    if |a| > 0 { LexSelf(a[1..]); }
  }

  // ---------- the search tree ----------

  type Tree = map<Name, seq<Name>>

  ghost predicate Grown(found: seq<Name>, tree: Tree) {
    && (forall n :: n in found <==> n in tree)
    && (forall i, j :: 0 <= i < j < |found| ==> found[i] != found[j])
  }

  /** Nodes are found in the order of their paths. */
  ghost predicate Ascending(found: seq<Name>, tree: Tree)
    requires Grown(found, tree)
  {
    forall i, j :: 0 <= i < j < |found| ==> Less(tree[found[i]], tree[found[j]])
  }

  /** Everything found so far comes before `p`. */
  ghost predicate AllBefore(tree: Tree, p: seq<Name>) {
    forall n {:trigger tree[n]} :: n in tree ==> Less(tree[n], p)
  }

  /** Everything found so far comes before any extension of a path still to be explored. */
  ghost predicate Ahead(found: seq<Name>, h: nat, tree: Tree)
    requires Grown(found, tree)
  {
    forall q, x: Name {:trigger tree[found[q]] + [x]} :: h <= q < |found| ==> AllBefore(tree, tree[found[q]] + [x])
  }

  /** The neighbours of explored nodes are found, by a path at most as late as the one through the explored node. */
  ghost predicate Explored(g: Graph, found: seq<Name>, h: nat, tree: Tree)
    requires Grown(found, tree)
  {
    forall i, n {:trigger n in g.Adjacent(found[i])} :: 0 <= i < h && i < |found| && n in g.Adjacent(found[i]) ==>
      n in tree && AtMost(tree[n], tree[found[i]] + [n])
  }

  /** The table of predecessors spells the paths out. */
  ghost predicate Spells(g: Graph, source: Name, previous: map<Name, Option<Name>>, tree: Tree) {
    && previous.Keys == tree.Keys && source in tree && tree[source] == [source] && previous[source] == None
    && forall n {:trigger previous[n]} {:trigger tree[n]} :: n in tree && n != source ==>
         && previous[n].Some? && previous[n].value in tree && tree[n] == tree[previous[n].value] + [n]
         && n in g.Adjacent(previous[n].value) && |tree[previous[n].value]| >= 1
  }

  ghost predicate Searched(g: Graph, source: Name, found: seq<Name>, h: nat, tree: Tree, previous: map<Name,
      Option<Name>>) {
    && Grown(found, tree) && |found| >= 1 && h <= |found| && found[0] == source
      && Ascending(found, tree) && Ahead(found, h, tree)
    && Explored(g, found, h, tree) && Spells(g, source, previous, tree)
  }

  lemma {:induction false} TreeWalks(g: Graph, source: Name, previous: map<Name, Option<Name>>, tree: Tree, n: Name)
    requires Spells(g, source, previous, tree) && n in tree
    ensures Walk(g, tree[n], source, n)
    decreases |tree[n]|
  {
    if n != source {
      var m := previous[n].value;
      assert |tree[m]| < |tree[n]|;
      TreeWalks(g, source, previous, tree, m);
      var p, q := tree[n], tree[m];
      forall i | 0 <= i < |p| - 1 ensures p[i + 1] in g.Adjacent(p[i]) {
        if i < |q| - 1 { assert p[i] == q[i] && p[i + 1] == q[i + 1]; }
      }
    }
  }

  lemma ExtendedAtMost(p: seq<Name>, t: seq<Name>, v: seq<Name>, x: Name)
    requires AtMost(p, t + [x]) && AtMost(t, v)
    ensures AtMost(p, v + [x])
  {
    hide Less, LexLeq;
    if t != v {
      LessExtends(t, v, x, x);
      LessTransitive(p, t + [x], v + [x]);
    }
  }

  lemma WalkPrefix(g: Graph, w: seq<Name>, source: Name, target: Name, i: nat)
    requires Walk(g, w, source, target) && i < |w|
    ensures Walk(g, w[..i + 1], source, w[i]) && (i == |w| - 1 ==> w[..i + 1] == w)
      && (i < |w| - 1 ==> Less(w[..i + 1], w))
  {
  }

  /** A walk whose nodes before the last were all explored comes no earlier than the path of its end. */
  lemma {:induction false} ExploredWalks(g: Graph, source: Name, found: seq<Name>, h: nat, tree: Tree,
      previous: map<Name, Option<Name>>, w: seq<Name>, k: nat)
    requires k == |w| - 1 && Searched(g, source, found, h, tree, previous) && Walk(g, w, source, w[k])
    requires forall i :: 0 <= i < k ==> w[i] in found[..h]
    ensures w[k] in tree && AtMost(tree[w[k]], w)
    decreases k
  {
    hide Less, LexLeq, Ascending, Ahead;
    if k == 0 {
      assert w == [source];
    } else {
      var v := w[..k];
      WalkPrefix(g, w, source, w[k], k - 1);
      ExploredWalks(g, source, found, h, tree, previous, v, k - 1);
      var j :| 0 <= j < h && found[j] == w[k - 1];
      assert w[k - 1 + 1] in g.Adjacent(found[j]);
      assert w == v + [w[k]];
      ExtendedAtMost(tree[w[k]], tree[w[k - 1]], v, w[k]);
    }
  }

  /** The first node of a walk that was not explored. */
  lemma {:induction false} FirstUnexplored(w: seq<Name>, done: seq<Name>, k: nat) returns (i: nat)
    requires k < |w| && w[k] !in done
    ensures i <= k && w[i] !in done && forall j :: 0 <= j < i ==> w[j] in done
  {
    if j :| 0 <= j < k && w[j] !in done {
      i := FirstUnexplored(w, done, j);
    } else {
      i := k;
    }
  }

  lemma InPrefix(found: seq<Name>, h: nat, q: nat)
    requires h <= |found| && q < |found|
    ensures q < h ==> found[q] in found[..h]
  {
    if q < h { assert found[..h][q] == found[q]; }
  }

  lemma HeadFirst(found: seq<Name>, h: nat, tree: Tree, n: Name)
    requires Grown(found, tree) && Ascending(found, tree) && h < |found| && n in tree && n !in found[..h]
    ensures AtMost(tree[found[h]], tree[n])
  {
    hide Less;
    var q :| 0 <= q < |found| && found[q] == n;
    InPrefix(found, h, q);
  }

  /** When the search reaches its target, the path found comes before or is every walk to the target. */
  lemma ReachedFirst(g: Graph, source: Name, found: seq<Name>, h: nat, tree: Tree, previous: map<Name,
      Option<Name>>, w: seq<Name>)
    requires Searched(g, source, found, h, tree, previous) && h < |found| && Walk(g, w, source, found[h])
    ensures AtMost(tree[found[h]], w)
  {
    hide Walk, Less, Ahead, Explored, Spells, Ascending;
    WalkEnds(g, w, source, found[h]);
    HeadNotExplored(found, h, tree);
    var i := FirstUnexplored(w, found[..h], |w| - 1);
    var v := w[..i + 1];
    WalkPrefix(g, w, source, found[h], i);
    ExploredWalks(g, source, found, h, tree, previous, v, i);
    HeadFirst(found, h, tree, v[i]);
    if i < |w| - 1 {
      LessTransitive(tree[v[i]], v, w);
      LessTransitive(tree[found[h]], tree[v[i]], w);
    } else if tree[v[i]] != v && tree[found[h]] != tree[v[i]] {
      LessTransitive(tree[found[h]], tree[v[i]], v);
    }
  }

  lemma HeadNotExplored(found: seq<Name>, h: nat, tree: Tree)
    requires Grown(found, tree) && h < |found|
    ensures found[h] !in found[..h]
  {
  }

  lemma WalkEnds(g: Graph, w: seq<Name>, source: Name, target: Name)
    requires Walk(g, w, source, target)
    ensures |w| >= 1 && w[0] == source && w[|w| - 1] == target
  {
  }

  /** When nothing is left to explore, everything connected to the source was found. */
  lemma ExhaustedFindsAll(g: Graph, source: Name, found: seq<Name>, tree: Tree, previous: map<Name,
      Option<Name>>, w: seq<Name>, target: Name)
    requires Searched(g, source, found, |found|, tree, previous) && Walk(g, w, source, target)
    ensures target in tree
  {
    hide Walk, Less, Ahead, Explored, Spells, Ascending;
    WalkEnds(g, w, source, target);
    assert found[..|found|] == found;
    if target !in found {
      var i := FirstUnexplored(w, found, |w| - 1);
      WalkPrefix(g, w, source, target, i);
      ExploredWalks(g, source, found, |found|, tree, previous, w[..i + 1], i);
    }
  }

  lemma NotConnected(g: Graph, source: Name, found: seq<Name>, tree: Tree, previous: map<Name,
      Option<Name>>, target: Name)
    requires Searched(g, source, found, |found|, tree, previous) && target !in tree
    ensures forall w :: !Walk(g, w, source, target)
  {
    hide Walk, Searched;
    forall w ensures !Walk(g, w, source, target) {
      if Walk(g, w, source, target) {
        ExhaustedFindsAll(g, source, found, tree, previous, w, target);
      }
    }
  }

  // ---------- one discovery ----------

  lemma BeforeGrows(tree: Tree, n: Name, p: seq<Name>, later: seq<Name>)
    requires AllBefore(tree, p) && Less(p, later)
    ensures AllBefore(tree[n := p], later)
  {
    var tree' := tree[n := p];
    forall m | m in tree' ensures Less(tree'[m], later) {
      if m != n { LessTransitive(tree[m], p, later); }
    }
  }

  lemma DiscoverAscends(found: seq<Name>, tree: Tree, n: Name, p: seq<Name>)
    requires Grown(found, tree) && Ascending(found, tree) && AllBefore(tree, p) && n !in tree
    ensures Grown(found + [n], tree[n := p]) && Ascending(found + [n], tree[n := p])
  {
    hide Less;
    var found', tree' := found + [n], tree[n := p];
    forall i, j | 0 <= i < j < |found'| ensures Less(tree'[found'[i]], tree'[found'[j]]) {
      assert found'[i] == found[i] && found[i] in tree;
    }
  }

  /** Discovering `n` from the head keeps everything found ahead of every path still to be explored. */
  lemma DiscoverAhead(found: seq<Name>, h: nat, tree: Tree, n: Name, p: seq<Name>)
    requires Grown(found, tree) && Ascending(found, tree) && h < |found| && Ahead(found, h + 1, tree) && n !in tree
    requires p == tree[found[h]] + [n] && AllBefore(tree, p) && Grown(found + [n], tree[n := p])
    ensures Ahead(found + [n], h + 1, tree[n := p])
  {
    hide Less, AllBefore;
    var found', tree' := found + [n], tree[n := p];
    forall q, x: Name | h + 1 <= q < |found'| ensures AllBefore(tree', tree'[found'[q]] + [x]) {
      if q < |found| {
        assert found'[q] == found[q] && found[q] in tree && AllBefore(tree, tree[found[q]] + [x]);
        LessExtends(tree[found[h]], tree[found[q]], n, x);
        BeforeGrows(tree, n, p, tree[found[q]] + [x]);
      } else {
        LongerIsLater(p, x);
        BeforeGrows(tree, n, p, p + [x]);
      }
    }
  }

  lemma LongerIsLater(p: seq<Name>, x: Name)
    ensures Less(p, p + [x])
  {
  }

  /** Old nodes keep their paths, so what was explored stays explored. */
  lemma DiscoverExplored(g: Graph, found: seq<Name>, h: nat, tree: Tree, n: Name, p: seq<Name>)
    requires Grown(found, tree) && h <= |found| && Explored(g, found, h, tree) && n !in tree
      && Grown(found + [n], tree[n := p])
    ensures Explored(g, found + [n], h, tree[n := p])
  {
    hide AtMost;
    var found', tree' := found + [n], tree[n := p];
    forall i, m | 0 <= i < h && m in g.Adjacent(found'[i])
      ensures m in tree' && AtMost(tree'[m], tree'[found'[i]] + [m])
    {
      assert found'[i] == found[i] && found[i] in tree && m in tree;
    }
  }

  lemma DiscoverSpells(g: Graph, source: Name, previous: map<Name, Option<Name>>, tree: Tree, m: Name, n: Name)
    requires Spells(g, source, previous, tree) && m in tree && n !in tree && n in g.Adjacent(m)
    ensures Spells(g, source, previous[n := Some(m)], tree[n := tree[m] + [n]])
  {
  }

  /** The state while the neighbours of the head are being looked at: `targets[..i]` are done. */
  ghost predicate Expanding(g: Graph, source: Name, found: seq<Name>, h: nat, tree: Tree,
      previous: map<Name, Option<Name>>, targets: seq<Name>, i: nat) {
    && Grown(found, tree) && h < |found| && found[0] == source && Ascending(found, tree) && Ahead(found, h + 1, tree)
    && Explored(g, found, h, tree) && Spells(g, source, previous, tree)
    && (forall t: nat {:trigger targets[t]} :: t < |targets| ==> targets[t] in g.Adjacent(found[h]))
    && (forall t: nat {:trigger targets[t]} :: t < i && t < |targets| ==>
      targets[t] in tree && AtMost(tree[targets[t]], tree[found[h]] + [targets[t]]))
    && (forall t: nat {:trigger targets[t]} :: i <= t < |targets| ==> AllBefore(tree, tree[found[h]] + [targets[t]]))
  }

  lemma StartExpanding(g: Graph, source: Name, found: seq<Name>, h: nat, tree: Tree, previous: map<Name,
      Option<Name>>, targets: seq<Name>)
    requires Searched(g, source, found, h, tree, previous) && h < |found|
      && forall n :: n in targets <==> n in g.Adjacent(found[h])
    ensures Expanding(g, source, found, h, tree, previous, targets, 0)
  {
    hide Less, AllBefore, Spells, Explored, Ascending;
    forall t: nat | t < |targets|
      ensures targets[t] in g.Adjacent(found[h]) && AllBefore(tree, tree[found[h]] + [targets[t]])
    {
      assert targets[t] in targets;
    }
  }

  lemma DoneExpanding(g: Graph, source: Name, found: seq<Name>, h: nat, tree: Tree, previous: map<Name,
      Option<Name>>, targets: seq<Name>)
    requires Expanding(g, source, found, h, tree, previous, targets, |targets|)
      && forall n :: n in targets <==> n in g.Adjacent(found[h])
    ensures Searched(g, source, found, h + 1, tree, previous)
  {
    hide AtMost, AllBefore, Spells, Ascending, Ahead;
  }

  lemma SkipKnown(g: Graph, source: Name, found: seq<Name>, h: nat, tree: Tree, previous: map<Name,
      Option<Name>>, targets: seq<Name>, i: nat)
    requires Expanding(g, source, found, h, tree, previous, targets, i) && i < |targets| && targets[i] in tree
    ensures Expanding(g, source, found, h, tree, previous, targets, i + 1)
  {
    hide Less, Spells, Ascending, Ahead, Explored;
  }

  lemma Discover(g: Graph, source: Name, found: seq<Name>, h: nat, tree: Tree, previous: map<Name,
      Option<Name>>, targets: seq<Name>, i: nat)
    requires Expanding(g, source, found, h, tree, previous, targets, i) && i < |targets| && targets[i] !in tree
    requires forall a, b :: 0 <= a < b < |targets| ==> targets[a].Before(targets[b])
    ensures found[h] in tree
    ensures var n := targets[i];
      var p := tree[found[h]] + [n];
        Expanding(g, source, found + [n], h, tree[n := p], previous[n := Some(found[h])], targets, i + 1)
  {
    var n := targets[i];
    assert found[h] in tree;
    var p := tree[found[h]] + [n];
    hide Less, Spells, Ascending, Ahead, Explored, AllBefore;
    DiscoverAscends(found, tree, n, p);
    DiscoverAhead(found, h, tree, n, p);
    DiscoverExplored(g, found, h, tree, n, p);
    DiscoverSpells(g, source, previous, tree, found[h], n);
    forall t: nat | i + 1 <= t < |targets| ensures AllBefore(tree[n := p], tree[found[h]] + [targets[t]]) {
      LessExtends(tree[found[h]], tree[found[h]], n, targets[t]);
      BeforeGrows(tree, n, p, tree[found[h]] + [targets[t]]);
    }
  }

  // ---------- shortest_path ----------

  /** Look at the neighbours of the head in order, and queue those not seen before. */
  method Expand(g: Graph, ghost source: Name, found0: seq<Name>, h: nat, ghost tree0: Tree,
      previous0: map<Name, Option<Name>>)
    returns (found: seq<Name>, ghost tree: Tree, previous: map<Name, Option<Name>>)
    requires Searched(g, source, found0, h, tree0, previous0) && h < |found0|
    ensures Searched(g, source, found, h + 1, tree, previous) && found0 <= found
      && g.Adjacent(found0[h]) + tree0.Keys >= tree.Keys
  {
    hide Less, Spells, Ascending, Ahead, Explored, AllBefore, Expanding, Searched, Sorted;
    found, tree, previous := found0, tree0, previous0;
    var current := found0[h];
    var targets := Sort(g.Adjacent(current));
    SortedHas(g.Adjacent(current));
    SortedAscends(g.Adjacent(current));
    StartExpanding(g, source, found, h, tree, previous, targets);
    for i := 0 to |targets|
      invariant Expanding(g, source, found, h, tree, previous, targets, i) && found0 <= found
      invariant tree.Keys <= tree0.Keys + g.Adjacent(current)
    {
      KeysAgree(g, source, found, h, tree, previous, targets, i);
      var candidate := targets[i];
      assert candidate in targets;
      if candidate in previous {
        SkipKnown(g, source, found, h, tree, previous, targets, i);
      } else {
        Discover(g, source, found, h, tree, previous, targets, i);
        tree := tree[candidate := tree[current] + [candidate]];
        previous := previous[candidate := Some(current)];
        found := found + [candidate];
      }
    }
    DoneExpanding(g, source, found, h, tree, previous, targets);
  }

  lemma KeysAgree(g: Graph, source: Name, found: seq<Name>, h: nat, tree: Tree, previous: map<Name,
      Option<Name>>, targets: seq<Name>, i: nat)
    requires Expanding(g, source, found, h, tree, previous, targets, i)
    ensures previous.Keys == tree.Keys
  {
  }

  lemma StartSearch(g: Graph, source: Name)
    ensures Searched(g, source, [source], 0, map[source := [source]], map[source := None])
  {
    forall x: Name ensures Less([source], [source] + [x]) { }
  }

  lemma SpelledStep(g: Graph, source: Name, previous: map<Name, Option<Name>>, tree: Tree, n: Name)
    requires Spells(g, source, previous, tree) && n in tree
    ensures n in previous && if previous[n].Some?
      then previous[n].value in tree && tree[n] == tree[previous[n].value] + [n]
      else tree[n] == [n]
  {
  }

  /** The predecessors, followed back from the target. */
  method FollowBack(ghost g: Graph, ghost source: Name, target: Name, previous: map<Name, Option<Name>>,
      ghost tree: Tree)
      returns (path: seq<Name>)
    requires Spells(g, source, previous, tree) && target in tree
    ensures path == tree[target]
  {
    hide Spells;
    path := [];
    var cursor := Some(target);
    while cursor.Some?
      invariant cursor.Some? ==> cursor.value in tree && tree[cursor.value] + path == tree[target]
      invariant cursor.None? ==> path == tree[target]
      decreases if cursor.Some? then |tree[cursor.value]| + 1 else 0
    {
      SpelledStep(g, source, previous, tree, cursor.value);
      path := [cursor.value] + path;
      cursor := previous[cursor.value];
    }
  }

  lemma SearchedMeans(g: Graph, source: Name, found: seq<Name>, h: nat, tree: Tree, previous: map<Name, Option<Name>>)
    requires Searched(g, source, found, h, tree, previous)
    ensures Grown(found, tree) && previous.Keys == tree.Keys && Spells(g, source, previous, tree)
  {
  }

  lemma AdjacentInside(g: Graph, n: Name)
    requires g.Loaded()
    ensures g.Adjacent(n) <= g.nodes
  {
  }

  lemma {:induction false} CountFound(found: seq<Name>, N: set<Name>)
    requires (forall i, j :: 0 <= i < j < |found| ==> found[i] != found[j]) && forall n :: n in found ==> n in N
    ensures |found| <= |N|
  {
    if found != [] {
      var last := found[|found| - 1];
      assert last in found;
      var rest := found[..|found| - 1];
      forall n | n in rest ensures n in N - {last} { assert n in found; }
      CountFound(rest, N - {last});
    }
  }

  lemma NextNotTarget(found0: seq<Name>, found: seq<Name>, h: nat, target: Name)
    requires found0 <= found && h < |found0| && target !in found0[..h] && found0[h] != target
    ensures target !in found[..h + 1]
  {
    assert found[..h + 1] == found0[..h] + [found0[h]];
  }

  /** Shorter, or as short and with the smaller name where they first differ, or the same. */
  ghost predicate FirstOfTwo(p: seq<Name>, w: seq<Name>) {
    |p| < |w| || (|p| == |w| && NoLater(p, w))
  }

  lemma LeastIsFirst(p: seq<Name>, w: seq<Name>)
    requires AtMost(p, w)
    ensures FirstOfTwo(p, w)
  {
    LexSelf(p);
    if |p| == |w| { LexMeans(p, w); }
  }

  /** `shortest_path`: found exactly when the nodes are connected ignoring direction; then no trail is shorter, and
    * none as short comes first. */
  method ShortestPath(g: Graph, source: Name, target: Name) returns (found: bool, path: seq<Name>)
    requires g.Loaded() && source in g.nodes && target in g.nodes
    ensures found <==> exists w :: Trail(g, w, source, target)
    ensures found ==> Trail(g, path, source, target)
    ensures found ==> forall w :: Trail(g, w, source, target) ==> FirstOfTwo(path, w)
  {
    hide Trail, FirstOfTwo;
    hide Less, Spells, Ascending, Ahead, Explored, Walk, Searched, AtMost, LexLeq;
    var seen, previous := [source], map[source := None];
    ghost var tree: Tree := map[source := [source]];
    var h := 0;
    StartSearch(g, source);
    while h < |seen| && seen[h] != target
      invariant Searched(g, source, seen, h, tree, previous) && h <= |seen| && tree.Keys <= g.nodes
        && target !in seen[..h]
      decreases |g.nodes| - h
    {
      SearchedMeans(g, source, seen, h, tree, previous);
      AdjacentInside(g, seen[h]);
      CountFound(seen, g.nodes);
      ghost var seen0 := seen;
      seen, tree, previous := Expand(g, source, seen, h, tree, previous);
      NextNotTarget(seen0, seen, h, target);
      h := h + 1;
    }
    SearchedMeans(g, source, seen, h, tree, previous);
    if target !in previous {
      assert h == |seen|;
      NotConnected(g, source, seen, tree, previous, target);
      forall w ensures !Trail(g, w, source, target) { WalkIsTrail(g, w, source, target); }
      return false, [];
    }
    assert seen[..|seen|] == seen;
    TreeWalks(g, source, previous, tree, target);
    path := FollowBack(g, source, target, previous, tree);
    found := true;
    WalkIsTrail(g, path, source, target);
    forall w | Trail(g, w, source, target) ensures FirstOfTwo(path, w) {
      WalkIsTrail(g, w, source, target);
      ReachedFirst(g, source, seen, h, tree, previous, w);
      LeastIsFirst(path, w);
    }
  }

  // ---------- neighborhood ----------

  /** The edges out of a node, and into it, by their places. */
  function Outgoing(edges: seq<Link>, n: Name): set<int> {
    set i | 0 <= i < |edges| && edges[i].source == n
  }

  function Incoming(edges: seq<Link>, n: Name): set<int> {
    set i | 0 <= i < |edges| && edges[i].target == n
  }

  function Degree(g: Graph, n: Name): nat {
    |Outgoing(g.edges, n)| + |Incoming(g.edges, n)|
  }

  /** Higher degree first, then by name. */
  predicate Precedes(g: Graph, a: Name, b: Name) {
    Degree(g, a) > Degree(g, b) || (Degree(g, a) == Degree(g, b) && a.Before(b))
  }

  /** Everything within `d` edges of the center, in either direction. */
  ghost function Ball(g: Graph, center: Name, d: nat): set<Name> {
    if d == 0 then {center}
    else Ball(g, center, d - 1) + set m, n | m in Ball(g, center, d - 1) && n in g.Adjacent(m) :: n
  }

  function BoundedLimit(value: int, default: int, maximum: int): int {
    if value <= 0 then default else if value < maximum then value else maximum
  }

  function BoundedDepth(depth: int): int {
    if depth < 1 then 1 else if depth > 2 then 2 else depth
  }

  method SortByDegree(g: Graph, S: set<Name>) returns (s: seq<Name>)
    ensures forall n :: n in s <==> n in S
    ensures forall i, j :: 0 <= i < j < |s| ==> Precedes(g, s[i], s[j])
    ensures forall i, j :: 0 <= i < j < |s| ==>
      Degree(g, s[i]) > Degree(g, s[j]) || (Degree(g, s[i]) == Degree(g, s[j]) && s[i].rank < s[j].rank)
  {
    hide Degree;
    s := [];
    var rest := S;
    while rest != {}
      invariant rest <= S && forall n :: n in s <==> n in S && n !in rest
      invariant forall i, j :: 0 <= i < j < |s| ==> Precedes(g, s[i], s[j])
      invariant forall i, n :: 0 <= i < |s| && n in rest ==> Precedes(g, s[i], n)
      decreases |rest|
    {
      var first :| first in rest;
      var others := rest - {first};
      while others != {}
        invariant first in rest && others <= rest
        invariant forall n :: n in rest && n !in others && n != first ==> Precedes(g, first, n)
        decreases |others|
      {
        var n :| n in others;
        if Precedes(g, n, first) {
          first := n;
        }
        others := others - {n};
      }
      s, rest := s + [first], rest - {first};
    }
  }

  type Distances = map<Name, nat>

  /** `dist` records how far out each seen node was found; the neighbours of a finished node are seen, at most one
    * further out. */
  ghost predicate Near(g: Graph, center: Name, depth: nat, dist: Distances, done: set<Name>) {
    && center in dist && dist[center] == 0 && done <= dist.Keys
    && (forall n {:trigger dist[n]} :: n in dist ==> dist[n] <= depth && n in Ball(g, center, dist[n]))
    && (forall n, m {:trigger n in done, m in g.Adjacent(n)} :: n in done && dist[n] < depth && m in g.Adjacent(n) ==>
      m in dist && dist[m] <= dist[n] + 1)
  }

  /** The queue holds the seen nodes not finished yet, nearest first, within one step of the head. */
  ghost predicate Queued(dist: Distances, done: set<Name>, queue: seq<(Name, nat)>) {
    && (forall i {:trigger queue[i]} :: 0 <= i < |queue| ==> queue[i].0 in dist && dist[queue[i].0] == queue[i].1)
    && (forall i, j :: 0 <= i < j < |queue| ==> queue[i].1 <= queue[j].1)
    && (forall n :: n in dist && n !in done ==> (n, dist[n]) in queue)
    && (|queue| > 0 ==>
          && (forall n {:trigger dist[n]} :: n in dist ==> dist[n] <= queue[0].1 + 1)
          && (forall n {:trigger n in done} :: n in done && n in dist ==> dist[n] <= queue[0].1))
  }

  /** Of the center's neighbours, those seen come before those not seen. */
  ghost predicate BestFirst(g: Graph, center: Name, seen: set<Name>) {
    forall a, b ::
      a in g.Adjacent(center) && b in g.Adjacent(center) && a in seen && a != center && b !in seen ==> Precedes(g, a, b)
  }

  lemma BallStep(g: Graph, center: Name, d: nat)
    ensures Ball(g, center, d) <= Ball(g, center, d + 1)
  {
  }

  lemma {:induction false} BallGrows(g: Graph, center: Name, k: nat, d: nat)
    requires k <= d
    ensures Ball(g, center, k) <= Ball(g, center, d)
    decreases d
  {
    hide Ball;
    if k < d {
      BallGrows(g, center, k, d - 1);
      BallStep(g, center, d - 1);
    }
  }

  lemma BallStarts(g: Graph, center: Name)
    ensures Ball(g, center, 0) == {center}
  {
  }

  lemma OneNearer(g: Graph, center: Name, k: nat, n: Name) returns (m: Name)
    requires k > 0 && n in Ball(g, center, k) && n !in Ball(g, center, k - 1)
    ensures m in Ball(g, center, k - 1) && n in g.Adjacent(m)
  {
    m :| m in Ball(g, center, k - 1) && n in g.Adjacent(m);
  }

  /** When every nearer node is finished, the whole ball has been seen. */
  lemma {:induction false} LayerSeen(g: Graph, center: Name, depth: nat, dist: Distances, done: set<Name>, k: nat)
    requires Near(g, center, depth, dist, done) && k <= depth && forall n :: n in dist && dist[n] < k ==> n in done
    ensures Ball(g, center, k) <= dist.Keys && forall n :: n in Ball(g, center, k) ==> dist[n] <= k
  {
    hide Ball;
    if k == 0 {
      BallStarts(g, center);
    } else {
      LayerSeen(g, center, depth, dist, done, k - 1);
      forall n | n in Ball(g, center, k) ensures n in dist && dist[n] <= k {
        if n !in Ball(g, center, k - 1) {
          var m := OneNearer(g, center, k, n);
          assert dist[m] <= k - 1 && m in done;
        }
      }
    }
  }

  lemma SeenInBall(g: Graph, center: Name, depth: nat, dist: Distances, done: set<Name>, k: nat)
    requires Near(g, center, depth, dist, done) && forall n :: n in dist ==> dist[n] <= k
    ensures dist.Keys <= Ball(g, center, k)
  {
    forall n | n in dist ensures n in Ball(g, center, k) { BallGrows(g, center, dist[n], k); }
  }

  /** The state while the neighbours of `current` at distance `d` are being looked at: `targets[..i]` are done. */
  ghost predicate Spreading(g: Graph, center: Name, depth: nat, dist: Distances, done: set<Name>,
      queue: seq<(Name, nat)>, current: Name, d: nat, targets: seq<Name>, i: nat) {
    && Near(g, center, depth, dist, done) && current in dist && dist[current] == d && d < depth
    && (forall j {:trigger queue[j]} :: 0 <= j < |queue| ==>
      queue[j].0 in dist && dist[queue[j].0] == queue[j].1 && d <= queue[j].1)
    && (forall j, l :: 0 <= j < l < |queue| ==> queue[j].1 <= queue[l].1)
    && (forall n :: n in dist && n !in done && n != current ==> (n, dist[n]) in queue)
    && (forall n {:trigger dist[n]} :: n in dist ==> dist[n] <= d + 1)
      && (forall n {:trigger n in done} :: n in done && n in dist ==> dist[n] <= d)
    && (forall j {:trigger targets[j]} :: 0 <= j < i && j < |targets| ==> targets[j] in dist)
    && (forall n :: n in dist && dist[n] < d ==> n in done)
  }

  lemma HeadNearest(queue: seq<(Name, nat)>)
    requires forall i, j :: 0 <= i < j < |queue| ==> queue[i].1 <= queue[j].1
    ensures forall e :: e in queue ==> queue[0].1 <= e.1
  {
    forall e | e in queue ensures queue[0].1 <= e.1 {
      var j :| 0 <= j < |queue| && queue[j] == e;
    }
  }

  lemma StartSpreading(g: Graph, center: Name, depth: nat, dist: Distances, done: set<Name>,
      queue: seq<(Name, nat)>, targets: seq<Name>)
    requires Near(g, center, depth, dist, done) && Queued(dist, done, queue) && |queue| > 0 && queue[0].1 < depth
    ensures Spreading(g, center, depth, dist, done, queue[1..], queue[0].0, queue[0].1, targets, 0)
  {
    HeadNearest(queue);
  }

  lemma SpreadTo(g: Graph, center: Name, depth: nat, dist: Distances, done: set<Name>,
      queue: seq<(Name, nat)>, current: Name, d: nat, targets: seq<Name>, i: nat)
    requires Spreading(g, center, depth, dist, done, queue, current, d, targets, i) && i < |targets|
      && targets[i] in g.Adjacent(current)
    ensures targets[i] in dist ==> Spreading(g, center, depth, dist, done, queue, current, d, targets, i + 1)
    ensures targets[i] !in dist ==>
      Spreading(g, center, depth, dist[targets[i] := d + 1], done, queue + [(targets[i], d + 1)], current, d,
        targets, i + 1)
  {
    hide Ball;
    if targets[i] !in dist {
      OneFurther(g, center, current, targets[i], d);
      var queue' := queue + [(targets[i], d + 1)];
      assert (targets[i], d + 1) in queue';
    }
  }

  lemma OneFurther(g: Graph, center: Name, m: Name, n: Name, d: nat)
    ensures m in Ball(g, center, d) && n in g.Adjacent(m) ==> n in Ball(g, center, d + 1)
  {
  }

  lemma DoneSpreading(g: Graph, center: Name, depth: nat, dist: Distances, done: set<Name>,
      queue: seq<(Name, nat)>, current: Name, d: nat, targets: seq<Name>)
    requires Spreading(g, center, depth, dist, done, queue, current, d, targets, |targets|)
      && forall n :: n in targets <==> n in g.Adjacent(current)
    ensures Near(g, center, depth, dist, done + {current}) && Queued(dist, done + {current}, queue)
  {
    hide Ball;
  }

  /** Between two layers: everything at `k` or nearer is seen, and nothing further than `k + 1`. */
  ghost predicate Between(g: Graph, center: Name, seen: set<Name>, k: nat) {
    Ball(g, center, k) <= seen <= Ball(g, center, k + 1)
  }

  lemma SpreadingBetween(g: Graph, center: Name, depth: nat, dist: Distances, done: set<Name>,
      queue: seq<(Name, nat)>, current: Name, d: nat, targets: seq<Name>, i: nat)
    requires Spreading(g, center, depth, dist, done, queue, current, d, targets, i)
    ensures Between(g, center, dist.Keys, d)
  {
    hide Ball;
    LayerSeen(g, center, depth, dist, done, d);
    SeenInBall(g, center, depth, dist, done, d + 1);
  }

  /** The loop over the neighbours of one node; it stops at the limit. */
  method Spread(g: Graph, ghost center: Name, ghost depth: nat, limit: nat, seen0: set<Name>,
      ghost dist0: Distances, ghost done: set<Name>, queue0: seq<(Name, nat)>)
    returns (seen: set<Name>, ghost dist: Distances, queue: seq<(Name, nat)>)
    requires |queue0| > 0 && queue0[0].1 < depth && |seen0| < limit && seen0 == dist0.Keys
      && Near(g, center, depth, dist0, done) && Queued(dist0, done, queue0)
    requires BestFirst(g, center, seen0)
      && (g.Adjacent(center) <= seen0 || (queue0[0].0 == center && seen0 == {center}))
    ensures |seen0| <= |seen| && |queue| + |seen0| == |queue0| - 1 + |seen|
    ensures seen == dist.Keys && seen0 <= seen && |seen| <= limit && BestFirst(g, center, seen)
      && Between(g, center, seen, queue0[0].1)
    ensures |seen| < limit ==>
      Near(g, center, depth, dist, done + {queue0[0].0}) && Queued(dist, done + {queue0[0].0}, queue)
        && g.Adjacent(center) <= seen
  {
    hide Near, Queued, Spreading, Ball, BestFirst, Between, Precedes, FirstOf;
    var current, d := queue0[0].0, queue0[0].1;
    seen, dist, queue := seen0, dist0, queue0[1..];
    var ordered := SortByDegree(g, g.Adjacent(current));
    AllFirst(ordered);
    StartSpreading(g, center, depth, dist, done, queue0, ordered);
    SpreadingBetween(g, center, depth, dist, done, queue, current, d, ordered, 0);
    for i := 0 to |ordered|
      invariant seen == dist.Keys && seen0 <= seen && |seen| < limit && |queue| + |seen0| == |queue0| - 1 + |seen|
      invariant Spreading(g, center, depth, dist, done, queue, current, d, ordered, i)
      invariant BestFirst(g, center, seen) && |seen0| <= |seen|
      invariant g.Adjacent(center) <= seen0 || (current == center && seen == {center} + FirstOf(ordered, i))
    {
      var candidate := ordered[i];
      assert candidate in ordered;
      FirstGrows(ordered, i);
      SpreadTo(g, center, depth, dist, done, queue, current, d, ordered, i);
      if candidate !in seen {
        PrefixBest(g, center, current, ordered, i, seen0, seen);
        seen := seen + {candidate};
        dist := dist[candidate := d + 1];
        queue := queue + [(candidate, d + 1)];
        if |seen| >= limit {
          SpreadingBetween(g, center, depth, dist, done, queue, current, d, ordered, i + 1);
          return;
        }
      }
    }
    SpreadingBetween(g, center, depth, dist, done, queue, current, d, ordered, |ordered|);
    DoneSpreading(g, center, depth, dist, done, queue, current, d, ordered);
    AllFirst(ordered);
  }

  ghost function FirstOf(ordered: seq<Name>, i: nat): set<Name>
    requires i <= |ordered|
  {
    set n | n in ordered[..i]
  }

  lemma FirstGrows(ordered: seq<Name>, i: nat)
    requires i < |ordered|
    ensures FirstOf(ordered, i + 1) == FirstOf(ordered, i) + {ordered[i]}
  {
    assert ordered[..i + 1] == ordered[..i] + [ordered[i]];
  }

  lemma AllFirst(ordered: seq<Name>)
    ensures FirstOf(ordered, 0) == {} && FirstOf(ordered, |ordered|) == set n | n in ordered
  {
    assert ordered[..|ordered|] == ordered;
  }

  /** Taking the neighbours of the center in order keeps the best ones first; later on all of them are there already. */
  lemma PrefixBest(g: Graph, center: Name, current: Name, ordered: seq<Name>, i: nat, seen0: set<Name>, seen: set<Name>)
    requires i < |ordered| && (forall n :: n in ordered <==> n in g.Adjacent(current)) && seen0 <= seen
    requires forall a, b :: 0 <= a < b < |ordered| ==> Precedes(g, ordered[a], ordered[b])
    requires g.Adjacent(center) <= seen0 || (current == center && seen == {center} + FirstOf(ordered, i))
    ensures BestFirst(g, center, seen + {ordered[i]})
  {
    hide Precedes;
    if !(g.Adjacent(center) <= seen0) {
      forall a, b | a in g.Adjacent(center) && b in g.Adjacent(center) && a in seen + {ordered[i]}
        && a != center && b !in seen + {ordered[i]}
        ensures Precedes(g, a, b)
      {
        var y :| 0 <= y < |ordered| && ordered[y] == b;
        InPrefix(ordered, i, y);
        if a != ordered[i] {
          var x :| 0 <= x < i && ordered[..i][x] == a;
          assert ordered[x] == a;
        }
      }
    }
  }

  lemma AllSeen(g: Graph, center: Name, depth: nat, dist: Distances, done: set<Name>)
    requires Near(g, center, depth, dist, done) && Queued(dist, done, [])
    ensures dist.Keys == Ball(g, center, depth)
  {
    hide Ball;
    LayerSeen(g, center, depth, dist, done, depth);
    SeenInBall(g, center, depth, dist, done, depth);
  }

  lemma StartNear(g: Graph, center: Name, depth: nat)
    ensures Near(g, center, depth, map[center := 0], {}) && Queued(map[center := 0], {}, [(center, 0)])
      && BestFirst(g, center, {center}) && Between(g, center, {center}, 0)
  {
    assert (center, 0) in [(center, 0)];
    BallGrows(g, center, 0, 1);
  }

  /** A node at the depth bound needs no expansion. */
  lemma PopFar(g: Graph, center: Name, depth: nat, dist: Distances, done: set<Name>, queue: seq<(Name, nat)>)
    requires Near(g, center, depth, dist, done) && Queued(dist, done, queue) && |queue| > 0 && queue[0].1 >= depth
    ensures Near(g, center, depth, dist, done + {queue[0].0}) && Queued(dist, done + {queue[0].0}, queue[1..])
  {
    hide Ball;
    forall n | n in dist && n !in done + {queue[0].0} ensures (n, dist[n]) in queue[1..] {
      assert (n, dist[n]) in queue;
    }
  }

  /** Everything within `k` edges is there, and nothing further than `k + 1`. */
  ghost predicate WholeLayers(g: Graph, center: Name, seen: set<Name>, k: nat) {
    && (forall n :: Within(g, center, n, k) ==> n in seen)
    && (forall n :: n in seen ==> Within(g, center, n, k + 1))
  }

  lemma LayersAreWhole(g: Graph, center: Name, seen: set<Name>, k: nat)
    requires Between(g, center, seen, k)
    ensures WholeLayers(g, center, seen, k)
  {
    hide Ball, Within;
    forall n ensures (Within(g, center, n, k) ==> n in seen) && (n in seen ==> Within(g, center, n, k + 1)) {
      BallIsWithin(g, center, k, n);
      BallIsWithin(g, center, k + 1, n);
    }
  }

  /** Of the nodes an edge joins with the center, those taken have a higher degree than those left, or the same and a
    * smaller name. */
  ghost predicate NeighboursBestFirst(g: Graph, center: Name, seen: set<Name>) {
    forall a, b {:trigger Joined(g, center, a), Joined(g, center, b)} ::
      Joined(g, center, a) && Joined(g, center, b) && a in seen && a != center && b !in seen ==>
        Degree(g, a) > Degree(g, b) || (Degree(g, a) == Degree(g, b) && a.rank < b.rank)
  }

  lemma BestAreFirst(g: Graph, center: Name, seen: set<Name>)
    requires BestFirst(g, center, seen)
    ensures NeighboursBestFirst(g, center, seen)
  {
    hide Joined, Degree;
    forall a, b | Joined(g, center, a) && Joined(g, center, b) && a in seen && a != center && b !in seen
      ensures Precedes(g, a, b)
    {
      AdjacentIff(g, center, a);
      AdjacentIff(g, center, b);
    }
  }

  /** `neighborhood`: exactly the ball of the bounded depth when it is smaller than the bounded limit; otherwise
    * exactly the limit, nearest nodes first. */
  method Neighborhood(g: Graph, center: Name, depth: int, limit: int) returns (seen: set<Name>, truncated: bool)
    requires g.Loaded() && center in g.nodes
    ensures var (bound, most) := (BoundedDepth(depth), BoundedLimit(limit, 100, 200));
      truncated <==> |Ball(g, center, bound)| >= most
    ensures !truncated ==> forall n :: n in seen <==> Within(g, center, n, if depth >= 2 then 2 else 1)
    ensures truncated ==> |seen| == if 0 < limit < 200 then limit else if limit <= 0 then 100 else 200
    ensures !truncated ==> |seen| < if 0 < limit < 200 then limit else if limit <= 0 then 100 else 200
    ensures exists k: nat :: k < (if depth >= 2 then 2 else 1) && WholeLayers(g, center, seen, k)
    ensures NeighboursBestFirst(g, center, seen)
  {
    hide Near, Queued, Ball, BestFirst, Between, Within, WholeLayers, NeighboursBestFirst;
    var bound, most := BoundedDepth(depth), BoundedLimit(limit, 100, 200);
    seen := {center};
    var queue: seq<(Name, nat)> := [(center, 0)];
    ghost var dist: Distances, done: set<Name>, k: nat := map[center := 0], {}, 0;
    StartNear(g, center, bound);
    while |queue| > 0 && |seen| < most
      invariant seen == dist.Keys && |seen| <= most && BestFirst(g, center, seen) && k < bound
        && Between(g, center, seen, k)
      invariant |seen| < most ==> Near(g, center, bound, dist, done) && Queued(dist, done, queue)
      invariant |seen| < most ==>
        if done == {} then seen == {center} && queue == [(center, 0)] else g.Adjacent(center) <= seen
      decreases most - |seen|, |queue|
    {
      ghost var head := queue[0];
      if queue[0].1 >= bound {
        PopFar(g, center, bound, dist, done, queue);
        queue := queue[1..];
      } else {
        seen, dist, queue := Spread(g, center, bound, most, seen, dist, done, queue);
        k := head.1;
      }
      done := done + {head.0};
    }
    truncated := |seen| >= most;
    if truncated {
      InsideBall(g, center, seen, k, bound);
    } else {
      AllSeen(g, center, bound, dist, done);
      forall n ensures n in seen <==> Within(g, center, n, bound) { BallIsWithin(g, center, bound, n); }
    }
    LayersAreWhole(g, center, seen, k);
    BestAreFirst(g, center, seen);
  }

  lemma InsideBall(g: Graph, center: Name, seen: set<Name>, k: nat, depth: nat)
    requires Between(g, center, seen, k) && k < depth
    ensures seen <= Ball(g, center, depth) && |seen| <= |Ball(g, center, depth)|
  {
    BallGrows(g, center, k + 1, depth);
    SubsetSize(seen, Ball(g, center, depth));
  }
}
