/** Finite directed graphs: acyclicity, topological orders, and the least topological order. */
module Graph {
  import opened Names

  type Node = Name
  type Relation = set<(Node, Node)>

  /** `n` is a member of `S` that no member of `S` points at. */
  ghost predicate IsSource(n: Node, S: set<Node>, E: Relation) {
    n in S && forall m :: m in S ==> (m, n) !in E
  }

  /** Every nonempty set of nodes has a source; for finite graphs this says "no cycle" (see AcyclicIffNoCycle). */
  ghost predicate Acyclic(N: set<Node>, E: Relation) {
    forall S: set<Node> :: S != {} && S <= N ==> exists n :: IsSource(n, S, E)
  }

  /** A walk of `E` inside `N`. */
  ghost predicate IsWalk(p: seq<Node>, N: set<Node>, E: Relation) {
    && (forall i :: 0 <= i < |p| ==> p[i] in N)
    && (forall i :: 0 <= i < |p| - 1 ==> (p[i], p[i + 1]) in E)
  }

  /** A closed walk with at least one edge. */
  ghost predicate IsCycle(p: seq<Node>, N: set<Node>, E: Relation) {
    |p| >= 2 && IsWalk(p, N, E) && p[0] == p[|p| - 1]
  }

  lemma {:induction false} AcyclicIffNoCycle(N: set<Node>, E: Relation)
    ensures Acyclic(N, E) <==> !exists p :: IsCycle(p, N, E)
  {
    forall p | IsCycle(p, N, E) ensures !Acyclic(N, E) {
      CycleRefutesAcyclic(p, N, E);
    }
    if !Acyclic(N, E) {
      var S: set<Node> :| S != {} && S <= N && !exists n :: IsSource(n, S, E);
      var p := BackwardWalk(S, E, |S|);
      var i, j := Pigeonhole(p, S);
      var c := p[i..j + 1];
      assert IsCycle(c, N, E);
    }
  }

  /** Along a cycle every node has a predecessor on the cycle. */
  lemma CycleRefutesAcyclic(p: seq<Node>, N: set<Node>, E: Relation)
    requires IsCycle(p, N, E)
    ensures !Acyclic(N, E)
  {
    var S := set i | 0 <= i < |p| :: p[i];
    assert p[0] in S && S <= N;
    forall i | 0 <= i < |p| ensures !IsSource(p[i], S, E) {
      var before := if i == 0 then |p| - 2 else i - 1;
      assert p[before] in S && (p[before], p[before + 1]) in E;
    }
  }

  /** A set without a source has backward walks of every length. */
  lemma {:induction false} BackwardWalk(S: set<Node>, E: Relation, len: nat) returns (p: seq<Node>)
    requires S != {} && !exists n :: IsSource(n, S, E)
    ensures |p| == len + 1 && IsWalk(p, S, E)
  {
    if len == 0 {
      var n :| n in S;
      p := [n];
    } else {
      var q := BackwardWalk(S, E, len - 1);
      assert !IsSource(q[0], S, E);
      var m :| m in S && (m, q[0]) in E;
      p := [m] + q;
    }
  }

  /** More positions than values: two positions carry the same value. */
  lemma {:induction false} Pigeonhole(p: seq<Node>, S: set<Node>) returns (i: nat, j: nat)
    requires |p| > |S| && forall k :: 0 <= k < |p| ==> p[k] in S
    ensures i < j < |p| && p[i] == p[j]
    decreases |p|
  {
    var last := |p| - 1;
    if k :| 0 <= k < last && p[k] == p[last] {
      i, j := k, last;
    } else {
      i, j := Pigeonhole(p[..last], S - {p[last]});
    }
  }

  /** `o` lists `N` without repetition and no edge points backwards (or at its own origin). */
  ghost predicate IsTopological(o: seq<Node>, N: set<Node>, E: Relation) {
    && (forall n :: n in o <==> n in N)
    && (forall i, j :: 0 <= i < j < |o| ==> o[i] != o[j])
    && (forall i, j :: 0 <= i <= j < |o| ==> (o[j], o[i]) !in E)
  }

  ghost function Sources(S: set<Node>, E: Relation): set<Node> {
    set n | n in S && IsSource(n, S, E)
  }

  /** Repeatedly take the least source of what is left. */
  ghost function LeastOrder(S: set<Node>, E: Relation): seq<Node> {
    if Sources(S, E) == {} then []
    else
      var n := Least(Sources(S, E));
      [n] + LeastOrder(S - {n}, E)
  }

  lemma SubsetAcyclic(M: set<Node>, N: set<Node>, E: Relation)
    requires M <= N && Acyclic(N, E)
    ensures Acyclic(M, E)
  {
    forall S: set<Node> | S != {} && S <= M ensures exists n :: IsSource(n, S, E) {
      assert S <= N;
    }
  }

  lemma {:induction false} LeastOrderIsTopological(S: set<Node>, E: Relation)
    requires Acyclic(S, E)
    ensures IsTopological(LeastOrder(S, E), S, E)
  {
    if S != {} {
      assert S <= S;
      var n0 :| IsSource(n0, S, E);
      assert n0 in Sources(S, E);
      var n := Least(Sources(S, E));
      SubsetAcyclic(S - {n}, S, E);
      LeastOrderIsTopological(S - {n}, E);
      var rest := LeastOrder(S - {n}, E);
      var o := LeastOrder(S, E);
      assert o == [n] + rest;
      forall i, j | 0 <= i <= j < |o| ensures (o[j], o[i]) !in E {
        assert o[j] == n || o[j] in rest;
        if i > 0 { assert o[i] == rest[i - 1] && o[j] == rest[j - 1]; }
      }
    }
  }

  lemma {:induction false} LeastOrderIsLeast(S: set<Node>, E: Relation, o: seq<Node>)
    requires IsTopological(o, S, E)
    ensures LexLeq(LeastOrder(S, E), o)
    decreases |o|
  {
    if o == [] {
      forall n ensures n !in S { assert n in o <==> n in S; }
    } else {
      assert o[0] in S;
      forall m | m in S ensures (m, o[0]) !in E {
        assert m in o;
      }
      assert o[0] in Sources(S, E);
      var n := Least(Sources(S, E));
      if n == o[0] {
        var rest := o[1..];
        assert o == [n] + rest;
        forall m ensures m in rest <==> m in S - {n} {
          if m in rest {
            var i :| 0 <= i < |rest| && rest[i] == m;
            assert o[i + 1] == m && m in o;
          }
          if m in S - {n} { assert m in o; }
        }
        LeastOrderIsLeast(S - {n}, E, rest);
        assert LeastOrder(S, E)[1..] == LeastOrder(S - {n}, E);
      }
    }
  }
}
