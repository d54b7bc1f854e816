/** Identifiers. The programs compare identifiers for equality and sort them; nothing else is used of the strings. */
module Names {
  /** An identifier, standing for the string at this place in the order of all strings. */
  datatype Name = Name(rank: nat) {
    predicate Before(other: Name) { rank < other.rank }
  }

  datatype Option<+T> = None | Some(value: T)

  /** Lexicographic order on sequences of names. */
  ghost predicate LexLeq(a: seq<Name>, b: seq<Name>) {
    || |a| == 0
    || (|b| > 0 && (a[0].Before(b[0]) || (a[0] == b[0] && LexLeq(a[1..], b[1..]))))
  }

  /** The same, or the smaller name where they first differ. */
  ghost predicate NoLater(a: seq<Name>, b: seq<Name>) {
    a == b || exists k :: 0 <= k < |a| && k < |b| && a[..k] == b[..k] && a[k].rank < b[k].rank
  }

  lemma {:induction false} LexMeans(a: seq<Name>, b: seq<Name>)
    requires |a| == |b| && LexLeq(a, b)
    ensures NoLater(a, b)
  {
    if a == b {
    } else if a[0] == b[0] {
      assert a == [a[0]] + a[1..] && b == [b[0]] + b[1..];
      LexMeans(a[1..], b[1..]);
      var k :| 0 <= k < |a[1..]| && a[1..][..k] == b[1..][..k] && a[1..][k].rank < b[1..][k].rank;
      assert a[..k + 1] == [a[0]] + a[1..][..k] && b[..k + 1] == [b[0]] + b[1..][..k];
    } else {
      assert a[..0] == b[..0];
    }
  }

  ghost predicate IsLeast(n: Name, S: set<Name>) {
    n in S && forall m :: m in S ==> !m.Before(n)
  }

  lemma {:induction false} LeastExists(S: set<Name>)
    requires S != {}
    ensures exists n :: IsLeast(n, S)
    decreases |S|
  {
    var x :| x in S;
    if S == {x} {
      assert IsLeast(x, S);
    } else {
      LeastExists(S - {x});
      var m :| IsLeast(m, S - {x});
      var least := if x.Before(m) then x else m;
      forall y | y in S ensures !y.Before(least) {
        assert y == x || y in S - {x};
      }
      assert IsLeast(least, S);
    }
  }

  /** The member of `S` that sorts first. */
  ghost function Least(S: set<Name>): (n: Name)
    requires S != {}
    ensures IsLeast(n, S)
  {
    LeastExists(S);
    var n :| IsLeast(n, S);
    n
  }

  /** The members of `S` in order. */
  ghost function Sorted(S: set<Name>): seq<Name> {
    if S == {} then [] else [Least(S)] + Sorted(S - {Least(S)})
  }

  lemma LeastUnique(S: set<Name>, a: Name, b: Name)
    requires IsLeast(a, S) && IsLeast(b, S)
    ensures a == b
  {
  }

  /** Put `x` where it belongs in a sorted sequence. */
  function Insert(s: seq<Name>, x: Name): seq<Name> {
    if s == [] then [x] else if x.Before(s[0]) then [x] + s else [s[0]] + Insert(s[1..], x)
  }

  lemma {:induction false} InsertSorts(S: set<Name>, x: Name)
    requires x !in S
    ensures Insert(Sorted(S), x) == Sorted(S + {x})
    decreases |S|
  {
    var T := S + {x};
    if S == {} {
      assert T == {x} && T - {x} == {};
      assert Least(T) == x;
    } else if x.Before(Least(S)) {
      assert IsLeast(x, T);
      LeastUnique(T, x, Least(T));
      assert T - {x} == S;
    } else {
      var l := Least(S);
      assert IsLeast(l, T);
      LeastUnique(T, l, Least(T));
      assert T - {l} == (S - {l}) + {x};
      InsertSorts(S - {l}, x);
      assert Sorted(S)[0] == l && Sorted(S)[1..] == Sorted(S - {l});
    }
  }

  lemma {:induction false} SortedHas(S: set<Name>)
    ensures forall n :: n in Sorted(S) <==> n in S
    ensures |Sorted(S)| == |S|
  {
    if S != {} {
      SortedHas(S - {Least(S)});
    }
  }

  lemma {:induction false} SortedAscends(S: set<Name>)
    ensures forall i, j :: 0 <= i < j < |Sorted(S)| ==> Sorted(S)[i].Before(Sorted(S)[j])
  {
    if S != {} {
      var l := Least(S);
      SortedAscends(S - {l});
      SortedHas(S - {l});
      var rest := Sorted(S - {l});
      forall i, j | 0 <= i < j < |Sorted(S)| ensures Sorted(S)[i].Before(Sorted(S)[j]) {
        assert Sorted(S)[j] == rest[j - 1] && rest[j - 1] in rest;
        if i > 0 { assert Sorted(S)[i] == rest[i - 1]; }
      }
    }
  }

  lemma {:induction false} SubsetSize(a: set<Name>, b: set<Name>)
    requires a <= b
    ensures |a| <= |b|
    decreases |a|
  {
    if m :| m in a {
      SubsetSize(a - {m}, b - {m});
    }
  }

  /** The member of `S` that sorts first, found by looking at all of them. */
  method FindLeast(S: set<Name>) returns (n: Name)
    requires S != {}
    ensures n == Least(S)
  {
    n :| n in S;
    var rest := S - {n};
    while rest != {}
      invariant n in S && rest <= S && forall m :: m in S && m !in rest ==> !m.Before(n)
      decreases |rest|
    {
      var m :| m in rest;
      if m.Before(n) {
        n := m;
      }
      rest := rest - {m};
    }
    LeastUnique(S, n, Least(S));
  }

  method Sort(S: set<Name>) returns (s: seq<Name>)
    ensures s == Sorted(S)
    ensures (forall n :: n in s <==> n in S) && forall i, j :: 0 <= i < j < |s| ==> s[i].rank < s[j].rank
  {
    s := SortAll(S);
    hide Sorted;
    SortedHas(S);
    SortedAscends(S);
  }

  /** Take the first of what is left until nothing is. */
  method SortAll(S: set<Name>) returns (s: seq<Name>)
    ensures s == Sorted(S)
  {
    s := [];
    var rest := S;
    while rest != {}
      invariant rest <= S && s + Sorted(rest) == Sorted(S)
      decreases |rest|
    {
      var n := FindLeast(rest);
      assert Sorted(rest) == [n] + Sorted(rest - {n});
      s, rest := s + [n], rest - {n};
    }
  }
}
