/** The least set that contains some roots and is closed under a finite edge
    relation, and the total length of the names in a set. */
module Reachability {
  type Edges = map<string, set<string>>

  function Succ(e: Edges, x: string): set<string> {
    if x in e then e[x] else {}
  }

  ghost predicate Encloses(e: Edges, roots: set<string>, s: set<string>) {
    roots <= s && forall x :: x in s ==> Succ(e, x) <= s
  }

  ghost function Universe(e: Edges, roots: set<string>): set<string> {
    roots + (set x, y | x in e && y in e[x] :: y)
  }

  ghost function Closure(e: Edges, roots: set<string>): set<string> {
    set x | x in Universe(e, roots) && forall s: set<string> :: Encloses(e, roots, s) ==> x in s
  }

  lemma ClosureIsLeast(e: Edges, roots: set<string>)
    ensures Encloses(e, roots, Closure(e, roots))
    ensures forall s :: Encloses(e, roots, s) ==> Closure(e, roots) <= s
  {
    var c := Closure(e, roots);
    forall x | x in roots ensures x in c {
      assert forall s :: Encloses(e, roots, s) ==> x in s;
    }
    forall x, y | x in c && y in Succ(e, x) ensures y in c {
      forall s | Encloses(e, roots, s) ensures y in s {
        assert x in s;
      }
    }
  }

  /** Equal roots and equal edges out of the closure give equal closures. */
  lemma ClosureAgrees(e: Edges, f: Edges, roots: set<string>)
    requires forall x :: x in Closure(e, roots) ==> Succ(e, x) == Succ(f, x)
    ensures Closure(e, roots) == Closure(f, roots)
  {
    var c, d := Closure(e, roots), Closure(f, roots);
    ClosureIsLeast(e, roots);
    ClosureIsLeast(f, roots);
    assert Encloses(f, roots, c);
    assert d <= c;
    assert Encloses(e, roots, d);
  }

  /** Everything in a closure but its roots has a predecessor in it. */
  lemma ClosurePredecessor(e: Edges, roots: set<string>, d: string)
    requires d in Closure(e, roots) && d !in roots
    ensures exists q :: q in Closure(e, roots) && d in Succ(e, q)
  {
    ClosureIsLeast(e, roots);
    assert !Encloses(e, roots, Closure(e, roots) - {d});
  }

  ghost function TotalBytes(s: set<string>): nat
    decreases |s|
  {
    if s == {} then 0
    else
      var x :| x in s;
      |x| + TotalBytes(s - {x})
  }

  lemma {:induction false} TotalBytesRemove(s: set<string>, x: string)
    requires x in s
    ensures TotalBytes(s) == |x| + TotalBytes(s - {x})
    decreases |s|
  {
    var y :| y in s && TotalBytes(s) == |y| + TotalBytes(s - {y});
    if x != y {
      TotalBytesRemove(s - {y}, x);
      TotalBytesRemove(s - {x}, y);
      assert s - {y} - {x} == s - {x} - {y};
    }
  }

  lemma {:induction false} SubsetFits(s: set<string>, t: set<string>)
    requires s <= t
    ensures |s| <= |t| && TotalBytes(s) <= TotalBytes(t)
    decreases |t|
  {
    if s != t {
      var x :| x in t && x !in s;
      TotalBytesRemove(t, x);
      SubsetFits(s, t - {x});
    }
  }
}
