/** Nodes reached from some roots by following edges. */
module Reachability {

  ghost predicate IsPath<N(!new)>(succ: N -> seq<N>, roots: seq<N>, p: seq<N>) {
    p != [] && p[0] in roots && forall i :: 0 <= i < |p| - 1 ==> p[i + 1] in succ(p[i])
  }

  ghost predicate Reachable<N(!new)>(succ: N -> seq<N>, roots: seq<N>, n: N) {
    exists p :: IsPath(succ, roots, p) && p[|p| - 1] == n
  }

  lemma RootReachable<N(!new)>(succ: N -> seq<N>, roots: seq<N>, n: N)
    requires n in roots
    ensures Reachable(succ, roots, n)
  {
    assert IsPath(succ, roots, [n]);
    assert [n][|[n]| - 1] == n;
  }

  lemma StepReachable<N(!new)>(succ: N -> seq<N>, roots: seq<N>, n: N, m: N)
    requires Reachable(succ, roots, n) && m in succ(n)
    ensures Reachable(succ, roots, m)
  {
    var p :| IsPath(succ, roots, p) && p[|p| - 1] == n;
    var q := p + [m];
    assert IsPath(succ, roots, q) && q[|q| - 1] == m;
  }

  /** Whatever holds the roots and is closed under the edges holds everything reachable. */
  lemma {:induction false} ClosedHolds<N(!new)>(succ: N -> seq<N>, roots: seq<N>, closed: set<N>, p: seq<N>)
    requires forall r :: r in roots ==> r in closed
    requires forall n, m :: n in closed && m in succ(n) ==> m in closed
    requires IsPath(succ, roots, p)
    ensures p[|p| - 1] in closed
  {
    if |p| > 1 {
      var q := p[..|p| - 1];
      assert IsPath(succ, roots, q);
      ClosedHolds(succ, roots, closed, q);
      assert p[|p| - 1] in succ(q[|q| - 1]);
    }
  }

  lemma ReachableIn<N(!new)>(succ: N -> seq<N>, roots: seq<N>, closed: set<N>, n: N)
    requires forall r :: r in roots ==> r in closed
    requires forall n, m :: n in closed && m in succ(n) ==> m in closed
    requires Reachable(succ, roots, n)
    ensures n in closed
  {
    var p :| IsPath(succ, roots, p) && p[|p| - 1] == n;
    ClosedHolds(succ, roots, closed, p);
  }
}
